/** The market-opportunity editor (App.tsx:489-564). Its generic handlers
    `handleArrayChange`, `handleAdd` and `handleRemove` take the list's
    field name; here each of the three lists gets its own three functions,
    all built on the same list edits. */
module OpportunityEditor {
  import opened Plan
  import opened ListEdits

  const NewDriver := "New Driver"
  const NewSegment := CustomerSegment("New Segment", "", "", "")
  const NewCompetitiveAdvantage := CompetitiveAdvantage("New Feature", false, false, false)

  // ---- the section's own text fields ----

  datatype OpportunityField = MarketSize | MarketGrowth | TargetPercent | TargetDescription

  function OpportunityText(d: OpportunitySection, f: OpportunityField): string {
    match f
    case MarketSize => d.marketSize
    case MarketGrowth => d.marketGrowth
    case TargetPercent => d.targetPercent
    case TargetDescription => d.targetDescription
  }

  /** `setData({...data, marketSize: v})` and its siblings. */
  function SetOpportunityText(d: OpportunitySection, f: OpportunityField, v: string): (r: OpportunitySection)
    ensures OpportunityText(r, f) == v
    ensures forall g :: g != f ==> OpportunityText(r, g) == OpportunityText(d, g)
    ensures r.growthDrivers == d.growthDrivers
    ensures r.customerSegments == d.customerSegments
    ensures r.competitiveAdvantages == d.competitiveAdvantages
  {
    match f
    case MarketSize => d.(marketSize := v)
    case MarketGrowth => d.(marketGrowth := v)
    case TargetPercent => d.(targetPercent := v)
    case TargetDescription => d.(targetDescription := v)
  }

  // ---- growth drivers ----

  /** `handleArrayChange('growthDrivers', i, v)` */
  function ChangeGrowthDriver(d: OpportunitySection, i: int, v: string): (r: OpportunitySection)
    requires 0 <= i < |d.growthDrivers|
    ensures r.(growthDrivers := d.growthDrivers) == d
    ensures ReplacedAt(d.growthDrivers, i, v, r.growthDrivers)
  {
    d.(growthDrivers := SetAt(d.growthDrivers, i, v))
  }

  /** `handleAdd('growthDrivers', 'New Driver')` */
  function AddGrowthDriver(d: OpportunitySection): (r: OpportunitySection)
    ensures r.(growthDrivers := d.growthDrivers) == d
    ensures Appended(d.growthDrivers, NewDriver, r.growthDrivers)
  {
    d.(growthDrivers := Append(d.growthDrivers, NewDriver))
  }

  /** `handleRemove('growthDrivers', i)` */
  function RemoveGrowthDriver(d: OpportunitySection, i: int): (r: OpportunitySection)
    ensures r.(growthDrivers := d.growthDrivers) == d
    ensures RemovedAt(d.growthDrivers, i, r.growthDrivers)
  {
    d.(growthDrivers := RemoveAt(d.growthDrivers, i))
  }

  // ---- customer segments ----

  /** `handleArrayChange('customerSegments', i, {...s, segment: v})` and
      its siblings: the call site builds the new record, the handler puts
      it at `i`. */
  function ChangeCustomerSegment(d: OpportunitySection, i: int, s: CustomerSegment): (r: OpportunitySection)
    requires 0 <= i < |d.customerSegments|
    ensures r.(customerSegments := d.customerSegments) == d
    ensures ReplacedAt(d.customerSegments, i, s, r.customerSegments)
  {
    d.(customerSegments := SetAt(d.customerSegments, i, s))
  }

  /** `handleAdd('customerSegments', {segment: 'New Segment', ...})` */
  function AddCustomerSegment(d: OpportunitySection): (r: OpportunitySection)
    ensures r.(customerSegments := d.customerSegments) == d
    ensures Appended(d.customerSegments, NewSegment, r.customerSegments)
  {
    d.(customerSegments := Append(d.customerSegments, NewSegment))
  }

  /** `handleRemove('customerSegments', i)` */
  function RemoveCustomerSegment(d: OpportunitySection, i: int): (r: OpportunitySection)
    ensures r.(customerSegments := d.customerSegments) == d
    ensures RemovedAt(d.customerSegments, i, r.customerSegments)
  {
    d.(customerSegments := RemoveAt(d.customerSegments, i))
  }

  // ---- competitive advantages ----

  /** `handleArrayChange('competitiveAdvantages', i, {...a, us: v})` and its
      siblings (the feature name and the three check boxes). */
  function ChangeCompetitiveAdvantage(d: OpportunitySection, i: int, a: CompetitiveAdvantage): (r: OpportunitySection)
    requires 0 <= i < |d.competitiveAdvantages|
    ensures r.(competitiveAdvantages := d.competitiveAdvantages) == d
    ensures ReplacedAt(d.competitiveAdvantages, i, a, r.competitiveAdvantages)
  {
    d.(competitiveAdvantages := SetAt(d.competitiveAdvantages, i, a))
  }

  /** `handleAdd('competitiveAdvantages', {feature: 'New Feature', ...})` */
  function AddCompetitiveAdvantage(d: OpportunitySection): (r: OpportunitySection)
    ensures r.(competitiveAdvantages := d.competitiveAdvantages) == d
    ensures Appended(d.competitiveAdvantages, NewCompetitiveAdvantage, r.competitiveAdvantages)
  {
    d.(competitiveAdvantages := Append(d.competitiveAdvantages, NewCompetitiveAdvantage))
  }

  /** `handleRemove('competitiveAdvantages', i)` */
  function RemoveCompetitiveAdvantage(d: OpportunitySection, i: int): (r: OpportunitySection)
    ensures r.(competitiveAdvantages := d.competitiveAdvantages) == d
    ensures RemovedAt(d.competitiveAdvantages, i, r.competitiveAdvantages)
  {
    d.(competitiveAdvantages := RemoveAt(d.competitiveAdvantages, i))
  }
}

/** The business-model editor (App.tsx:641-728): revenue streams, pricing
    tiers with their lists of included features, and the four unit-economics
    figures. Adding or removing an included feature copies only the tier
    list and then changes one tier in place. */
module BusinessEditor {
  import opened Plan
  import opened ListEdits

  const NewStream := RevenueStream("New Stream", "", "", "", "")
  const NewTier := PricingTier("New Tier", "", "", [])
  const NewInclude := "New Feature"

  // ---- revenue streams ----

  datatype StreamField = Stream | Model | Pricing | Margin | Split

  function StreamText(s: RevenueStream, f: StreamField): string {
    match f
    case Stream => s.stream
    case Model => s.model
    case Pricing => s.pricing
    case Margin => s.margin
    case Split => s.split
  }

  function WithStreamText(s: RevenueStream, f: StreamField, v: string): (r: RevenueStream)
    ensures StreamText(r, f) == v
    ensures forall g :: g != f ==> StreamText(r, g) == StreamText(s, g)
  {
    match f
    case Stream => s.(stream := v)
    case Model => s.(model := v)
    case Pricing => s.(pricing := v)
    case Margin => s.(margin := v)
    case Split => s.(split := v)
  }

  /** `handleStreamChange(index, field, value)` */
  function ChangeStream(d: BusinessSection, i: int, f: StreamField, v: string): (r: BusinessSection)
    requires 0 <= i < |d.revenueStreams|
    ensures r.(revenueStreams := d.revenueStreams) == d
    ensures SameExceptAt(d.revenueStreams, i, r.revenueStreams)
    ensures StreamText(r.revenueStreams[i], f) == v
    ensures forall g :: g != f ==> StreamText(r.revenueStreams[i], g) == StreamText(d.revenueStreams[i], g)
  {
    d.(revenueStreams := SetAt(d.revenueStreams, i, WithStreamText(d.revenueStreams[i], f, v)))
  }

  /** `handleAddStream` */
  function AddStream(d: BusinessSection): (r: BusinessSection)
    ensures r.(revenueStreams := d.revenueStreams) == d
    ensures Appended(d.revenueStreams, NewStream, r.revenueStreams)
  {
    d.(revenueStreams := Append(d.revenueStreams, NewStream))
  }

  /** `handleRemoveStream(index)` */
  function RemoveStream(d: BusinessSection, i: int): (r: BusinessSection)
    ensures r.(revenueStreams := d.revenueStreams) == d
    ensures RemovedAt(d.revenueStreams, i, r.revenueStreams)
  {
    d.(revenueStreams := RemoveAt(d.revenueStreams, i))
  }

  // ---- pricing tiers ----

  /** The text fields `handleTierChange` is called with. */
  datatype TierField = Tier | Price | Target

  function TierText(t: PricingTier, f: TierField): string {
    match f
    case Tier => t.tier
    case Price => t.price
    case Target => t.target
  }

  function WithTierText(t: PricingTier, f: TierField, v: string): (r: PricingTier)
    ensures TierText(r, f) == v
    ensures forall g :: g != f ==> TierText(r, g) == TierText(t, g)
    ensures r.includes == t.includes
  {
    match f
    case Tier => t.(tier := v)
    case Price => t.(price := v)
    case Target => t.(target := v)
  }

  /** `handleTierChange(index, field, value)` */
  function ChangeTier(d: BusinessSection, i: int, f: TierField, v: string): (r: BusinessSection)
    requires 0 <= i < |d.pricingTiers|
    ensures r.(pricingTiers := d.pricingTiers) == d
    ensures SameExceptAt(d.pricingTiers, i, r.pricingTiers)
    ensures TierText(r.pricingTiers[i], f) == v
    ensures forall g :: g != f ==> TierText(r.pricingTiers[i], g) == TierText(d.pricingTiers[i], g)
    ensures r.pricingTiers[i].includes == d.pricingTiers[i].includes
  {
    d.(pricingTiers := SetAt(d.pricingTiers, i, WithTierText(d.pricingTiers[i], f, v)))
  }

  /** `handleAddTier` */
  function AddTier(d: BusinessSection): (r: BusinessSection)
    ensures r.(pricingTiers := d.pricingTiers) == d
    ensures Appended(d.pricingTiers, NewTier, r.pricingTiers)
  {
    d.(pricingTiers := Append(d.pricingTiers, NewTier))
  }

  /** `handleRemoveTier(index)` */
  function RemoveTier(d: BusinessSection, i: int): (r: BusinessSection)
    ensures r.(pricingTiers := d.pricingTiers) == d
    ensures RemovedAt(d.pricingTiers, i, r.pricingTiers)
  {
    d.(pricingTiers := RemoveAt(d.pricingTiers, i))
  }

  // ---- what one tier includes ----

  /** `handleIncludeChange(tierIndex, includeIndex, value)` */
  function ChangeInclude(d: BusinessSection, i: int, k: int, v: string): (r: BusinessSection)
    requires 0 <= i < |d.pricingTiers|
    requires 0 <= k < |d.pricingTiers[i].includes|
    ensures r.(pricingTiers := d.pricingTiers) == d
    ensures SameExceptAt(d.pricingTiers, i, r.pricingTiers)
    ensures r.pricingTiers[i].(includes := d.pricingTiers[i].includes) == d.pricingTiers[i]
    ensures ReplacedAt(d.pricingTiers[i].includes, k, v, r.pricingTiers[i].includes)
  {
    var t := d.pricingTiers[i];
    d.(pricingTiers := SetAt(d.pricingTiers, i, t.(includes := SetAt(t.includes, k, v))))
  }

  /** `handleAddInclude(tierIndex)`: copy of the tiers, then
      `includes.push('New Feature')` on tier `i` in place. */
  method AddInclude(d: BusinessSection, i: int) returns (r: BusinessSection)
    requires 0 <= i < |d.pricingTiers|
    ensures r.(pricingTiers := d.pricingTiers) == d
    ensures SameExceptAt(d.pricingTiers, i, r.pricingTiers)
    ensures r.pricingTiers[i].(includes := d.pricingTiers[i].includes) == d.pricingTiers[i]
    ensures Appended(d.pricingTiers[i].includes, NewInclude, r.pricingTiers[i].includes)
  {
    var tiers := CopyToArray(d.pricingTiers);
    tiers[i] := tiers[i].(includes := tiers[i].includes + [NewInclude]);
    r := d.(pricingTiers := tiers[..]);
  }

  /** `handleRemoveInclude(tierIndex, includeIndex)`: copy of the tiers,
      then tier `i`'s includes reassigned in place to the filtered list. */
  method RemoveInclude(d: BusinessSection, i: int, k: int) returns (r: BusinessSection)
    requires 0 <= i < |d.pricingTiers|
    ensures r.(pricingTiers := d.pricingTiers) == d
    ensures SameExceptAt(d.pricingTiers, i, r.pricingTiers)
    ensures r.pricingTiers[i].(includes := d.pricingTiers[i].includes) == d.pricingTiers[i]
    ensures RemovedAt(d.pricingTiers[i].includes, k, r.pricingTiers[i].includes)
  {
    var tiers := CopyToArray(d.pricingTiers);
    tiers[i] := tiers[i].(includes := RemoveAt(tiers[i].includes, k));
    r := d.(pricingTiers := tiers[..]);
  }

  // ---- unit economics ----

  datatype EconomicsField = Arr | Cac | Ltv | Payback

  function EconomicsText(u: UnitEconomics, f: EconomicsField): string {
    match f
    case Arr => u.arr
    case Cac => u.cac
    case Ltv => u.ltv
    case Payback => u.payback
  }

  /** `setData({...data, unitEconomics: {...data.unitEconomics, arr: v}})`
      and its siblings: one figure changes, the other three and both lists
      are kept. */
  function SetEconomics(d: BusinessSection, f: EconomicsField, v: string): (r: BusinessSection)
    ensures r.(unitEconomics := d.unitEconomics) == d
    ensures EconomicsText(r.unitEconomics, f) == v
    ensures forall g :: g != f ==> EconomicsText(r.unitEconomics, g) == EconomicsText(d.unitEconomics, g)
  {
    var u := d.unitEconomics;
    d.(unitEconomics := match f
      case Arr => u.(arr := v)
      case Cac => u.(cac := v)
      case Ltv => u.(ltv := v)
      case Payback => u.(payback := v))
  }
}

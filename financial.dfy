/** The financial-projections editor (App.tsx:1004-1178). The editor shows
    one selected year (1, 2 or 3) at a time and every handler rewrites only
    that year's entry of `years`, through a three-level spread copy. */
module FinancialEditor {
  import opened Plan
  import opened ListEdits

  const NewMilestone := "New milestone"

  /** The fields `handleYearDataChange` may set: all but the milestones. */
  datatype YearField = Revenue | Clients | Arr | Margin | Team

  function YearText(fy: FinancialYear, f: YearField): string {
    match f
    case Revenue => fy.revenue
    case Clients => fy.clients
    case Arr => fy.arr
    case Margin => fy.margin
    case Team => fy.team
  }

  function WithYearText(fy: FinancialYear, f: YearField, v: string): (r: FinancialYear)
    ensures YearText(r, f) == v
    ensures forall g :: g != f ==> YearText(r, g) == YearText(fy, g)
    ensures r.milestones == fy.milestones
  {
    match f
    case Revenue => fy.(revenue := v)
    case Clients => fy.(clients := v)
    case Arr => fy.(arr := v)
    case Margin => fy.(margin := v)
    case Team => fy.(team := v)
  }

  /** Only the entry of year `y` may differ between the two sections. */
  predicate OnlyYearChanged(d: FinancialSection, y: Year, r: FinancialSection) {
    && r.(years := d.years) == d
    && forall z: Year :: z != y ==> r.years.At(z) == d.years.At(z)
  }

  /** `handleYearDataChange(field, value)` for the selected year `y`. */
  function ChangeYearData(d: FinancialSection, y: Year, f: YearField, v: string): (r: FinancialSection)
    ensures OnlyYearChanged(d, y, r)
    ensures YearText(r.years.At(y), f) == v
    ensures forall g :: g != f ==> YearText(r.years.At(y), g) == YearText(d.years.At(y), g)
    ensures r.years.At(y).milestones == d.years.At(y).milestones
  {
    d.(years := d.years.With(y, WithYearText(d.years.At(y), f, v)))
  }

  /** `handleMilestoneChange(index, value)` for the selected year `y`. */
  function ChangeMilestone(d: FinancialSection, y: Year, i: int, v: string): (r: FinancialSection)
    requires 0 <= i < |d.years.At(y).milestones|
    ensures OnlyYearChanged(d, y, r)
    ensures r.years.At(y).(milestones := d.years.At(y).milestones) == d.years.At(y)
    ensures ReplacedAt(d.years.At(y).milestones, i, v, r.years.At(y).milestones)
  {
    var fy := d.years.At(y);
    d.(years := d.years.With(y, fy.(milestones := SetAt(fy.milestones, i, v))))
  }

  /** `handleAddMilestone` for the selected year `y`: 'New milestone' is
      appended to that year's list; the other two years are untouched. */
  function AddMilestone(d: FinancialSection, y: Year): (r: FinancialSection)
    ensures OnlyYearChanged(d, y, r)
    ensures r.years.At(y).(milestones := d.years.At(y).milestones) == d.years.At(y)
    ensures Appended(d.years.At(y).milestones, NewMilestone, r.years.At(y).milestones)
  {
    var fy := d.years.At(y);
    d.(years := d.years.With(y, fy.(milestones := Append(fy.milestones, NewMilestone))))
  }

  /** `handleRemoveMilestone(index)` for the selected year `y`. */
  function RemoveMilestone(d: FinancialSection, y: Year, i: int): (r: FinancialSection)
    ensures OnlyYearChanged(d, y, r)
    ensures r.years.At(y).(milestones := d.years.At(y).milestones) == d.years.At(y)
    ensures RemovedAt(d.years.At(y).milestones, i, r.years.At(y).milestones)
  {
    var fy := d.years.At(y);
    d.(years := d.years.With(y, fy.(milestones := RemoveAt(fy.milestones, i))))
  }

  /** Edits to different years commute: the three year tabs edit
      independent entries. */
  lemma MilestoneEditsCommute(d: FinancialSection, y: Year, z: Year)
    requires y != z
    ensures AddMilestone(AddMilestone(d, y), z) == AddMilestone(AddMilestone(d, z), y)
  {
    var a, b := AddMilestone(AddMilestone(d, y), z), AddMilestone(AddMilestone(d, z), y);
    forall w: Year ensures a.years.At(w) == b.years.At(w) {
    }
    assert a.years == b.years by {
      assert a.years.At(1) == b.years.At(1);
      assert a.years.At(2) == b.years.At(2);
      assert a.years.At(3) == b.years.At(3);
    }
  }
}

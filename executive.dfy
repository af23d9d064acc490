/** The executive-summary editor (App.tsx:405-487): its four text fields,
    and add / change / remove over its problems and its advantages. Every
    handler builds a new section from a spread copy; nothing is edited in
    place. */
module ExecutiveEditor {
  import opened Plan
  import opened ListEdits

  /** The placeholder record "Add Problem" appends. */
  const NewProblem := ExecutiveProblem("New Problem", "Description")

  /** The placeholder record "Add Advantage" appends. */
  const NewAdvantage := ExecutiveAdvantage("New Metric", "Description")

  // ---- the section's own text fields ----

  datatype ExecutiveField = MarketSize | YearThreeRevenue | UniqueValue | Solution

  function ExecutiveText(d: ExecutiveSection, f: ExecutiveField): string {
    match f
    case MarketSize => d.marketSize
    case YearThreeRevenue => d.yearThreeRevenue
    case UniqueValue => d.uniqueValue
    case Solution => d.solution
  }

  /** `setData({...data, marketSize: v})` and its siblings for the other
      three text fields: that field holds `v`, every other field, and both
      lists, are as before. */
  function SetExecutiveText(d: ExecutiveSection, f: ExecutiveField, v: string): (r: ExecutiveSection)
    ensures ExecutiveText(r, f) == v
    ensures forall g :: g != f ==> ExecutiveText(r, g) == ExecutiveText(d, g)
    ensures r.problems == d.problems && r.advantages == d.advantages
  {
    match f
    case MarketSize => d.(marketSize := v)
    case YearThreeRevenue => d.(yearThreeRevenue := v)
    case UniqueValue => d.(uniqueValue := v)
    case Solution => d.(solution := v)
  }

  // ---- problems ----

  datatype ProblemField = Title | Description

  function ProblemText(p: ExecutiveProblem, f: ProblemField): string {
    match f
    case Title => p.title
    case Description => p.description
  }

  /** `{...p, [field]: value}` */
  function WithProblemText(p: ExecutiveProblem, f: ProblemField, v: string): (r: ExecutiveProblem)
    ensures ProblemText(r, f) == v
    ensures forall g :: g != f ==> ProblemText(r, g) == ProblemText(p, g)
  {
    match f
    case Title => p.(title := v)
    case Description => p.(description := v)
  }

  /** `handleProblemChange(index, field, value)`: problem `i` differs from
      before only in `f`, every other problem and every other field of the
      section is unchanged. */
  function ChangeProblem(d: ExecutiveSection, i: int, f: ProblemField, v: string): (r: ExecutiveSection)
    requires 0 <= i < |d.problems|
    ensures r.(problems := d.problems) == d
    ensures SameExceptAt(d.problems, i, r.problems)
    ensures ProblemText(r.problems[i], f) == v
    ensures forall g :: g != f ==> ProblemText(r.problems[i], g) == ProblemText(d.problems[i], g)
  {
    d.(problems := SetAt(d.problems, i, WithProblemText(d.problems[i], f, v)))
  }

  /** `handleAddProblem`: one more problem, the placeholder, at the end. */
  function AddProblem(d: ExecutiveSection): (r: ExecutiveSection)
    ensures r.(problems := d.problems) == d
    ensures Appended(d.problems, NewProblem, r.problems)
  {
    d.(problems := Append(d.problems, NewProblem))
  }

  /** `handleRemoveProblem(index)`: the problem at `i` filtered out. */
  function RemoveProblem(d: ExecutiveSection, i: int): (r: ExecutiveSection)
    ensures r.(problems := d.problems) == d
    ensures RemovedAt(d.problems, i, r.problems)
  {
    d.(problems := RemoveAt(d.problems, i))
  }

  // ---- advantages ----

  datatype AdvantageField = Metric | AdvantageDescription

  function AdvantageText(a: ExecutiveAdvantage, f: AdvantageField): string {
    match f
    case Metric => a.metric
    case AdvantageDescription => a.description
  }

  function WithAdvantageText(a: ExecutiveAdvantage, f: AdvantageField, v: string): (r: ExecutiveAdvantage)
    ensures AdvantageText(r, f) == v
    ensures forall g :: g != f ==> AdvantageText(r, g) == AdvantageText(a, g)
  {
    match f
    case Metric => a.(metric := v)
    case AdvantageDescription => a.(description := v)
  }

  /** `handleAdvantageChange(index, field, value)` */
  function ChangeAdvantage(d: ExecutiveSection, i: int, f: AdvantageField, v: string): (r: ExecutiveSection)
    requires 0 <= i < |d.advantages|
    ensures r.(advantages := d.advantages) == d
    ensures SameExceptAt(d.advantages, i, r.advantages)
    ensures AdvantageText(r.advantages[i], f) == v
    ensures forall g :: g != f ==> AdvantageText(r.advantages[i], g) == AdvantageText(d.advantages[i], g)
  {
    d.(advantages := SetAt(d.advantages, i, WithAdvantageText(d.advantages[i], f, v)))
  }

  /** `handleAddAdvantage` */
  function AddAdvantage(d: ExecutiveSection): (r: ExecutiveSection)
    ensures r.(advantages := d.advantages) == d
    ensures Appended(d.advantages, NewAdvantage, r.advantages)
  {
    d.(advantages := Append(d.advantages, NewAdvantage))
  }

  /** `handleRemoveAdvantage(index)` */
  function RemoveAdvantage(d: ExecutiveSection, i: int): (r: ExecutiveSection)
    ensures r.(advantages := d.advantages) == d
    ensures RemovedAt(d.advantages, i, r.advantages)
  {
    d.(advantages := RemoveAt(d.advantages, i))
  }

  /** Removing the problem just added gives the section back. */
  lemma RemoveUndoesAddProblem(d: ExecutiveSection)
    ensures RemoveProblem(AddProblem(d), |d.problems|) == d
  {
    RemoveUndoesAppend(d.problems, NewProblem);
  }
}

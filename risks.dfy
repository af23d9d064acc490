/** The risks editor (App.tsx:913-976). The section is the plan's list of
    risks itself. Besides add / change / remove over risks and over each
    risk's mitigation steps, it colours every risk by its level. Adding or
    removing a mitigation step copies only the risk list and then changes
    one risk in place. */
module RisksEditor {
  import opened Plan
  import opened ListEdits
  import opened Text

  const LowColor := "border-green-500"
  const MediumColor := "border-yellow-500"
  const HighColor := "border-red-500"
  const UnknownColor := "border-gray-300"

  const NewRisk := Risk("New Risk", "Medium", "", [])
  const NewMitigation := "New mitigation step"

  /** `getRiskColor(level)`: green, yellow and red borders for the levels
      'low', 'medium' and 'high' written in any case, grey for anything
      else. Every level gets exactly one of the four colours. */
  function RiskColor(level: string): (c: string)
    ensures c == LowColor <==> SameIgnoringCase(level, "low")
    ensures c == MediumColor <==> SameIgnoringCase(level, "medium")
    ensures c == HighColor <==> SameIgnoringCase(level, "high")
    ensures c == UnknownColor <==>
      !SameIgnoringCase(level, "low") && !SameIgnoringCase(level, "medium") && !SameIgnoringCase(level, "high")
  {
    LowerMatches(level, "low");
    LowerMatches(level, "medium");
    LowerMatches(level, "high");
    var l := Lower(level);
    if l == "low" then LowColor
    else if l == "medium" then MediumColor
    else if l == "high" then HighColor
    else UnknownColor
  }

  /** The colour depends on the level only up to case. */
  lemma {:induction false} RiskColorIgnoresCase(a: string, b: string)
    requires SameIgnoringCase(a, b)
    ensures RiskColor(a) == RiskColor(b)
  {
    var words := ["low", "medium", "high"];
    forall w | w in words ensures SameIgnoringCase(a, w) <==> SameIgnoringCase(b, w) {
    }
  }

  // ---- risks ----

  /** The text fields `handleRiskChange` is called with. */
  datatype RiskField = RiskName | Level | Description

  function RiskText(r: Risk, f: RiskField): string {
    match f
    case RiskName => r.risk
    case Level => r.level
    case Description => r.description
  }

  function WithRiskText(r: Risk, f: RiskField, v: string): (q: Risk)
    ensures RiskText(q, f) == v
    ensures forall g :: g != f ==> RiskText(q, g) == RiskText(r, g)
    ensures q.mitigation == r.mitigation
  {
    match f
    case RiskName => r.(risk := v)
    case Level => r.(level := v)
    case Description => r.(description := v)
  }

  /** `handleRiskChange(index, field, value)` */
  function ChangeRisk(rs: seq<Risk>, i: int, f: RiskField, v: string): (r: seq<Risk>)
    requires 0 <= i < |rs|
    ensures SameExceptAt(rs, i, r)
    ensures RiskText(r[i], f) == v
    ensures forall g :: g != f ==> RiskText(r[i], g) == RiskText(rs[i], g)
    ensures r[i].mitigation == rs[i].mitigation
  {
    SetAt(rs, i, WithRiskText(rs[i], f, v))
  }

  /** `handleAddRisk` */
  function AddRisk(rs: seq<Risk>): (r: seq<Risk>)
    ensures Appended(rs, NewRisk, r)
  {
    Append(rs, NewRisk)
  }

  /** `handleRemoveRisk(index)` */
  function RemoveRisk(rs: seq<Risk>, i: int): (r: seq<Risk>)
    ensures RemovedAt(rs, i, r)
  {
    RemoveAt(rs, i)
  }

  // ---- mitigation steps of one risk ----

  /** `handleMitigationChange(riskIndex, mIndex, value)` */
  function ChangeMitigation(rs: seq<Risk>, i: int, m: int, v: string): (r: seq<Risk>)
    requires 0 <= i < |rs|
    requires 0 <= m < |rs[i].mitigation|
    ensures SameExceptAt(rs, i, r)
    ensures r[i].(mitigation := rs[i].mitigation) == rs[i]
    ensures ReplacedAt(rs[i].mitigation, m, v, r[i].mitigation)
  {
    SetAt(rs, i, rs[i].(mitigation := SetAt(rs[i].mitigation, m, v)))
  }

  /** `handleAddMitigation(riskIndex)`: copy of the risks, then
      `mitigation.push('New mitigation step')` on risk `i` in place. */
  method AddMitigation(rs: seq<Risk>, i: int) returns (r: seq<Risk>)
    requires 0 <= i < |rs|
    ensures SameExceptAt(rs, i, r)
    ensures r[i].(mitigation := rs[i].mitigation) == rs[i]
    ensures Appended(rs[i].mitigation, NewMitigation, r[i].mitigation)
  {
    var risks := CopyToArray(rs);
    risks[i] := risks[i].(mitigation := risks[i].mitigation + [NewMitigation]);
    r := risks[..];
  }

  /** `handleRemoveMitigation(riskIndex, mIndex)`: copy of the risks, then
      risk `i`'s mitigation reassigned in place to the filtered list. */
  method RemoveMitigation(rs: seq<Risk>, i: int, m: int) returns (r: seq<Risk>)
    requires 0 <= i < |rs|
    ensures SameExceptAt(rs, i, r)
    ensures r[i].(mitigation := rs[i].mitigation) == rs[i]
    ensures RemovedAt(rs[i].mitigation, m, r[i].mitigation)
  {
    var risks := CopyToArray(rs);
    risks[i] := risks[i].(mitigation := RemoveAt(risks[i].mitigation, m));
    r := risks[..];
  }
}

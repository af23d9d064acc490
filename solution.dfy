/** The solution-and-technology editor (App.tsx:566-639). Feature edits
    and capability edits rebuild the section from copies; adding or removing
    a capability, and the two technology-stack edits, copy only the outer
    list (a shallow copy) and then change one of its elements in place.
    Those four are methods over an array standing for that copy. */
module SolutionEditor {
  import opened Plan
  import opened ListEdits

  const NewFeature := SolutionFeature("New Feature", "", [], "")
  const NewCapability := "New Capability"

  /** `setData({...data, description: v})` */
  function SetSolutionDescription(d: SolutionSection, v: string): (r: SolutionSection)
    ensures r.description == v
    ensures r.(description := d.description) == d
  {
    d.(description := v)
  }

  // ---- features ----

  /** The text fields `handleFeatureChange` is called with. */
  datatype FeatureField = Name | Description | Revenue

  function FeatureText(f: SolutionFeature, k: FeatureField): string {
    match k
    case Name => f.name
    case Description => f.description
    case Revenue => f.revenue
  }

  function WithFeatureText(f: SolutionFeature, k: FeatureField, v: string): (r: SolutionFeature)
    ensures FeatureText(r, k) == v
    ensures forall g :: g != k ==> FeatureText(r, g) == FeatureText(f, g)
    ensures r.capabilities == f.capabilities
  {
    match k
    case Name => f.(name := v)
    case Description => f.(description := v)
    case Revenue => f.(revenue := v)
  }

  /** `handleFeatureChange(index, field, value)`: feature `i` differs only in
      field `k`; its capabilities, the other features and the rest of the
      section are unchanged. */
  function ChangeFeature(d: SolutionSection, i: int, k: FeatureField, v: string): (r: SolutionSection)
    requires 0 <= i < |d.features|
    ensures r.(features := d.features) == d
    ensures SameExceptAt(d.features, i, r.features)
    ensures FeatureText(r.features[i], k) == v
    ensures forall g :: g != k ==> FeatureText(r.features[i], g) == FeatureText(d.features[i], g)
    ensures r.features[i].capabilities == d.features[i].capabilities
  {
    d.(features := SetAt(d.features, i, WithFeatureText(d.features[i], k, v)))
  }

  /** `handleAddFeature` */
  function AddFeature(d: SolutionSection): (r: SolutionSection)
    ensures r.(features := d.features) == d
    ensures Appended(d.features, NewFeature, r.features)
  {
    d.(features := Append(d.features, NewFeature))
  }

  /** `handleRemoveFeature(index)` */
  function RemoveFeature(d: SolutionSection, i: int): (r: SolutionSection)
    ensures r.(features := d.features) == d
    ensures RemovedAt(d.features, i, r.features)
  {
    d.(features := RemoveAt(d.features, i))
  }

  // ---- capabilities of one feature ----

  /** `handleCapabilityChange(featureIndex, capIndex, value)`: capability `c`
      of feature `i` becomes `v`; the feature's other capabilities and
      fields, the other features and the rest of the section are unchanged. */
  function ChangeCapability(d: SolutionSection, i: int, c: int, v: string): (r: SolutionSection)
    requires 0 <= i < |d.features|
    requires 0 <= c < |d.features[i].capabilities|
    ensures r.(features := d.features) == d
    ensures SameExceptAt(d.features, i, r.features)
    ensures r.features[i].(capabilities := d.features[i].capabilities) == d.features[i]
    ensures ReplacedAt(d.features[i].capabilities, c, v, r.features[i].capabilities)
  {
    var f := d.features[i];
    d.(features := SetAt(d.features, i, f.(capabilities := SetAt(f.capabilities, c, v))))
  }

  /** `handleAddCapability(featureIndex)`: the features are copied, then
      `capabilities.push('New Capability')` grows feature `i`'s list in
      place. */
  method AddCapability(d: SolutionSection, i: int) returns (r: SolutionSection)
    requires 0 <= i < |d.features|
    ensures r.(features := d.features) == d
    ensures SameExceptAt(d.features, i, r.features)
    ensures r.features[i].(capabilities := d.features[i].capabilities) == d.features[i]
    ensures Appended(d.features[i].capabilities, NewCapability, r.features[i].capabilities)
  {
    var features := CopyToArray(d.features);
    features[i] := features[i].(capabilities := features[i].capabilities + [NewCapability]);
    r := d.(features := features[..]);
  }

  /** `handleRemoveCapability(featureIndex, capIndex)`: the features are
      copied, then feature `i`'s capabilities field is reassigned in place to
      the filtered list. */
  method RemoveCapability(d: SolutionSection, i: int, c: int) returns (r: SolutionSection)
    requires 0 <= i < |d.features|
    ensures r.(features := d.features) == d
    ensures SameExceptAt(d.features, i, r.features)
    ensures r.features[i].(capabilities := d.features[i].capabilities) == d.features[i]
    ensures RemovedAt(d.features[i].capabilities, c, r.features[i].capabilities)
  {
    var features := CopyToArray(d.features);
    features[i] := features[i].(capabilities := RemoveAt(features[i].capabilities, c));
    r := d.(features := features[..]);
  }

  // ---- technology stack ----

  /** The layer-name edit: `const c = [...techStack]; c[i].layer = v`. */
  method ChangeLayer(d: SolutionSection, i: int, v: string) returns (r: SolutionSection)
    requires 0 <= i < |d.techStack|
    ensures r.(techStack := d.techStack) == d
    ensures SameExceptAt(d.techStack, i, r.techStack)
    ensures r.techStack[i].layer == v
    ensures r.techStack[i].technologies == d.techStack[i].technologies
  {
    var stack := CopyToArray(d.techStack);
    stack[i] := stack[i].(layer := v);
    r := d.(techStack := stack[..]);
  }

  /** The technology edit: `const c = [...techStack];
      c[i].technologies[t] = v`. Only technology `t` of layer `i` changes. */
  method ChangeTechnology(d: SolutionSection, i: int, t: int, v: string) returns (r: SolutionSection)
    requires 0 <= i < |d.techStack|
    requires 0 <= t < |d.techStack[i].technologies|
    ensures r.(techStack := d.techStack) == d
    ensures SameExceptAt(d.techStack, i, r.techStack)
    ensures r.techStack[i].layer == d.techStack[i].layer
    ensures ReplacedAt(d.techStack[i].technologies, t, v, r.techStack[i].technologies)
  {
    var stack := CopyToArray(d.techStack);
    stack[i] := stack[i].(technologies := stack[i].technologies[t := v]);
    r := d.(techStack := stack[..]);
  }
}

/** The go-to-market editor (App.tsx:730-808). Like the opportunity editor
    it uses one generic `handleArrayChange` / `handleAdd` / `handleRemove`
    keyed by the list's field name; each of the four lists gets its own
    three functions here. */
module GTMEditor {
  import opened Plan
  import opened ListEdits

  const NewPhase := GTMPhase("New Phase", "", "", "", "", "")
  const NewChannel := GTMChannel("New Channel", "", "", "")
  const NewStage := SalesProcessStage("New Stage", "", "")
  const NewPartner := Partnership("New Partner", "", "")

  // ---- phases ----

  /** `handleArrayChange('phases', i, {...p, name: v})` and its siblings */
  function ChangePhase(d: GTMSection, i: int, p: GTMPhase): (r: GTMSection)
    requires 0 <= i < |d.phases|
    ensures r.(phases := d.phases) == d
    ensures ReplacedAt(d.phases, i, p, r.phases)
  {
    d.(phases := SetAt(d.phases, i, p))
  }

  /** `handleAdd('phases', {name: 'New Phase', ...})` */
  function AddPhase(d: GTMSection): (r: GTMSection)
    ensures r.(phases := d.phases) == d
    ensures Appended(d.phases, NewPhase, r.phases)
  {
    d.(phases := Append(d.phases, NewPhase))
  }

  /** `handleRemove('phases', i)` */
  function RemovePhase(d: GTMSection, i: int): (r: GTMSection)
    ensures r.(phases := d.phases) == d
    ensures RemovedAt(d.phases, i, r.phases)
  {
    d.(phases := RemoveAt(d.phases, i))
  }

  // ---- channels ----

  /** `handleArrayChange('channels', i, {...c, channel: v})` and its siblings */
  function ChangeChannel(d: GTMSection, i: int, c: GTMChannel): (r: GTMSection)
    requires 0 <= i < |d.channels|
    ensures r.(channels := d.channels) == d
    ensures ReplacedAt(d.channels, i, c, r.channels)
  {
    d.(channels := SetAt(d.channels, i, c))
  }

  /** `handleAdd('channels', {channel: 'New Channel', ...})` */
  function AddChannel(d: GTMSection): (r: GTMSection)
    ensures r.(channels := d.channels) == d
    ensures Appended(d.channels, NewChannel, r.channels)
  {
    d.(channels := Append(d.channels, NewChannel))
  }

  /** `handleRemove('channels', i)` */
  function RemoveChannel(d: GTMSection, i: int): (r: GTMSection)
    ensures r.(channels := d.channels) == d
    ensures RemovedAt(d.channels, i, r.channels)
  {
    d.(channels := RemoveAt(d.channels, i))
  }

  // ---- sales process ----

  /** `handleArrayChange('salesProcess', i, {...s, stage: v})` and its siblings */
  function ChangeStage(d: GTMSection, i: int, s: SalesProcessStage): (r: GTMSection)
    requires 0 <= i < |d.salesProcess|
    ensures r.(salesProcess := d.salesProcess) == d
    ensures ReplacedAt(d.salesProcess, i, s, r.salesProcess)
  {
    d.(salesProcess := SetAt(d.salesProcess, i, s))
  }

  /** `handleAdd('salesProcess', {stage: 'New Stage', ...})` */
  function AddStage(d: GTMSection): (r: GTMSection)
    ensures r.(salesProcess := d.salesProcess) == d
    ensures Appended(d.salesProcess, NewStage, r.salesProcess)
  {
    d.(salesProcess := Append(d.salesProcess, NewStage))
  }

  /** `handleRemove('salesProcess', i)` */
  function RemoveStage(d: GTMSection, i: int): (r: GTMSection)
    ensures r.(salesProcess := d.salesProcess) == d
    ensures RemovedAt(d.salesProcess, i, r.salesProcess)
  {
    d.(salesProcess := RemoveAt(d.salesProcess, i))
  }

  // ---- partnerships ----

  /** `handleArrayChange('partnerships', i, {...p, partner: v})` and its siblings */
  function ChangePartnership(d: GTMSection, i: int, p: Partnership): (r: GTMSection)
    requires 0 <= i < |d.partnerships|
    ensures r.(partnerships := d.partnerships) == d
    ensures ReplacedAt(d.partnerships, i, p, r.partnerships)
  {
    d.(partnerships := SetAt(d.partnerships, i, p))
  }

  /** `handleAdd('partnerships', {partner: 'New Partner', ...})` */
  function AddPartnership(d: GTMSection): (r: GTMSection)
    ensures r.(partnerships := d.partnerships) == d
    ensures Appended(d.partnerships, NewPartner, r.partnerships)
  {
    d.(partnerships := Append(d.partnerships, NewPartner))
  }

  /** `handleRemove('partnerships', i)` */
  function RemovePartnership(d: GTMSection, i: int): (r: GTMSection)
    ensures r.(partnerships := d.partnerships) == d
    ensures RemovedAt(d.partnerships, i, r.partnerships)
  {
    d.(partnerships := RemoveAt(d.partnerships, i))
  }
}

/** The roadmap editor (App.tsx:810-911): launch phases with their task
    lists, product-roadmap quarters with their items, team-building
    departments and KPIs. Task edits have their own handlers; the rest go
    through the generic `handleArrayChange` / `handleAdd` / `handleRemove`.
    Adding or removing a task copies only the phase list and then changes
    one phase in place. */
module RoadmapEditor {
  import opened Plan
  import opened ListEdits

  const NewTask := "New Task"
  const NewLaunchPhase := LaunchPhase("New Phase", "", [])
  const NewDepartment := TeamBuildingDepartment("New Dept.", Hires(0, 0, 0), [])
  const NewKpi := KPI("New KPI", "")

  // ---- tasks of one launch phase ----

  /** `handleTaskChange(phaseIndex, taskIndex, value)` */
  function ChangeTask(d: RoadmapSection, p: int, t: int, v: string): (r: RoadmapSection)
    requires 0 <= p < |d.launch|
    requires 0 <= t < |d.launch[p].tasks|
    ensures r.(launch := d.launch) == d
    ensures SameExceptAt(d.launch, p, r.launch)
    ensures r.launch[p].(tasks := d.launch[p].tasks) == d.launch[p]
    ensures ReplacedAt(d.launch[p].tasks, t, v, r.launch[p].tasks)
  {
    var phase := d.launch[p];
    d.(launch := SetAt(d.launch, p, phase.(tasks := SetAt(phase.tasks, t, v))))
  }

  /** `handleAddTask(phaseIndex)`: copy of the phases, then
      `tasks.push('New Task')` on phase `p` in place. */
  method AddTask(d: RoadmapSection, p: int) returns (r: RoadmapSection)
    requires 0 <= p < |d.launch|
    ensures r.(launch := d.launch) == d
    ensures SameExceptAt(d.launch, p, r.launch)
    ensures r.launch[p].(tasks := d.launch[p].tasks) == d.launch[p]
    ensures Appended(d.launch[p].tasks, NewTask, r.launch[p].tasks)
  {
    var launch := CopyToArray(d.launch);
    launch[p] := launch[p].(tasks := launch[p].tasks + [NewTask]);
    r := d.(launch := launch[..]);
  }

  /** `handleRemoveTask(phaseIndex, taskIndex)`: copy of the phases, then
      phase `p`'s tasks reassigned in place to the filtered list. */
  method RemoveTask(d: RoadmapSection, p: int, t: int) returns (r: RoadmapSection)
    requires 0 <= p < |d.launch|
    ensures r.(launch := d.launch) == d
    ensures SameExceptAt(d.launch, p, r.launch)
    ensures r.launch[p].(tasks := d.launch[p].tasks) == d.launch[p]
    ensures RemovedAt(d.launch[p].tasks, t, r.launch[p].tasks)
  {
    var launch := CopyToArray(d.launch);
    launch[p] := launch[p].(tasks := RemoveAt(launch[p].tasks, t));
    r := d.(launch := launch[..]);
  }

  // ---- launch phases ----

  /** `handleArrayChange('launch', i, {...p, month: v})` and its sibling */
  function ChangeLaunchPhase(d: RoadmapSection, i: int, p: LaunchPhase): (r: RoadmapSection)
    requires 0 <= i < |d.launch|
    ensures r.(launch := d.launch) == d
    ensures ReplacedAt(d.launch, i, p, r.launch)
  {
    d.(launch := SetAt(d.launch, i, p))
  }

  /** `handleAdd('launch', {month: 'New Phase', focus: '', tasks: []})` */
  function AddLaunchPhase(d: RoadmapSection): (r: RoadmapSection)
    ensures r.(launch := d.launch) == d
    ensures Appended(d.launch, NewLaunchPhase, r.launch)
  {
    d.(launch := Append(d.launch, NewLaunchPhase))
  }

  /** `handleRemove('launch', i)` */
  function RemoveLaunchPhase(d: RoadmapSection, i: int): (r: RoadmapSection)
    ensures r.(launch := d.launch) == d
    ensures RemovedAt(d.launch, i, r.launch)
  {
    d.(launch := RemoveAt(d.launch, i))
  }

  // ---- product roadmap (edit only: the editor has no add or remove here) ----

  /** `handleArrayChange('productRoadmap', i, {...q, quarter: v})` */
  function ChangeQuarter(d: RoadmapSection, i: int, q: RoadmapQuarter): (r: RoadmapSection)
    requires 0 <= i < |d.productRoadmap|
    ensures r.(productRoadmap := d.productRoadmap) == d
    ensures ReplacedAt(d.productRoadmap, i, q, r.productRoadmap)
  {
    d.(productRoadmap := SetAt(d.productRoadmap, i, q))
  }

  /** The item edit: a copy of quarter `i`'s items with item `k` replaced,
      handed to `handleArrayChange('productRoadmap', i, {...q, items})`. */
  function ChangeQuarterItem(d: RoadmapSection, i: int, k: int, v: string): (r: RoadmapSection)
    requires 0 <= i < |d.productRoadmap|
    requires 0 <= k < |d.productRoadmap[i].items|
    ensures r.(productRoadmap := d.productRoadmap) == d
    ensures SameExceptAt(d.productRoadmap, i, r.productRoadmap)
    ensures r.productRoadmap[i].quarter == d.productRoadmap[i].quarter
    ensures ReplacedAt(d.productRoadmap[i].items, k, v, r.productRoadmap[i].items)
  {
    var q := d.productRoadmap[i];
    ChangeQuarter(d, i, q.(items := SetAt(q.items, k, v)))
  }

  // ---- team building ----

  /** `handleArrayChange('teamBuilding', i, {...t, department: v})` and the
      hire-count edits, with the new record built by the caller. */
  function ChangeDepartment(d: RoadmapSection, i: int, t: TeamBuildingDepartment): (r: RoadmapSection)
    requires 0 <= i < |d.teamBuilding|
    ensures r.(teamBuilding := d.teamBuilding) == d
    ensures ReplacedAt(d.teamBuilding, i, t, r.teamBuilding)
  {
    d.(teamBuilding := SetAt(d.teamBuilding, i, t))
  }

  /** `handleAdd('teamBuilding', {department: 'New Dept.', ...})` */
  function AddDepartment(d: RoadmapSection): (r: RoadmapSection)
    ensures r.(teamBuilding := d.teamBuilding) == d
    ensures Appended(d.teamBuilding, NewDepartment, r.teamBuilding)
  {
    d.(teamBuilding := Append(d.teamBuilding, NewDepartment))
  }

  /** `handleRemove('teamBuilding', i)` */
  function RemoveDepartment(d: RoadmapSection, i: int): (r: RoadmapSection)
    ensures r.(teamBuilding := d.teamBuilding) == d
    ensures RemovedAt(d.teamBuilding, i, r.teamBuilding)
  {
    d.(teamBuilding := RemoveAt(d.teamBuilding, i))
  }

  // ---- KPIs ----

  /** `handleArrayChange('kpis', i, {...k, metric: v})` and its sibling */
  function ChangeKpi(d: RoadmapSection, i: int, k: KPI): (r: RoadmapSection)
    requires 0 <= i < |d.kpis|
    ensures r.(kpis := d.kpis) == d
    ensures ReplacedAt(d.kpis, i, k, r.kpis)
  {
    d.(kpis := SetAt(d.kpis, i, k))
  }

  /** `handleAdd('kpis', {metric: 'New KPI', target: ''})` */
  function AddKpi(d: RoadmapSection): (r: RoadmapSection)
    ensures r.(kpis := d.kpis) == d
    ensures Appended(d.kpis, NewKpi, r.kpis)
  {
    d.(kpis := Append(d.kpis, NewKpi))
  }

  /** `handleRemove('kpis', i)` */
  function RemoveKpi(d: RoadmapSection, i: int): (r: RoadmapSection)
    ensures r.(kpis := d.kpis) == d
    ensures RemovedAt(d.kpis, i, r.kpis)
  {
    d.(kpis := RemoveAt(d.kpis, i))
  }
}

// The rentable project aggregate, its stored form, and why a project behaves
// the same whether it stays in memory or is saved and reloaded.

module PoolDomain {
  import opened Types

  datatype State = Free | Allocated | Cleaning | Quarantine | Decommissioned

  const MAX_CLEANUP_FAILURES := 3

  datatype Event =
    | AllocatedTo(project: ProjectId, lab: LabId)
    | Releasing(project: ProjectId, lab: LabId)
    | Freed(project: ProjectId)
    | Quarantined(project: ProjectId, reason: string, failures: int)

  datatype Project = Project(
    id: ProjectId,
    kiProject: string,
    domain: string,
    name: string,
    state: State,
    lab: Option<LabId>,
    failures: int,
    changedAt: Time,
    createdAt: Time,
    pending: seq<Event>)
  {
    // What the projects_allocation_consistency constraint and the failure
    // budget make true of every stored row.
    predicate WellFormed() {
      && (state == Allocated ==> lab.Some?)
      && 0 <= failures <= MAX_CLEANUP_FAILURES
      && (failures == MAX_CLEANUP_FAILURES ==> state == Quarantine)
    }

    function AllocateTo(to: LabId, now: Time): Change {
      if state != Free then Change(this, Some(InvalidTransition))
      else Change(this.(state := Allocated, lab := Some(to), changedAt := now,
                        pending := pending + [AllocatedTo(id, to)]), None)
    }

    // The event names the lab, so an allocated project must have one: the
    // source dereferences the pointer without a check.
    function Release(now: Time): Change
      requires state == Allocated ==> lab.Some?
    {
      if state != Allocated then Change(this, Some(InvalidTransition))
      else Change(this.(state := Cleaning, changedAt := now, pending := pending + [Releasing(id, lab.value)]), None)
    }

    function MarkClean(now: Time): Change {
      if state != Cleaning then Change(this, Some(InvalidTransition))
      else Change(this.(state := Free, lab := None, failures := 0, changedAt := now,
        pending := pending + [Freed(id)]), None)
    }

    function RecordCleanupFailure(reason: string, now: Time): Change {
      if state != Cleaning then Change(this, Some(InvalidTransition))
      else
        var counted := this.(failures := failures + 1, changedAt := now);
        if counted.failures < MAX_CLEANUP_FAILURES then Change(counted, None)
        else Change(counted.(state := Quarantine,
          pending := pending + [Quarantined(id, reason, counted.failures)]), None)
    }

    function QuarantineNow(reason: string, now: Time): Change {
      if state == Decommissioned || state == Quarantine then Change(this, Some(InvalidTransition))
      else Change(this.(state := Quarantine, changedAt := now,
        pending := pending + [Quarantined(id, reason, failures)]), None)
    }

    function ManualResolve(now: Time): Change {
      if state != Quarantine then Change(this, Some(InvalidTransition))
      else Change(this.(state := Cleaning, failures := 0, changedAt := now), None)
    }
  }

  datatype Change = Change(project: Project, error: Option<Error>)

  class ProjectAggregate {
    const id: ProjectId
    const kiProject: string
    const domain: string
    const name: string
    const createdAt: Time
    var state: State
    var lab: Option<LabId>
    var failures: int
    var changedAt: Time
    var pending: seq<Event>

    function Value(): Project
      reads this
    {
      Project(id, kiProject, domain, name, state, lab, failures, changedAt, createdAt, pending)
    }

    // Loads the aggregate from its row; a fresh aggregate has no events.
    constructor FromRow(row: Row)
      ensures Value() == Loaded(row)
    {
      id, kiProject, domain, name := row.id, row.kiProject, row.domain, row.name;
      createdAt, changedAt := row.createdAt, row.changedAt;
      state, lab, failures := row.state, row.lab, row.failures;
      pending := [];
    }

    method AllocateTo(to: LabId, now: Time) returns (error: Option<Error>)
      modifies this
      ensures Change(Value(), error) == old(Value()).AllocateTo(to, now)
    {
      if state != Free {
        return Some(InvalidTransition);
      }
      state := Allocated;
      lab := Some(to);
      changedAt := now;
      pending := pending + [AllocatedTo(id, to)];
      error := None;
    }

    method Release(now: Time) returns (error: Option<Error>)
      requires state == Allocated ==> lab.Some?
      modifies this
      ensures Change(Value(), error) == old(Value()).Release(now)
    {
      if state != Allocated {
        return Some(InvalidTransition);
      }
      state := Cleaning;
      changedAt := now;
      pending := pending + [Releasing(id, lab.value)];
      error := None;
    }

    method MarkClean(now: Time) returns (error: Option<Error>)
      modifies this
      ensures Change(Value(), error) == old(Value()).MarkClean(now)
    {
      if state != Cleaning {
        return Some(InvalidTransition);
      }
      state := Free;
      lab := None;
      failures := 0;
      changedAt := now;
      pending := pending + [Freed(id)];
      error := None;
    }

    method RecordCleanupFailure(reason: string, now: Time) returns (error: Option<Error>)
      modifies this
      ensures Change(Value(), error) == old(Value()).RecordCleanupFailure(reason, now)
    {
      if state != Cleaning {
        return Some(InvalidTransition);
      }
      failures := failures + 1;
      changedAt := now;
      if failures >= MAX_CLEANUP_FAILURES {
        state := Quarantine;
        pending := pending + [Quarantined(id, reason, failures)];
      }
      error := None;
    }

    method QuarantineNow(reason: string, now: Time) returns (error: Option<Error>)
      modifies this
      ensures Change(Value(), error) == old(Value()).QuarantineNow(reason, now)
    {
      if state == Decommissioned || state == Quarantine {
        return Some(InvalidTransition);
      }
      state := Quarantine;
      changedAt := now;
      pending := pending + [Quarantined(id, reason, failures)];
      error := None;
    }

    method ManualResolve(now: Time) returns (error: Option<Error>)
      modifies this
      ensures Change(Value(), error) == old(Value()).ManualResolve(now)
    {
      if state != Quarantine {
        return Some(InvalidTransition);
      }
      state := Cleaning;
      failures := 0;
      changedAt := now;
      error := None;
    }

    method PullEvents() returns (events: seq<Event>)
      modifies this`pending
      ensures events == old(pending)
      ensures Value() == old(Value()).(pending := [])
    {
      events := pending;
      pending := [];
    }
  }

  // ---------------------------------------------------------------------
  // Saving and loading.

  const MAX_INT32: int := 0x7fff_ffff

  datatype Row = Row(
    id: ProjectId,
    kiProject: string,
    domain: string,
    name: string,
    state: State,
    lab: Option<LabId>,
    failures: int,
    changedAt: Time,
    createdAt: Time)

  // The lab id is stored only while the project is allocated or cleaning.
  function StoredLab(p: Project): Option<LabId> {
    if p.state == Allocated || p.state == Cleaning then p.lab else None
  }

  function Stored(p: Project): Result<Row> {
    if p.failures < 0 || p.failures > MAX_INT32 then Err(InvalidInput)
    else Ok(Row(p.id, p.kiProject, p.domain, p.name, p.state, StoredLab(p), p.failures, p.changedAt, p.createdAt))
  }

  function Loaded(r: Row): Project {
    Project(r.id, r.kiProject, r.domain, r.name, r.state, r.lab, r.failures, r.changedAt, r.createdAt, [])
  }

  // Exactly the failure counts that fit the column are stored, and what is
  // loaded again is the project without its events and, unless it is allocated
  // or cleaning, without its lab.
  lemma StoreAndLoad(p: Project)
    ensures Stored(p).Ok? <==> 0 <= p.failures <= 2147483647
    ensures Stored(p).Err? ==> Stored(p).error == InvalidInput
    ensures Stored(p).Ok? ==>
      Loaded(Stored(p).value) == p.(pending := [], lab := if p.state in {Allocated, Cleaning} then p.lab else None)
  {
  }

  datatype Op =
    | DoAllocate(lab: LabId, now: Time)
    | DoRelease(now: Time)
    | DoMarkClean(now: Time)
    | DoRecordFailure(reason: string, now: Time)
    | DoQuarantine(reason: string, now: Time)
    | DoResolve(now: Time)
    | SaveAndLoad

  // A project, the events its saves have put in the outbox, and the error (or
  // its absence) of every operation so far.
  datatype Run = Run(project: Project, outbox: seq<Event>, errors: seq<Option<Error>>) {
    function Events(): seq<Event> { outbox + project.pending }
  }

  function Perform(p: Project, op: Op): (c: Change)
    requires p.WellFormed() && op != SaveAndLoad
    ensures c.project.WellFormed()
  {
    match op
    case DoAllocate(lab, now) => p.AllocateTo(lab, now)
    case DoRelease(now) => p.Release(now)
    case DoMarkClean(now) => p.MarkClean(now)
    case DoRecordFailure(reason, now) => p.RecordCleanupFailure(reason, now)
    case DoQuarantine(reason, now) => p.QuarantineNow(reason, now)
    case DoResolve(now) => p.ManualResolve(now)
  }

  function Apply(r: Run, op: Op): (r': Run)
    requires r.project.WellFormed()
    ensures r'.project.WellFormed()
  {
    if op == SaveAndLoad then
      match Stored(r.project)
      case Err(e) => r.(errors := r.errors + [Some(e)])
      case Ok(row) => Run(Loaded(row), r.Events(), r.errors)
    else
      var c := Perform(r.project, op);
      r.(project := c.project, errors := r.errors + [c.error])
  }

  // What an operation that works leaves, field by field, with its event.
  lemma OpStores(p: Project, op: Op)
    requires p.WellFormed() && op != SaveAndLoad && Perform(p, op).error.None?
    ensures op.DoRelease? ==> p.lab.Some?
    ensures Perform(p, op).project == match op
      case DoAllocate(lab, now) =>
        p.(state := Allocated, lab := Some(lab), changedAt := now, pending := p.pending + [AllocatedTo(p.id, lab)])
      case DoRelease(now) =>
        p.(state := Cleaning, changedAt := now, pending := p.pending + [Releasing(p.id, p.lab.value)])
      case DoMarkClean(now) =>
        p.(state := Free, lab := None, failures := 0, changedAt := now, pending := p.pending + [Freed(p.id)])
      case DoRecordFailure(reason, now) =>
        if p.failures < 2 then p.(failures := p.failures + 1, changedAt := now)
        else p.(state := Quarantine, failures := 3, changedAt := now,
          pending := p.pending + [Quarantined(p.id, reason, 3)])
      case DoQuarantine(reason, now) =>
        p.(state := Quarantine, changedAt := now, pending := p.pending + [Quarantined(p.id, reason, p.failures)])
      case DoResolve(now) => p.(state := Cleaning, failures := 0, changedAt := now)
  {
  }

  // When each works; one that does not changes nothing.
  lemma OpWorksIff(p: Project, op: Op)
    requires p.WellFormed() && op != SaveAndLoad
    ensures Perform(p, op).error.None? <==> match op
      case DoAllocate(_, _) => p.state == Free
      case DoRelease(_) => p.state == Allocated
      case DoMarkClean(_) => p.state == Cleaning
      case DoRecordFailure(_, _) => p.state == Cleaning
      case DoQuarantine(_, _) => p.state in {Free, Allocated, Cleaning}
      case DoResolve(_) => p.state == Quarantine
    ensures Perform(p, op).error.Some? ==> Perform(p, op) == Change(p, Some(InvalidTransition))
  {
  }

  // Every call of Release inside meets its precondition: this is where the
  // source's pointer dereference is shown safe.
  function ApplyAll(p: Project, ops: seq<Op>): (r: Run)
    requires p.WellFormed()
    ensures r.project.WellFormed()
  {
    if ops == [] then Run(p, [], [])
    else Apply(ApplyAll(p, ops[..|ops| - 1]), ops[|ops| - 1])
  }

  function WithoutSaves(ops: seq<Op>): seq<Op> {
    if ops == [] then []
    else
      var rest := WithoutSaves(ops[..|ops| - 1]);
      if ops[|ops| - 1] == SaveAndLoad then rest else rest + [ops[|ops| - 1]]
  }

  // Two runs an observer cannot tell apart. The remembered lab may differ,
  // but not while the project is allocated, when Release reads it.
  ghost predicate Indistinguishable(a: Run, b: Run) {
    && a.errors == b.errors
    && a.Events() == b.Events()
    && a.project.(lab := None, pending := []) == b.project.(lab := None, pending := [])
    && (a.project.state == Allocated ==> a.project.lab == b.project.lab)
  }

  lemma StepsAlike(a: Run, b: Run, op: Op)
    requires a.project.WellFormed() && b.project.WellFormed() && Indistinguishable(a, b)
    ensures op == SaveAndLoad ==> Indistinguishable(Apply(a, op), b)
    ensures op != SaveAndLoad ==> Indistinguishable(Apply(a, op), Apply(b, op))
  {
    if op != SaveAndLoad {
      var x, y := Perform(a.project, op).project, Perform(b.project, op).project;
      var emitted := x.pending[|a.project.pending|..];
      assert x.pending == a.project.pending + emitted && y.pending == b.project.pending + emitted;
      assert Apply(a, op).Events() == a.Events() + emitted;
      assert Apply(b, op).Events() == b.Events() + emitted;
    }
  }

  // Saving and reloading a project between any of its operations changes
  // neither its states, failure counts and errors nor the events emitted.
  lemma {:induction false} PersistenceIsInvisible(p: Project, ops: seq<Op>)
    requires p.WellFormed()
    ensures Indistinguishable(ApplyAll(p, ops), ApplyAll(p, WithoutSaves(ops)))
  {
    if ops != [] {
      var front, last := ops[..|ops| - 1], ops[|ops| - 1];
      PersistenceIsInvisible(p, front);
      StepsAlike(ApplyAll(p, front), ApplyAll(p, WithoutSaves(front)), last);
      if last != SaveAndLoad {
        assert WithoutSaves(ops)[..|WithoutSaves(ops)| - 1] == WithoutSaves(front);
      }
    }
  }

  // The remembered lab itself is not preserved: quarantine from allocated,
  // then a manual resolve, keeps it in memory and loses it in storage.
  lemma LabIdIsForgotten(p: Project, now: Time)
    requires p.WellFormed() && p.state == Allocated
    ensures var ops := [DoQuarantine("", now), SaveAndLoad, DoResolve(now)];
      && ApplyAll(p, ops).project.lab == None
      && ApplyAll(p, WithoutSaves(ops)).project.lab == p.lab
      && p.lab != None
  {
    var quarantined := Apply(Run(p, [], []), DoQuarantine("", now));
    assert ApplyAll(p, [DoQuarantine("", now)]) == quarantined;
    var ops := [DoQuarantine("", now), SaveAndLoad, DoResolve(now)];
    assert ops[..2][..1] == [DoQuarantine("", now)];
    assert ApplyAll(p, ops[..2]) == Apply(quarantined, SaveAndLoad);
    assert ApplyAll(p, ops) == Apply(Apply(quarantined, SaveAndLoad), DoResolve(now));
    var short := [DoQuarantine("", now), DoResolve(now)];
    assert short[..1] == [DoQuarantine("", now)];
    assert ApplyAll(p, short) == Apply(quarantined, DoResolve(now));
    assert WithoutSaves([DoQuarantine("", now)]) == [DoQuarantine("", now)];
    assert WithoutSaves(ops[..2]) == [DoQuarantine("", now)];
    assert WithoutSaves(ops) == short;
  }
}

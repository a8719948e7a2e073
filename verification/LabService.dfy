// The user-facing lab operations: renting a project and creating a lab in one
// transaction, and stopping, freezing, unfreezing and extending labs.

module LabService {
  import opened Types
  import opened LabDomain
  import opened Identity
  import P = PoolDomain
  import C = CleanupDomain
  import D = DeployDomain
  import Cloud = CloudDomain
  import Quota

  datatype Tables = Tables(labs: map<LabId, Lab>, projects: C.Projects)

  datatype Reply = Reply(tables: Tables, result: Result<Lab>)

  const QUOTA_MAX_AGE := 60
  const CLEANUP_DURATION := 2 * 3600
  const FREEZE_DURATION := 24 * 3600

  // Every template asks the guard for the same footprint.
  const RESOURCE_REQUEST := Cloud.Amount(2, 4096, 20)

  // What the quota cache returned: an error, or a snapshot and its age.
  datatype QuotaReading = Unreadable | Reading(snapshot: Quota.Snapshot, age: Time)

  // id is the fresh lab id; domain is the course's, if the course exists;
  // works tells which statements of the transaction succeed: by number, the
  // search for an active lab (1), the insert (2), the allocation (3), the save
  // of the lab (4), the save of the project (5) and the commit (6).
  datatype CreateInput = CreateInput(
    id: LabId,
    student: UserId,
    course: CourseId,
    template: TemplateId,
    quota: QuotaReading,
    thresholdPct: real,
    domain: Option<string>,
    now: Time,
    works: nat -> bool)

  predicate HasActive(labs: map<LabId, Lab>, student: UserId, course: CourseId) {
    exists l :: l in labs && labs[l].student == student && labs[l].course == course && IsActive(labs[l].state)
  }

  // ORDER BY last_state_change_at, id
  predicate Earlier(a: P.Row, b: P.Row) {
    a.changedAt < b.changedAt || (a.changedAt == b.changedAt && a.id <= b.id)
  }

  predicate IsFreeIn(projects: C.Projects, domain: string, p: ProjectId) {
    p in projects && projects[p].state == P.Free && projects[p].domain == domain
  }

  // The row the allocation statement picks: the longest free of the domain.
  ghost predicate IsCandidate(projects: C.Projects, domain: string, p: ProjectId) {
    && IsFreeIn(projects, domain, p)
    && forall q :: IsFreeIn(projects, domain, q) ==> Earlier(projects[p], projects[q])
  }

  ghost predicate PoolHas(projects: C.Projects, domain: string) {
    exists p :: IsCandidate(projects, domain, p)
  }

  lemma {:induction false} EarliestExists(projects: C.Projects, some: set<ProjectId>) returns (p: ProjectId)
    requires some != {} && some <= projects.Keys
    ensures p in some && forall q :: q in some ==> Earlier(projects[p], projects[q])
    decreases some
  {
    p :| p in some;
    if some != {p} {
      var q := EarliestExists(projects, some - {p});
      if Earlier(projects[q], projects[p]) {
        p := q;
      }
    }
  }

  // The statement finds a row exactly when the domain has a free project.
  lemma PoolHasIffSomeFree(projects: C.Projects, domain: string)
    ensures PoolHas(projects, domain) <==> exists p :: IsFreeIn(projects, domain, p)
  {
    var free := set p | p in projects && IsFreeIn(projects, domain, p);
    if p :| IsFreeIn(projects, domain, p) {
      assert p in free;
      var q := EarliestExists(projects, free);
      assert IsCandidate(projects, domain, q);
    }
  }

  ghost function Candidate(projects: C.Projects, domain: string): ProjectId
    requires PoolHas(projects, domain)
  {
    var p :| IsCandidate(projects, domain, p); p
  }

  // Two projects never tie, so the statement has no choice.
  lemma CandidateIsUnique(projects: C.Projects, domain: string, p: ProjectId)
    requires C.RowsWellFormed(projects) && IsCandidate(projects, domain, p)
    ensures PoolHas(projects, domain) && Candidate(projects, domain) == p
  {
    var q := Candidate(projects, domain);
    assert Earlier(projects[p], projects[q]) && Earlier(projects[q], projects[p]);
  }

  // The row as the statement leaves it; no event is recorded.
  function Rented(row: P.Row, lab: LabId, now: Time): P.Row {
    row.(state := P.Allocated, lab := Some(lab), changedAt := now)
  }

  // The lab in pending_project, before and after it is first inserted.
  function Asked(i: CreateInput): Lab {
    NewLab(i.id, i.student, i.course, i.template, i.now).Transition(PendingProject, "quota_ok", i.now).lab
  }

  function Opened(i: CreateInput): Lab {
    Asked(i).Saved()
  }

  // What the insert and the save of a create put in the outbox.
  lemma CreateAnnounces(i: CreateInput, p: ProjectId)
    ensures Asked(i).pending ==
      [Created(i.id, i.student, i.course, i.template), StateChanged(i.id, PendingQuota, PendingProject, "quota_ok")]
    ensures Opened(i).AssignProject(p, i.now).lab.pending ==
      [ProjectAssigned(i.id, p), StateChanged(i.id, PendingProject, Deploying, "project_assigned")]
  {
    assert [ProjectAssigned(i.id, p)] + [StateChanged(i.id, PendingProject, Deploying, "project_assigned")]
        == [ProjectAssigned(i.id, p), StateChanged(i.id, PendingProject, Deploying, "project_assigned")];
  }

  ghost function CreateLab(t: Tables, i: CreateInput): Reply {
    if i.quota.Unreadable? then Reply(t, Err(StorageFailed))
    else if i.quota.age > QUOTA_MAX_AGE then Reply(t, Err(CloudUnavailable))
    else if !Quota.Allowed(i.quota.snapshot, RESOURCE_REQUEST, i.thresholdPct) then Reply(t, Err(QuotaExceeded))
    else if i.domain.None? then Reply(t, Err(NotFound))
    else if !i.works(1) then Reply(t, Err(StorageFailed))
    else if HasActive(t.labs, i.student, i.course) then Reply(t, Err(LabAlreadyActive))
    else Written(t, i)
  }

  // The writes of the transaction: everything or nothing.
  ghost function Written(t: Tables, i: CreateInput): Reply
    requires i.domain.Some?
  {
    // The repository reports any unique violation of the insert as an active lab.
    if !i.works(2) then Reply(t, Err(StorageFailed))
    else if i.id in t.labs then Reply(t, Err(LabAlreadyActive))
    else if !i.works(3) || !i.works(4) then Reply(t, Err(StorageFailed))
    else if !PoolHas(t.projects, i.domain.value) then
      if !i.works(6) then Reply(t, Err(StorageFailed))
      else
        var rejected := Opened(i).Transition(Rejected, "pool_empty", i.now).lab.Saved();
        Reply(t.(labs := t.labs[i.id := rejected]), Err(PoolEmpty))
    else if !i.works(5) || !i.works(6) then Reply(t, Err(StorageFailed))
    else
      var p := Candidate(t.projects, i.domain.value);
      var lab := Opened(i).AssignProject(p, i.now).lab.Saved();
      Reply(Tables(t.labs[i.id := lab], t.projects[p := Rented(t.projects[p], i.id, i.now)]), Ok(lab))
  }

  lemma OpenedSeat(i: CreateInput)
    ensures var lab := Opened(i); lab.id == i.id && lab.student == i.student && lab.course == i.course
  {
  }

  // The search before the insert makes sure that no write of the transaction
  // is refused by the unique index.
  lemma NewcomerHasNoRival(labs: map<LabId, Lab>, lab: Lab, row: Lab)
    requires !HasActive(labs, lab.student, lab.course)
    ensures !HasRival(labs, lab) && !HasRival(labs[lab.id := row], lab)
  {
  }

  predicate Permitted(s: Subject, action: Action, lab: Lab) {
    Can(s, action, LabResource(lab.student, lab.course))
  }

  // Saves the outcome of one aggregate call, unless it or the save failed.
  function Commit(t: Tables, c: Change, stored: bool): Reply {
    if c.error.Some? then Reply(t, Err(c.error.value))
    else if !stored || Clashes(t.labs, c.lab) then Reply(t, Err(StorageFailed))
    else Reply(t.(labs := t.labs[c.lab.id := c.lab.Saved()]), Ok(c.lab.Saved()))
  }

  function StopLab(t: Tables, s: Subject, id: LabId, now: Time, stored: bool): Reply {
    if id !in t.labs then Reply(t, Err(NotFound))
    else if !Permitted(s, LabDelete, t.labs[id]) then Reply(t, Err(Error.Forbidden))
    else if t.labs[id].state !in {Ready, Frozen, State.Failed} then Reply(t, Err(InvalidTransition))
    else Commit(t, t.labs[id].Transition(Cleaning, "stop_requested", now), stored)
  }

  function FreezeLab(t: Tables, s: Subject, id: LabId, reason: string, seconds: Option<int>, now: Time,
                     stored: bool): Reply {
    if id !in t.labs then Reply(t, Err(NotFound))
    else if !Permitted(s, LabFreeze, t.labs[id]) then Reply(t, Err(Error.Forbidden))
    else if seconds.Some? && s.role == Student then Reply(t, Err(Error.Forbidden))
    else
      var length := if seconds.Some? then seconds.value else FREEZE_DURATION;
      Commit(t, t.labs[id].Freeze(s.user, reason, now + length, now), stored)
  }

  function UnfreezeLab(t: Tables, s: Subject, id: LabId, now: Time, stored: bool): Reply {
    if id !in t.labs then Reply(t, Err(NotFound))
    else if !Permitted(s, LabUnfreeze, t.labs[id]) then Reply(t, Err(Error.Forbidden))
    else Commit(t, t.labs[id].Unfreeze(now + CLEANUP_DURATION, now), stored)
  }

  function ExtendLab(t: Tables, s: Subject, id: LabId, extendBy: Time, now: Time, stored: bool): Reply {
    if id !in t.labs then Reply(t, Err(NotFound))
    else if !Permitted(s, LabExtend, t.labs[id]) then Reply(t, Err(Error.Forbidden))
    else Commit(t, t.labs[id].ExtendCleanup(now + extendBy, now), stored)
  }

  // Who can do what when, in both directions, and what a refusal says; a
  // refused call changes nothing. (Only a failed lab can have a rival: see
  // OrderlyProofs.FailedWaitsForRival.)
  lemma StopSucceedsIff(t: Tables, s: Subject, id: LabId, now: Time, stored: bool)
    ensures var r := StopLab(t, s, id, now, stored);
      && (r.result.Err? ==> r.tables == t)
      && (r.result == Err(NotFound) <==> id !in t.labs)
      && (id in t.labs ==>
            var lab := t.labs[id];
            var may := s.role == Role.Admin || s.user == lab.student
              || (lab.course in s.courseRoles && s.courseRoles[lab.course] == CourseTeacher);
            && (r.result.Ok? <==>
                  may && stored && lab.state in {Ready, Frozen, State.Failed} && !HasRival(t.labs, lab))
            && (r.result == Err(Error.Forbidden) <==> !may)
            && (r.result == Err(InvalidTransition) <==> may && lab.state !in {Ready, Frozen, State.Failed})
            && (r.result.Err? ==> r.result.error in {Error.Forbidden, InvalidTransition, StorageFailed}))
  {
  }

  // A student may freeze but not choose the length.
  lemma FreezeSucceedsIff(t: Tables, s: Subject, id: LabId, reason: string, seconds: Option<int>, now: Time,
                          stored: bool)
    ensures var r := FreezeLab(t, s, id, reason, seconds, now, stored);
      && (r.result.Err? ==> r.tables == t)
      && (r.result == Err(NotFound) <==> id !in t.labs)
      && (id in t.labs ==>
            var lab := t.labs[id];
            var may := (seconds.Some? ==> s.role != Student)
              && (s.role == Role.Admin || s.user == lab.student
                  || (lab.course in s.courseRoles && s.courseRoles[lab.course] == CourseTeacher));
            && (r.result.Ok? <==> may && stored && lab.state == Ready && !HasRival(t.labs, lab))
            && (r.result == Err(Error.Forbidden) <==> !may)
            && (r.result == Err(InvalidTransition) <==> may && lab.state != Ready)
            && (r.result.Err? ==> r.result.error in {Error.Forbidden, InvalidTransition, StorageFailed}))
  {
  }

  // Not only frozen labs: the transition table lets deploying and checking
  // ones through. The owner may not.
  lemma UnfreezeSucceedsIff(t: Tables, s: Subject, id: LabId, now: Time, stored: bool)
    ensures var r := UnfreezeLab(t, s, id, now, stored);
      && (r.result.Err? ==> r.tables == t)
      && (r.result == Err(NotFound) <==> id !in t.labs)
      && (id in t.labs ==>
            var lab := t.labs[id];
            var may := s.role == Role.Admin
              || (lab.course in s.courseRoles && s.courseRoles[lab.course] == CourseTeacher);
            && (r.result.Ok? <==>
                  may && stored && lab.state in {Frozen, Deploying, Checking} && !HasRival(t.labs, lab))
            && (r.result == Err(Error.Forbidden) <==> !may)
            && (r.result == Err(InvalidTransition) <==> may && lab.state !in {Frozen, Deploying, Checking})
            && (r.result.Err? ==> r.result.error in {Error.Forbidden, InvalidTransition, StorageFailed}))
  {
  }

  lemma ExtendSucceedsIff(t: Tables, s: Subject, id: LabId, extendBy: Time, now: Time, stored: bool)
    ensures var r := ExtendLab(t, s, id, extendBy, now, stored);
      && (r.result.Err? ==> r.tables == t)
      && (r.result == Err(NotFound) <==> id !in t.labs)
      && (id in t.labs ==>
            var lab := t.labs[id];
            var may := s.role == Role.Admin
              || (lab.course in s.courseRoles && s.courseRoles[lab.course] == CourseTeacher);
            var shortens := lab.cleanupAt.Some? && now + extendBy < lab.cleanupAt.value;
            && (r.result.Ok? <==> may && stored && lab.state == Ready && !shortens && !HasRival(t.labs, lab))
            && (r.result == Err(Error.Forbidden) <==> !may)
            && (r.result == Err(InvalidTransition) <==> may && lab.state != Ready)
            && (r.result == Err(InvalidInput) <==> may && lab.state == Ready && shortens)
            && (r.result.Err? ==>
                  r.result.error in {Error.Forbidden, InvalidTransition, InvalidInput, StorageFailed}))
  {
  }

  // What the calls that succeed leave: the lab with exactly these fields
  // changed, stored and answered alike, and nothing else.
  ghost predicate Leaves(t: Tables, r: Reply, id: LabId, lab: Lab) {
    r.result == Ok(lab) && r.tables == t.(labs := t.labs[id := lab])
  }

  lemma StopStores(t: Tables, s: Subject, id: LabId, now: Time, stored: bool)
    requires id in t.labs && t.labs[id].id == id && StopLab(t, s, id, now, stored).result.Ok?
    ensures Leaves(t, StopLab(t, s, id, now, stored), id,
      t.labs[id].(state := Cleaning, reason := "stop_requested", updatedAt := now, pending := []))
  {
  }

  lemma FreezeStores(t: Tables, s: Subject, id: LabId, reason: string, seconds: Option<int>, now: Time, stored: bool)
    requires id in t.labs && t.labs[id].id == id && FreezeLab(t, s, id, reason, seconds, now, stored).result.Ok?
    ensures Leaves(t, FreezeLab(t, s, id, reason, seconds, now, stored), id,
      t.labs[id].(state := Frozen, reason := "freeze: " + reason, frozenBy := Some(s.user), frozenReason := reason,
                  unfreezeAt := Some(now + if seconds.Some? then seconds.value else 86400), cleanupAt := None,
                  updatedAt := now, pending := []))
  {
  }

  lemma UnfreezeStores(t: Tables, s: Subject, id: LabId, now: Time, stored: bool)
    requires id in t.labs && t.labs[id].id == id && UnfreezeLab(t, s, id, now, stored).result.Ok?
    ensures Leaves(t, UnfreezeLab(t, s, id, now, stored), id,
      t.labs[id].(state := Ready, reason := "unfreeze", frozenBy := None, frozenReason := "", unfreezeAt := None,
                  cleanupAt := Some(now + 7200), updatedAt := now, pending := []))
  {
  }

  lemma ExtendStores(t: Tables, s: Subject, id: LabId, extendBy: Time, now: Time, stored: bool)
    requires id in t.labs && t.labs[id].id == id && ExtendLab(t, s, id, extendBy, now, stored).result.Ok?
    ensures Leaves(t, ExtendLab(t, s, id, extendBy, now, stored), id,
      t.labs[id].(cleanupAt := Some(now + extendBy), updatedAt := now, pending := []))
  {
  }

  // A lab that is frozen and unfrozen is as it was before, but for its timer
  // and the record of the change.
  lemma UnfreezeUndoesFreeze(t: Tables, s: Subject, a: Subject, id: LabId, reason: string, seconds: Option<int>,
                             now: Time, later: Time)
    requires id in t.labs && t.labs[id].id == id && t.labs[id].unfreezeAt.None? && t.labs[id].frozenBy.None?
    requires t.labs[id].frozenReason == ""
    requires FreezeLab(t, s, id, reason, seconds, now, true).result.Ok?
    requires a.role == Role.Admin
      || (t.labs[id].course in a.courseRoles && a.courseRoles[t.labs[id].course] == CourseTeacher)
    ensures var frozen := FreezeLab(t, s, id, reason, seconds, now, true).tables;
      Leaves(t, UnfreezeLab(frozen, a, id, later, true), id,
        t.labs[id].(reason := "unfreeze", cleanupAt := Some(later + 7200), updatedAt := later, pending := []))
  {
    hide FreezeLab, UnfreezeLab, HasRival;
    FreezeStores(t, s, id, reason, seconds, now, true);
    FreezeSucceedsIff(t, s, id, reason, seconds, now, true);
    var frozen := FreezeLab(t, s, id, reason, seconds, now, true).tables;
    RivalIgnores(t.labs, id, frozen.labs[id]);
    UnfreezeSucceedsIff(frozen, a, id, later, true);
    UnfreezeStores(frozen, a, id, later, true);
    assert frozen.labs[id := UnfreezeLab(frozen, a, id, later, true).tables.labs[id]]
        == t.labs[id := UnfreezeLab(frozen, a, id, later, true).tables.labs[id]];
  }

  // A learner of the course who does not own the lab, or a stranger to it, gets
  // nowhere with any of the four.
  lemma OutsiderChangesNothing(t: Tables, s: Subject, id: LabId, reason: string, seconds: Option<int>,
                               extendBy: Time, now: Time,
                               stored: bool)
    requires id in t.labs && s.role != Role.Admin && s.user != t.labs[id].student
    requires t.labs[id].course in s.courseRoles ==> s.courseRoles[t.labs[id].course] == Learner
    ensures StopLab(t, s, id, now, stored) == Reply(t, Err(Error.Forbidden))
    ensures FreezeLab(t, s, id, reason, seconds, now, stored) == Reply(t, Err(Error.Forbidden))
    ensures UnfreezeLab(t, s, id, now, stored) == Reply(t, Err(Error.Forbidden))
    ensures ExtendLab(t, s, id, extendBy, now, stored) == Reply(t, Err(Error.Forbidden))
  {
    hide Can;
    forall action | action in {LabDelete, LabFreeze, LabUnfreeze, LabExtend}
      ensures !Permitted(s, action, t.labs[id])
    {
      OutsiderCannot(s, action, t.labs[id].student, t.labs[id].course);
    }
  }

  // What a create asks for: a snapshot at most a minute old with room for the
  // request, a course, no active lab of the student in it, a free project of
  // its domain and statements that work.
  ghost predicate Admits(t: Tables, i: CreateInput) {
    && i.quota.Reading? && i.quota.age <= 60
    && RoomIn(i.quota.snapshot, if i.thresholdPct > 0.0 then i.thresholdPct else 90.0)
    && i.domain.Some? && i.id !in t.labs
    && !(exists l :: l in t.labs && SeatTaken(t.labs[l], i.student, i.course))
    && (exists p :: p in t.projects && t.projects[p].state == P.Free && t.projects[p].domain == i.domain.value)
    && forall n :: 1 <= n <= 6 ==> i.works(n)
  }

  // Room for two processors, four gigabytes of memory and twenty of disk.
  ghost predicate RoomIn(s: Quota.Snapshot, pct: real) {
    Quota.WithinPct(s.vcpus, 2, pct) && Quota.WithinPct(s.ram, 4096, pct) && Quota.WithinPct(s.disk, 20, pct)
  }

  predicate SeatTaken(lab: Lab, student: UserId, course: CourseId) {
    && lab.student == student && lab.course == course
    && lab.state in {PendingQuota, PendingProject, Deploying, Ready, Checking, Frozen, Cleaning}
  }

  lemma RequestFitsIff(s: Quota.Snapshot, pct: real)
    ensures Quota.Allowed(s, RESOURCE_REQUEST, pct) <==> RoomIn(s, if pct > 0.0 then pct else 90.0)
  {
    hide Quota.Allowed, Quota.WithinPct;
    Quota.AllowedIffAllWithin(s, RESOURCE_REQUEST, pct);
  }

  lemma HasActiveIff(labs: map<LabId, Lab>, student: UserId, course: CourseId)
    ensures HasActive(labs, student, course) <==> exists l :: l in labs && SeatTaken(labs[l], student, course)
  {
    if l :| l in labs && SeatTaken(labs[l], student, course) {
      assert labs[l].student == student && labs[l].course == course && IsActive(labs[l].state);
    }
  }

  lemma CreateSucceedsIff(t: Tables, i: CreateInput)
    ensures CreateLab(t, i).result.Ok? <==> Admits(t, i)
  {
    hide Quota.Allowed, HasActive, PoolHas, RoomIn, SeatTaken;
    if i.quota.Reading? {
      RequestFitsIff(i.quota.snapshot, i.thresholdPct);
    }
    HasActiveIff(t.labs, i.student, i.course);
    if i.domain.Some? {
      PoolHasIffSomeFree(t.projects, i.domain.value);
      assert forall p :: IsFreeIn(t.projects, i.domain.value, p) <==>
        p in t.projects && t.projects[p].state == P.Free && t.projects[p].domain == i.domain.value;
      hide IsFreeIn;
    }
  }

  // What a refused create says, in the order of its checks.
  lemma CreateRefusals(t: Tables, i: CreateInput)
    requires CreateLab(t, i).result.Err?
    ensures CreateLab(t, i).result.error ==
      if i.quota.Unreadable? then StorageFailed
      else if i.quota.age > 60 then CloudUnavailable
      else if !RoomIn(i.quota.snapshot, if i.thresholdPct > 0.0 then i.thresholdPct else 90.0) then QuotaExceeded
      else if i.domain.None? then NotFound
      else if i.works(1) && (exists l :: l in t.labs && SeatTaken(t.labs[l], i.student, i.course)) then LabAlreadyActive
      else if i.works(1) && i.works(2) && i.id in t.labs then LabAlreadyActive
      else if i.works(1) && i.works(2) && i.works(3) && i.works(4) && i.works(6)
              && (forall p :: p in t.projects && t.projects[p].state == P.Free ==>
                    t.projects[p].domain != i.domain.value) then PoolEmpty
      else StorageFailed
  {
    hide Quota.Allowed, HasActive, PoolHas, RoomIn, SeatTaken;
    if i.quota.Reading? {
      RequestFitsIff(i.quota.snapshot, i.thresholdPct);
    }
    HasActiveIff(t.labs, i.student, i.course);
    if i.domain.Some? {
      PoolHasIffSomeFree(t.projects, i.domain.value);
      assert forall p :: IsFreeIn(t.projects, i.domain.value, p) <==>
        p in t.projects && t.projects[p].state == P.Free && t.projects[p].domain == i.domain.value;
      hide IsFreeIn;
    }
  }

  // A create that returns an error leaves every project as it was, and every
  // lab; only an empty pool leaves a trace, the rejected lab.
  lemma FailedCreateRentsNothing(t: Tables, i: CreateInput)
    ensures var r := CreateLab(t, i);
      && (r.result.Err? ==> r.tables.projects == t.projects)
      && (r.result.Err? && r.result.error != PoolEmpty ==> r.tables == t)
      && (r.result == Err(PoolEmpty) ==>
            && i.id !in t.labs
            && r.tables.labs == t.labs[i.id := Lab(i.id, i.student, i.course, i.template, None, Rejected, "pool_empty",
                 NO_RESOURCES, None, None, None, "", None, None, i.now, i.now, [])]
            && i.domain.Some?
            && forall p :: p in t.projects && t.projects[p].state == P.Free ==> t.projects[p].domain != i.domain.value)
  {
    if i.domain.Some? {
      PoolHasIffSomeFree(t.projects, i.domain.value);
      assert forall p :: p in t.projects && t.projects[p].state == P.Free && t.projects[p].domain == i.domain.value ==>
        IsFreeIn(t.projects, i.domain.value, p);
    }
    hide Quota.Allowed, HasActive, PoolHas, IsFreeIn;
  }

  // A create that succeeds rents exactly one project, free until now and the
  // longest free of the course's domain, to exactly the new lab.
  lemma SuccessfulCreateRentsOne(t: Tables, i: CreateInput)
    requires CreateLab(t, i).result.Ok?
    ensures var r := CreateLab(t, i); var lab := r.result.value;
      && i.id !in t.labs && r.tables.labs == t.labs[i.id := lab]
      && lab.project.Some? && i.domain.Some?
      && lab == Lab(i.id, i.student, i.course, i.template, lab.project, Deploying, "project_assigned",
           NO_RESOURCES, None, None, None, "", None, None, i.now, i.now, [])
      && var p := lab.project.value;
         && IsCandidate(t.projects, i.domain.value, p)
         && p in t.projects && t.projects[p].state == P.Free && t.projects[p].domain == i.domain.value
         && (forall q :: q in t.projects && t.projects[q].state == P.Free && t.projects[q].domain == i.domain.value ==>
               || t.projects[p].changedAt < t.projects[q].changedAt
               || (t.projects[p].changedAt == t.projects[q].changedAt && t.projects[p].id <= t.projects[q].id))
         && r.tables.projects
            == t.projects[p := t.projects[p].(state := P.Allocated, lab := Some(i.id), changedAt := i.now)]
  {
    hide Quota.Allowed, HasActive, PoolHas;
    var p := Candidate(t.projects, i.domain.value);
    forall q | q in t.projects && t.projects[q].state == P.Free && t.projects[q].domain == i.domain.value
      ensures Earlier(t.projects[p], t.projects[q])
    {
      assert IsFreeIn(t.projects, i.domain.value, q);
    }
  }

  // The statement writes the row the aggregate would have been saved as.
  lemma RentedIsAllocated(row: P.Row, lab: LabId, now: Time)
    requires row.state == P.Free && P.Stored(P.Loaded(row)).Ok?
    ensures P.Stored(P.Loaded(row).AllocateTo(lab, now).project) == Ok(Rented(row, lab, now))
  {
  }

  // What a stand takes once it is booted.
  function Footprint(vms: seq<D.VmSpec>): Cloud.Amount {
    if vms == [] then Cloud.NOTHING else Cloud.RequestFromFlavor(vms[0].flavor).Plus(Footprint(vms[1..]))
  }

  lemma StandThreeFootprint()
    ensures Footprint(D.STAND_THREE.vms) == Cloud.Amount(9, 16384, 160)
  {
    var vms := D.STAND_THREE.vms;
    assert Footprint(vms[4..]) == Cloud.Amount(4, 8192, 80);
    assert Footprint(vms[3..]) == Cloud.Amount(6, 12288, 120) by { assert vms[3..][1..] == vms[4..]; }
    assert Footprint(vms[2..]) == Cloud.Amount(7, 13312, 130) by { assert vms[2..][1..] == vms[3..]; }
    assert Footprint(vms[1..]) == Cloud.Amount(8, 14336, 140) by { assert vms[1..][1..] == vms[2..]; }
  }

  // What the guard would have to be asked: the stand stays within the threshold
  // exactly when there is room for nine processors and so on, where the guard
  // asks for two.
  lemma StandFitsIff(s: Quota.Snapshot, pct: real)
    ensures var threshold := if pct > 0.0 then pct else 90.0;
      && (Quota.Allowed(s, Footprint(D.STAND_THREE.vms), pct) <==>
            && Quota.WithinPct(s.vcpus, 9, threshold)
            && Quota.WithinPct(s.ram, 16384, threshold)
            && Quota.WithinPct(s.disk, 160, threshold))
      && (Quota.Allowed(s, RESOURCE_REQUEST, pct) <==> RoomIn(s, threshold))
  {
    hide Quota.Allowed, Quota.WithinPct, Footprint;
    StandThreeFootprint();
    Quota.AllowedIffAllWithin(s, Footprint(D.STAND_THREE.vms), pct);
    RequestFitsIff(s, pct);
  }

  // The guard is asked for less than the stand boots, so an admitted lab can
  // take the cluster over the threshold.
  lemma AdmittedLabCanExceedThreshold()
    ensures exists s: Quota.Snapshot ::
      && Quota.Allowed(s, RESOURCE_REQUEST, Quota.DEFAULT_THRESHOLD)
      && !Quota.Allowed(s, Footprint(D.STAND_THREE.vms), Quota.DEFAULT_THRESHOLD)
  {
    var s := Quota.Snapshot(Quota.Capacity(85, 100), Quota.Capacity(0, 262144), Quota.Capacity(0, 4096));
    hide Quota.Allowed, Footprint;
    StandFitsIff(s, Quota.DEFAULT_THRESHOLD);
    assert RoomIn(s, 90.0) && !Quota.WithinPct(s.vcpus, 9, 90.0);
  }
}

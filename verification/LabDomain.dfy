// The lab lifecycle aggregate: its state machine, its timers and the event
// buffer that feeds the transactional outbox.

module LabDomain {
  import opened Types

  datatype State =
    | PendingQuota
    | PendingProject
    | Deploying
    | Ready
    | Checking
    | Frozen
    | Failed
    | Cleaning
    | Done
    | Rejected

  function AllowedTransitions(from: State): set<State> {
    match from
    case PendingQuota => {Rejected, PendingProject}
    case PendingProject => {Rejected, Deploying}
    case Deploying => {Ready, Failed}
    case Ready => {Checking, Frozen, Cleaning}
    case Checking => {Ready}
    case Frozen => {Ready, Cleaning}
    case Failed => {Cleaning}
    case Cleaning => {Done, Cleaning}
    case Done => {}
    case Rejected => {}
  }

  predicate CanTransition(from: State, to: State) {
    to in AllowedTransitions(from)
  }

  // The edges of the state diagram; cleaning may be entered again.
  lemma TransitionsIff(from: State, to: State)
    ensures CanTransition(from, to) <==> (from, to) in {
      (PendingQuota, Rejected), (PendingQuota, PendingProject), (PendingProject, Rejected), (PendingProject, Deploying),
      (Deploying, Ready), (Deploying, Failed), (Ready, Checking), (Ready, Frozen), (Ready, Cleaning), (Checking, Ready),
      (Frozen, Ready), (Frozen, Cleaning), (Failed, Cleaning), (Cleaning, Done), (Cleaning, Cleaning)}
  {
  }

  predicate IsTerminal(s: State) {
    s == Done || s == Rejected
  }

  // The part of its life a lab is in; see PhaseNeverFalls.
  function Phase(s: State): nat {
    match s
    case PendingQuota => 0
    case PendingProject => 1
    case Deploying => 2
    case Ready | Checking | Frozen | Failed => 3
    case Cleaning => 4
    case Done | Rejected => 5
  }

  datatype Event =
    | Created(lab: LabId, student: UserId, course: CourseId, template: TemplateId)
    | StateChanged(lab: LabId, from: State, to: State, reason: string)
    | ProjectAssigned(lab: LabId, project: ProjectId)
    | CleanupExtended(lab: LabId, newCleanupAt: Time)

  // Provider-side handles owned by a lab.
  datatype Resources = Resources(
    servers: seq<ServerId>,
    network: Option<NetworkId>,
    ips: seq<Ip>,
    keypair: Option<Name>)

  const NO_RESOURCES := Resources([], None, [], None)

  datatype Lab = Lab(
    id: LabId,
    student: UserId,
    course: CourseId,
    template: TemplateId,
    project: Option<ProjectId>,
    state: State,
    reason: string,
    resources: Resources,
    cleanupAt: Option<Time>,
    unfreezeAt: Option<Time>,
    frozenBy: Option<UserId>,
    frozenReason: string,
    studentKey: Option<SecretId>,
    checkerKey: Option<SecretId>,
    createdAt: Time,
    updatedAt: Time,
    pending: seq<Event>)
  {
    function Transition(to: State, reason: string, now: Time): Change {
      if !CanTransition(state, to) then Change(this, Some(InvalidTransition))
      else
        var event := StateChanged(id, state, to, reason);
        Change(this.(state := to, reason := reason, updatedAt := now, pending := pending + [event]), None)
    }

    function Freeze(who: UserId, reason: string, until: Time, now: Time): Change {
      var c := Transition(Frozen, "freeze: " + reason, now);
      if c.error.Some? then c
      else Change(c.lab.(frozenBy := Some(who), frozenReason := reason, unfreezeAt := Some(until),
        cleanupAt := None), None)
    }

    function Unfreeze(cleanupAt: Time, now: Time): Change {
      var c := Transition(Ready, "unfreeze", now);
      if c.error.Some? then c
      else Change(c.lab.(frozenBy := None, frozenReason := "", unfreezeAt := None, cleanupAt := Some(cleanupAt)), None)
    }

    function ExtendCleanup(at: Time, now: Time): Change {
      if state != Ready then Change(this, Some(InvalidTransition))
      else if cleanupAt.Some? && at < cleanupAt.value then Change(this, Some(InvalidInput))
      else Change(this.(cleanupAt := Some(at), updatedAt := now, pending := pending + [CleanupExtended(id, at)]), None)
    }

    function MarkReady(cleanupAt: Time, now: Time): Change {
      var c := Transition(Ready, "deploy_succeeded", now);
      if c.error.Some? then c else Change(c.lab.(cleanupAt := Some(cleanupAt)), None)
    }

    function AssignProject(project: ProjectId, now: Time): Change {
      if state != PendingProject then Change(this, Some(InvalidTransition))
      else
        var rented := this.(project := Some(project), updatedAt := now,
          pending := pending + [ProjectAssigned(id, project)]);
        rented.Transition(Deploying, "project_assigned", now)
    }

    // What the repository stores: everything but the event buffer, which it
    // moves to the outbox in the same transaction.
    function Saved(): Lab {
      this.(pending := [])
    }
  }

  // The states the unique index on a student's labs in a course counts.
  predicate IsActive(s: State) {
    s != Done && s != Rejected && s != Failed
  }

  predicate SameSeat(a: Lab, b: Lab) {
    a.student == b.student && a.course == b.course
  }

  // Another lab of the same student and course is active.
  predicate HasRival(labs: map<LabId, Lab>, lab: Lab) {
    exists m :: m in labs && m != lab.id && SameSeat(labs[m], lab) && IsActive(labs[m].state)
  }

  // The unique index refuses to store this lab.
  predicate Clashes(labs: map<LabId, Lab>, lab: Lab) {
    IsActive(lab.state) && HasRival(labs, lab)
  }

  // The index counts the states from pending_quota to cleaning, but not failed.
  lemma ClashesIff(labs: map<LabId, Lab>, lab: Lab)
    ensures Clashes(labs, lab) <==>
      && lab.state in {PendingQuota, PendingProject, Deploying, Ready, Checking, Frozen, Cleaning}
      && HasRival(labs, lab)
    ensures HasRival(labs, lab) <==> exists m ::
      && m in labs && m != lab.id && labs[m].student == lab.student && labs[m].course == lab.course
      && labs[m].state in {PendingQuota, PendingProject, Deploying, Ready, Checking, Frozen, Cleaning}
  {
    if m :| m in labs && m != lab.id && labs[m].student == lab.student && labs[m].course == lab.course
            && labs[m].state in {PendingQuota, PendingProject, Deploying, Ready, Checking, Frozen, Cleaning} {
      assert SameSeat(labs[m], lab) && IsActive(labs[m].state);
    }
  }

  // What the unique index makes true of the table.
  ghost predicate OneActive(labs: map<LabId, Lab>) {
    && (forall l :: l in labs ==> labs[l].id == l)
    && (forall l, m :: l in labs && m in labs && l != m && IsActive(labs[l].state) && IsActive(labs[m].state) ==>
          !SameSeat(labs[l], labs[m]))
  }

  lemma ActiveKeepsId(labs: map<LabId, Lab>, l: LabId)
    requires OneActive(labs) && l in labs
    ensures labs[l].id == l
  {
  }

  lemma StoringKeepsOneActive(labs: map<LabId, Lab>, lab: Lab)
    requires OneActive(labs) && !Clashes(labs, lab)
    ensures OneActive(labs[lab.id := lab])
  {
  }

  // A lab that is active in the table is never refused while it keeps its
  // student and course.
  lemma ActiveHasNoRival(labs: map<LabId, Lab>, lab: Lab)
    requires OneActive(labs) && lab.id in labs && IsActive(labs[lab.id].state) && SameSeat(labs[lab.id], lab)
    ensures !HasRival(labs, lab)
  {
  }

  // The other labs decide whether a lab has a rival.
  lemma RivalIgnores(labs: map<LabId, Lab>, l: LabId, next: Lab)
    requires l in labs && labs[l].id == l && next.id == l && SameSeat(labs[l], next)
    ensures HasRival(labs[l := next], next) == HasRival(labs, labs[l])
  {
    var after := labs[l := next];
    forall m | m != l
      ensures (m in labs && SameSeat(labs[m], labs[l]) && IsActive(labs[m].state))
        <==> (m in after && SameSeat(after[m], next) && IsActive(after[m].state))
    {
    }
    if HasRival(labs, labs[l]) {
      var m :| m in labs && m != l && SameSeat(labs[m], labs[l]) && IsActive(labs[m].state);
      assert m in after && m != next.id && SameSeat(after[m], next) && IsActive(after[m].state);
    }
    if HasRival(after, next) {
      var m :| m in after && m != next.id && SameSeat(after[m], next) && IsActive(after[m].state);
      assert m in labs && m != labs[l].id && SameSeat(labs[m], labs[l]) && IsActive(labs[m].state);
    }
  }

  // A lab and the error of the call that produced it, if any.
  datatype Change = Change(lab: Lab, error: Option<Error>)

  function NewLab(id: LabId, student: UserId, course: CourseId, template: TemplateId, now: Time): Lab {
    Lab(id, student, course, template, None, PendingQuota, "", NO_RESOURCES, None, None, None, "",
        None, None, now, now, [Created(id, student, course, template)])
  }

  // The aggregate root. Every method is specified by the function of the same
  // name on its value.
  class LabInstance {
    const id: LabId
    const student: UserId
    const course: CourseId
    const template: TemplateId
    const createdAt: Time
    var project: Option<ProjectId>
    var state: State
    var reason: string
    var resources: Resources
    var cleanupAt: Option<Time>
    var unfreezeAt: Option<Time>
    var frozenBy: Option<UserId>
    var frozenReason: string
    var studentKey: Option<SecretId>
    var checkerKey: Option<SecretId>
    var updatedAt: Time
    var pending: seq<Event>

    function Value(): Lab
      reads this
    {
      Lab(id, student, course, template, project, state, reason, resources, cleanupAt, unfreezeAt,
          frozenBy, frozenReason, studentKey, checkerKey, createdAt, updatedAt, pending)
    }

    constructor (id: LabId, student: UserId, course: CourseId, template: TemplateId, now: Time)
      ensures Value() == NewLab(id, student, course, template, now)
    {
      this.id, this.student, this.course, this.template := id, student, course, template;
      createdAt, updatedAt := now, now;
      project, state, reason, resources := None, PendingQuota, "", NO_RESOURCES;
      cleanupAt, unfreezeAt, frozenBy, frozenReason := None, None, None, "";
      studentKey, checkerKey := None, None;
      pending := [Created(id, student, course, template)];
    }

    // Rebuilds the aggregate from its stored row.
    constructor FromRow(row: Lab)
      ensures Value() == row
    {
      id, student, course, template := row.id, row.student, row.course, row.template;
      createdAt, updatedAt := row.createdAt, row.updatedAt;
      project, state, reason, resources := row.project, row.state, row.reason, row.resources;
      cleanupAt, unfreezeAt := row.cleanupAt, row.unfreezeAt;
      frozenBy, frozenReason := row.frozenBy, row.frozenReason;
      studentKey, checkerKey := row.studentKey, row.checkerKey;
      pending := row.pending;
    }

    method Transition(to: State, reason: string, now: Time) returns (error: Option<Error>)
      modifies this
      ensures Change(Value(), error) == old(Value()).Transition(to, reason, now)
    {
      if !CanTransition(state, to) {
        return Some(InvalidTransition);
      }
      var from := state;
      state := to;
      this.reason := reason;
      updatedAt := now;
      Record(StateChanged(id, from, to, reason));
      error := None;
    }

    method Freeze(who: UserId, reason: string, until: Time, now: Time) returns (error: Option<Error>)
      modifies this
      ensures Change(Value(), error) == old(Value()).Freeze(who, reason, until, now)
    {
      error := Transition(Frozen, "freeze: " + reason, now);
      if error.Some? {
        return;
      }
      frozenBy := Some(who);
      frozenReason := reason;
      unfreezeAt := Some(until);
      cleanupAt := None;
    }

    method Unfreeze(at: Time, now: Time) returns (error: Option<Error>)
      modifies this
      ensures Change(Value(), error) == old(Value()).Unfreeze(at, now)
    {
      error := Transition(Ready, "unfreeze", now);
      if error.Some? {
        return;
      }
      frozenBy := None;
      frozenReason := "";
      unfreezeAt := None;
      cleanupAt := Some(at);
    }

    method ExtendCleanup(at: Time, now: Time) returns (error: Option<Error>)
      modifies this
      ensures Change(Value(), error) == old(Value()).ExtendCleanup(at, now)
    {
      if state != Ready {
        return Some(InvalidTransition);
      }
      if cleanupAt.Some? && at < cleanupAt.value {
        return Some(InvalidInput);
      }
      cleanupAt := Some(at);
      updatedAt := now;
      Record(CleanupExtended(id, at));
      error := None;
    }

    method MarkReady(at: Time, now: Time) returns (error: Option<Error>)
      modifies this
      ensures Change(Value(), error) == old(Value()).MarkReady(at, now)
    {
      error := Transition(Ready, "deploy_succeeded", now);
      if error.Some? {
        return;
      }
      cleanupAt := Some(at);
    }

    method AssignProject(p: ProjectId, now: Time) returns (error: Option<Error>)
      modifies this
      ensures Change(Value(), error) == old(Value()).AssignProject(p, now)
    {
      if state != PendingProject {
        return Some(InvalidTransition);
      }
      project := Some(p);
      updatedAt := now;
      Record(ProjectAssigned(id, p));
      error := Transition(Deploying, "project_assigned", now);
    }

    method PullEvents() returns (events: seq<Event>)
      modifies this`pending
      ensures events == old(pending)
      ensures Value() == old(Value()).Saved()
    {
      events := pending;
      pending := [];
    }

    method Record(event: Event)
      modifies this`pending
      ensures pending == old(pending) + [event]
    {
      pending := pending + [event];
    }
  }

  // ---------------------------------------------------------------------
  // The event log replays to the aggregate.

  datatype Call =
    | DoTransition(to: State, reason: string, now: Time)
    | DoFreeze(who: UserId, reason: string, until: Time, now: Time)
    | DoUnfreeze(at: Time, now: Time)
    | DoExtend(at: Time, now: Time)
    | DoMarkReady(at: Time, now: Time)
    | DoAssign(project: ProjectId, now: Time)
    | DoPull

  // A lab together with the events already pulled from it.
  datatype Journal = Journal(lab: Lab, pulled: seq<Event>) {
    function Events(): seq<Event> { pulled + lab.pending }
  }

  function Perform(l: Lab, call: Call): Change
    requires !call.DoPull?
  {
    match call
    case DoTransition(to, reason, now) => l.Transition(to, reason, now)
    case DoFreeze(who, reason, until, now) => l.Freeze(who, reason, until, now)
    case DoUnfreeze(at, now) => l.Unfreeze(at, now)
    case DoExtend(at, now) => l.ExtendCleanup(at, now)
    case DoMarkReady(at, now) => l.MarkReady(at, now)
    case DoAssign(project, now) => l.AssignProject(project, now)
  }

  function Apply(j: Journal, call: Call): Journal {
    if call.DoPull? then Journal(j.lab.Saved(), j.pulled + j.lab.pending)
    else j.(lab := Perform(j.lab, call).lab)
  }

  function ApplyAll(j: Journal, calls: seq<Call>): Journal {
    if calls == [] then j
    else Apply(ApplyAll(j, calls[..|calls| - 1]), calls[|calls| - 1])
  }

  // What a consumer of the events knows: nothing yet, the lab with its owner,
  // state and project, or that the log is not the log of a lab.
  datatype View =
    | Unborn
    | At(lab: LabId, student: UserId, course: CourseId, template: TemplateId, state: State, project: Option<ProjectId>)
    | Broken

  function Observe(v: View, e: Event): View {
    match e
    case Created(lab, student, course, template) =>
      if v == Unborn then At(lab, student, course, template, PendingQuota, None) else Broken
    case StateChanged(lab, from, to, _) =>
      if v.At? && v.lab == lab && v.state == from && CanTransition(from, to) then v.(state := to) else Broken
    case ProjectAssigned(lab, project) =>
      if v.At? && v.lab == lab && v.state == PendingProject && v.project == None
        then v.(project := Some(project)) else Broken
    case CleanupExtended(lab, _) =>
      if v.At? && v.lab == lab && v.state == Ready then v else Broken
  }

  function Replay(events: seq<Event>): View {
    if events == [] then Unborn
    else Observe(Replay(events[..|events| - 1]), events[|events| - 1])
  }

  function Assignments(events: seq<Event>): nat {
    if events == [] then 0
    else Assignments(events[..|events| - 1]) + (if events[|events| - 1].ProjectAssigned? then 1 else 0)
  }

  lemma ReplayAppend(j: Journal, next: Lab, e: Event)
    requires next.pending == j.lab.pending + [e]
    ensures Replay(Journal(next, j.pulled).Events()) == Observe(Replay(j.Events()), e)
  {
    var events := Journal(next, j.pulled).Events();
    assert events[..|events| - 1] == j.Events();
  }

  function Known(l: Lab): View {
    At(l.id, l.student, l.course, l.template, l.state, l.project)
  }

  ghost predicate Logged(j: Journal) {
    && Replay(j.Events()) == Known(j.lab)
    && (j.lab.state == PendingProject ==> j.lab.project == None)
  }

  // A failing call changes nothing; the others append events that lead from
  // the old state to the new one.
  lemma CallIsLogged(j: Journal, call: Call)
    requires !call.DoPull? && Logged(j)
    ensures Perform(j.lab, call).error.Some? ==> Apply(j, call) == j
    ensures Logged(Apply(j, call)) && Apply(j, call).lab.id == j.lab.id
    ensures Known(Apply(j, call).lab).(state := j.lab.state, project := j.lab.project) == Known(j.lab)
  {
    var next := Perform(j.lab, call).lab;
    if call.DoAssign? && j.lab.state == PendingProject {
      var rented := j.lab.(project := Some(call.project),
        pending := j.lab.pending + [ProjectAssigned(j.lab.id, call.project)]);
      ReplayAppend(j, rented, ProjectAssigned(j.lab.id, call.project));
      ReplayAppend(Journal(rented, j.pulled), next,
        StateChanged(j.lab.id, PendingProject, Deploying, "project_assigned"));
    } else if Perform(j.lab, call).error.None? {
      ReplayAppend(j, next, next.pending[|j.lab.pending|]);
    }
  }

  // What a call that works leaves, field by field, and the events it adds: an
  // extension is announced with the very time it sets.
  lemma CallStores(l: Lab, call: Call)
    requires !call.DoPull? && Perform(l, call).error.None?
    ensures Perform(l, call).lab == match call
      case DoTransition(to, reason, now) =>
        l.(state := to, reason := reason, updatedAt := now,
          pending := l.pending + [StateChanged(l.id, l.state, to, reason)])
      case DoFreeze(who, why, until, now) =>
        l.(state := Frozen, reason := "freeze: " + why, frozenBy := Some(who), frozenReason := why,
           unfreezeAt := Some(until), cleanupAt := None, updatedAt := now,
           pending := l.pending + [StateChanged(l.id, l.state, Frozen, "freeze: " + why)])
      case DoUnfreeze(at, now) =>
        l.(state := Ready, reason := "unfreeze", frozenBy := None, frozenReason := "", unfreezeAt := None,
           cleanupAt := Some(at), updatedAt := now,
           pending := l.pending + [StateChanged(l.id, l.state, Ready, "unfreeze")])
      case DoExtend(at, now) =>
        l.(cleanupAt := Some(at), updatedAt := now, pending := l.pending + [CleanupExtended(l.id, at)])
      case DoMarkReady(at, now) =>
        l.(state := Ready, reason := "deploy_succeeded", cleanupAt := Some(at), updatedAt := now,
           pending := l.pending + [StateChanged(l.id, l.state, Ready, "deploy_succeeded")])
      case DoAssign(project, now) =>
        l.(project := Some(project), state := Deploying, reason := "project_assigned", updatedAt := now,
           pending := l.pending + [ProjectAssigned(l.id, project),
                                   StateChanged(l.id, PendingProject, Deploying, "project_assigned")])
  {
    if call.DoAssign? {
      var a, b := ProjectAssigned(l.id, call.project),
        StateChanged(l.id, PendingProject, Deploying, "project_assigned");
      assert (l.pending + [a]) + [b] == l.pending + [a, b];
    }
  }

  // When each call works.
  lemma CallWorksIff(l: Lab, call: Call)
    requires !call.DoPull?
    ensures Perform(l, call).error.None? <==> match call
      case DoTransition(to, _, _) => CanTransition(l.state, to)
      case DoFreeze(_, _, _, _) => l.state == Ready
      case DoUnfreeze(_, _) => l.state in {Deploying, Checking, Frozen}
      case DoExtend(at, _) => l.state == Ready && (l.cleanupAt.Some? ==> l.cleanupAt.value <= at)
      case DoMarkReady(_, _) => l.state in {Deploying, Checking, Frozen}
      case DoAssign(_, _) => l.state == PendingProject
    ensures var c := Perform(l, call);
      c.error.Some? ==>
        c.error.value == (if call.DoExtend? && l.state == Ready then InvalidInput else InvalidTransition)
  {
  }

  // Whatever calls a lab receives, and whenever its buffer is pulled, the
  // events pulled so far followed by the pending ones form a legal history
  // from pending_quota that folds to the lab's state and project.
  lemma {:induction false} EventLogReplays(l: Lab, calls: seq<Call>)
    requires l == NewLab(l.id, l.student, l.course, l.template, l.createdAt)
    ensures var j := ApplyAll(Journal(l, []), calls);
      && Replay(j.Events()) == At(l.id, l.student, l.course, l.template, j.lab.state, j.lab.project)
      && Known(j.lab) == Known(l).(state := j.lab.state, project := j.lab.project)
      && Logged(j)
  {
    if calls == [] {
      ReplayAppend(Journal(l.Saved(), []), l, Created(l.id, l.student, l.course, l.template));
    } else {
      var call := calls[|calls| - 1];
      EventLogReplays(l, calls[..|calls| - 1]);
      var j := ApplyAll(Journal(l, []), calls[..|calls| - 1]);
      if call.DoPull? {
        assert Apply(j, call).Events() == j.Events();
      } else {
        CallIsLogged(j, call);
      }
    }
  }

  lemma {:induction false} LegalLogAssignsOnce(events: seq<Event>)
    requires Replay(events) != Broken
    ensures Assignments(events) <= 1
    ensures Assignments(events) == 1 <==> Replay(events).At? && Replay(events).project.Some?
  {
    if events != [] {
      LegalLogAssignsOnce(events[..|events| - 1]);
    }
  }

  // A lab is given a project at most once in its life, whatever is called.
  lemma AtMostOneProject(l: Lab, calls: seq<Call>)
    requires l == NewLab(l.id, l.student, l.course, l.template, l.createdAt)
    ensures var j := ApplyAll(Journal(l, []), calls);
      && Assignments(j.Events()) <= 1
      && (Assignments(j.Events()) == 1 <==> j.lab.project.Some?)
  {
    EventLogReplays(l, calls);
    LegalLogAssignsOnce(ApplyAll(Journal(l, []), calls).Events());
  }

  lemma PhaseNeverFalls(from: State, to: State)
    requires CanTransition(from, to)
    ensures Phase(from) <= Phase(to)
    ensures Phase(from) == Phase(to) ==> from == to || {from, to} <= {Ready, Checking, Frozen}
  {
  }

  lemma CallKeepsPhase(l: Lab, call: Call)
    requires !call.DoPull?
    ensures Phase(l.state) <= Phase(Perform(l, call).lab.state)
    ensures IsTerminal(l.state) ==> Perform(l, call) == Change(l, Some(InvalidTransition))
  {
    var to := Perform(l, call).lab.state;
    if to != l.state {
      PhaseNeverFalls(l.state, to);
    }
  }

  // A lab never returns to an earlier phase of its life.
  lemma {:induction false} PhasesOnlyAdvance(j: Journal, calls: seq<Call>)
    ensures Phase(j.lab.state) <= Phase(ApplyAll(j, calls).lab.state)
    ensures IsTerminal(j.lab.state) ==> ApplyAll(j, calls).lab.state == j.lab.state
  {
    if calls != [] {
      PhasesOnlyAdvance(j, calls[..|calls| - 1]);
      var call := calls[|calls| - 1];
      if !call.DoPull? {
        CallKeepsPhase(ApplyAll(j, calls[..|calls| - 1]).lab, call);
      }
    }
  }
}

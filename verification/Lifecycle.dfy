// The whole system: labs, the project pool, the step records and the cloud,
// changed by lab creations, user operations and saga runs in any order.

module Lifecycle {
  import opened Types
  import opened CloudDomain
  import opened LabDomain
  import P = PoolDomain
  import D = DeployDomain
  import DP = DeployProofs
  import C = CleanupDomain
  import CP = CleanupProofs
  import CO = CleanupOutcomes
  import S = LabService
  import Identity

  datatype World = World(
    labs: map<LabId, Lab>,
    projects: C.Projects,
    records: map<LabId, D.Records>,
    vault: D.Vault,
    cloud: Cloud)
  {
    function Tables(): S.Tables { S.Tables(labs, projects) }

    function With(t: S.Tables): World { this.(labs := t.labs, projects := t.projects) }

    function RecordsOf(l: LabId): D.Records {
      if l in records then records[l] else map[]
    }

    function DeployEnv(l: LabId): D.Env
      requires l in labs
    {
      D.Env(labs[l], RecordsOf(l), vault, cloud)
    }

    function CleanupEnv(l: LabId): C.Env
      requires l in labs
    {
      C.Env(labs[l], HasRival(labs, labs[l]), projects, vault, cloud)
    }
  }

  // One atomic step: a lab creation, a user operation, or one saga run with
  // the failures and the crash its oracle decides.
  datatype Op =
    | Create(input: S.CreateInput)
    | Stop(who: Identity.Subject, lab: LabId, now: Time, stored: bool)
    | Freeze(who: Identity.Subject, lab: LabId, reason: string, seconds: Option<int>, now: Time, stored: bool)
    | Unfreeze(who: Identity.Subject, lab: LabId, now: Time, stored: bool)
    | Extend(who: Identity.Subject, lab: LabId, extendBy: Time, now: Time, stored: bool)
    | Deploy(lab: LabId, now: Time, o: Oracle)
    | Cleanup(lab: LabId, now: Time, o: Oracle)

  function AfterDeploy(w: World, l: LabId, e: D.Env): World {
    var records := if e.records == w.RecordsOf(l) then w.records else w.records[l := e.records];
    w.(labs := w.labs[l := e.lab], records := records, vault := e.vault, cloud := e.cloud)
  }

  function AfterCleanup(w: World, l: LabId, e: C.Env): World {
    w.(labs := w.labs[l := e.lab], projects := e.projects, vault := e.vault, cloud := e.cloud)
  }

  ghost function Step(w: World, op: Op, cfg: D.Config): World {
    match op
    case Create(input) => w.With(S.CreateLab(w.Tables(), input).tables)
    case Stop(who, l, now, stored) => w.With(S.StopLab(w.Tables(), who, l, now, stored).tables)
    case Freeze(who, l, reason, seconds, now, stored) =>
      w.With(S.FreezeLab(w.Tables(), who, l, reason, seconds, now, stored).tables)
    case Unfreeze(who, l, now, stored) => w.With(S.UnfreezeLab(w.Tables(), who, l, now, stored).tables)
    case Extend(who, l, extendBy, now, stored) => w.With(S.ExtendLab(w.Tables(), who, l, extendBy, now, stored).tables)
    case Deploy(l, now, o) =>
      if l !in w.labs then w else AfterDeploy(w, l, D.Run(w.DeployEnv(l), cfg, now, o).env)
    case Cleanup(l, now, o) =>
      if l !in w.labs || !C.RowsWellFormed(w.projects) then w
      else AfterCleanup(w, l, C.Run(w.CleanupEnv(l), now, o).env)
  }

  ghost function Play(w: World, ops: seq<Op>, cfg: D.Config): World {
    if ops == [] then w else Step(Play(w, ops[..|ops| - 1], cfg), ops[|ops| - 1], cfg)
  }

  // A pool of free projects, no labs, an empty cloud, secrets of others.
  ghost predicate Initial(w: World) {
    && w.labs == map[] && w.records == map[]
    && C.RowsWellFormed(w.projects)
    && (forall p :: p in w.projects ==> w.projects[p].state == P.Free)
    && (forall s :: s in w.vault.live ==> s < w.vault.next)
    && exists capacity :: NOTHING.Within(capacity) && w.cloud == NewCloud(capacity)
  }

  // ---------------------------------------------------------------------
  // What every history keeps, whatever happens in it.

  // The data a stored lab carries in each of its states.
  predicate Shaped(l: Lab) {
    && l.pending == []
    && l.state !in {PendingQuota, PendingProject, Checking}
    && (l.project.Some? <==> l.state != Rejected)
    && (l.state in {Deploying, State.Failed} ==> l.resources == NO_RESOURCES && l.cleanupAt.None?)
    && (l.state in {Deploying, State.Failed, Ready} ==> l.unfreezeAt.None? && l.frozenBy.None?)
    && (l.state == Ready ==> l.cleanupAt.Some?)
    && (l.state == Frozen ==> l.unfreezeAt.Some? && l.frozenBy.Some? && l.cleanupAt.None?)
  }

  // Labs carry the data of their state, and no student has two active labs in
  // a course.
  ghost predicate Orderly(w: World) {
    && C.RowsWellFormed(w.projects) && OneActive(w.labs)
    && forall l :: l in w.labs ==> Shaped(w.labs[l])
  }

  // A lab that has a project and is not finished with it.
  predicate Tenant(s: State) {
    CP.Holding(s) || s == Cleaning
  }

  // Nothing in the cloud or the records is named for a lab that never was.
  ghost predicate NamesKnown(w: World) {
    && (forall id :: id in w.cloud.servers ==> w.cloud.servers[id].spec.name.lab in w.labs)
    && (forall id :: id in w.cloud.networks ==> w.cloud.networks[id].name.lab in w.labs)
    && (forall l :: l in w.records ==> l in w.labs)
  }

  // A deploying lab can be resumed, and handles name only the lab's own.
  ghost predicate LabSound(w: World, l: LabId, top: D.Topology)
    requires l in w.labs
  {
    var lab := w.labs[l];
    && (lab.state == Deploying ==> DP.Resumable(w.DeployEnv(l), top))
    && (Tenant(lab.state) && lab.project.Some? ==> CP.Owned(w.cloud, lab.project.value, l, lab.resources))
  }

  ghost predicate Equipped(w: World, top: D.Topology) {
    && Orderly(w) && w.cloud.Valid() && NamesKnown(w)
    && forall l :: l in w.labs ==> LabSound(w, l, top)
  }

  // ---------------------------------------------------------------------
  // What histories keep under a condition.

  // Every usable lab that is past its deploy has its whole stand.
  ghost predicate Serves(w: World, l: LabId, top: D.Topology)
    requires l in w.labs
  {
    w.labs[l].state in {Ready, Frozen} && w.labs[l].project.Some? ==>
      DP.Provisioned(w.cloud, w.labs[l].project.value, l, top, w.labs[l].resources)
  }

  ghost predicate Served(w: World, top: D.Topology) {
    forall l :: l in w.labs ==> Serves(w, l, top)
  }

  // Each tenant's project is its own, and each taken project has its tenant.
  ghost predicate Exclusive(w: World) {
    && (forall l :: l in w.labs && Tenant(w.labs[l].state) ==>
          && w.labs[l].project.Some? && w.labs[l].project.value in w.projects
          && CP.Tenancy(w.labs[l], w.projects[w.labs[l].project.value]))
    && (forall l, m :: l in w.labs && m in w.labs && l != m && Tenant(w.labs[l].state) && Tenant(w.labs[m].state) ==>
          w.labs[l].project != w.labs[m].project)
    && (forall p :: p in w.projects && w.projects[p].state in {P.Allocated, P.Cleaning} ==> HasTenant(w, p))
  }

  ghost predicate HasTenant(w: World, p: ProjectId)
    requires p in w.projects
  {
    && w.projects[p].lab.Some? && w.projects[p].lab.value in w.labs
    && var lab := w.labs[w.projects[p].lab.value]; Tenant(lab.state) && lab.project == Some(p)
  }

  // Moreover no project of a cleaning lab has been freed.
  ghost predicate AllTied(w: World) {
    forall l ::
      l in w.labs && Tenant(w.labs[l].state) && w.labs[l].project.Some? && w.labs[l].project.value in w.projects ==>
        CP.Tied(w.labs[l], w.projects[w.labs[l].project.value])
  }

  // Everything in project p is named for lab l.
  ghost predicate NamedFor(c: Cloud, p: ProjectId, l: LabId) {
    && (forall id :: id in c.servers && c.servers[id].project == p ==>
          c.servers[id].spec.name.VmName? && c.servers[id].spec.name.lab == l)
    && (forall id :: id in c.networks && c.networks[id].project == p ==> c.networks[id].name == NetName(l))
    && (forall k :: k in c.keypairs && k.0 == p ==> k.1 == KeyName(l))
  }

  // The row of lab l's project is in use for it.
  ghost predicate Owns(w: World, l: LabId)
    requires l in w.labs
  {
    && w.labs[l].project.Some? && w.labs[l].project.value in w.projects
    && var row := w.projects[w.labs[l].project.value];
       row.state in {P.Allocated, P.Cleaning} && row.lab == Some(l)
  }

  // Each lab still using its project, and not only cleaning up, has it
  // allocated to itself, and each project in use has its tenant. A cleaning
  // lab may have lost its project to a next tenant.
  ghost predicate Housed(w: World) {
    && (forall l :: l in w.labs && Tenant(w.labs[l].state) ==>
          w.labs[l].project.Some? && w.labs[l].project.value in w.projects)
    && (forall l :: l in w.labs && CP.Holding(w.labs[l].state) ==>
          Owns(w, l) && w.projects[w.labs[l].project.value].state == P.Allocated)
    && (forall p :: p in w.projects && w.projects[p].state in {P.Allocated, P.Cleaning} ==> HasTenant(w, p))
  }

  // What is in the project a lab owns is the lab's, and known to it once
  // deployed.
  ghost predicate Accounts(w: World, l: LabId)
    requires l in w.labs
  {
    Owns(w, l) ==>
      var p, lab := w.labs[l].project.value, w.labs[l];
      && (lab.state == Deploying ==> NamedFor(w.cloud, p, l))
      && (lab.state in {Ready, Frozen, State.Failed, Cleaning} ==> CP.Covers(w.cloud, p, lab.resources))
  }

  ghost predicate Tidy(w: World) {
    && (forall p :: p in w.projects && w.projects[p].state == P.Free ==> CP.Vacant(w.cloud, p))
    && (forall l :: l in w.labs ==> Accounts(w, l))
  }

  // ---------------------------------------------------------------------
  // The steps that break a claim, by the guard that lets them.

  // A create that rents a project which some cleaning lab has freed but not
  // let go of: its cleanup is still to be retried.
  ghost predicate RentsFromUnder(w: World, op: Op) {
    && op.Create? && S.Admits(w.Tables(), op.input)
    && exists l, p :: l in w.labs && w.labs[l].state == Cleaning && w.labs[l].project == Some(p)
                      && S.IsCandidate(w.projects, op.input.domain.value, p)
  }

  // A cleanup run stopped between freeing the project and finishing the lab,
  // without which there is no such lab.
  ghost predicate Abandons(w: World, op: Op) {
    && op.Cleanup? && op.lab in w.labs && w.labs[op.lab].project.Some?
    && CP.Abandoned(w.CleanupEnv(op.lab), op.now, op.o)
  }

  // A cleanup run of a lab whose project another lab is using: it takes the
  // project out of that lab's allocation.
  ghost predicate Evicts(w: World, op: Op) {
    && op.Cleanup? && op.lab in w.labs && w.labs[op.lab].state == Cleaning
    && (exists m :: m in w.labs && m != op.lab && CP.Holding(w.labs[m].state)
                    && w.labs[m].project == w.labs[op.lab].project)
    && forall i: nat :: i < 3 ==> op.o.store(i) == Fine
  }

  // A cleanup run that frees a project in use for another lab while there is
  // something in it.
  ghost predicate Strips(w: World, op: Op) {
    && op.Cleanup? && op.lab in w.labs && w.labs[op.lab].state == Cleaning
    && w.labs[op.lab].project.Some? && w.labs[op.lab].project.value in w.projects
    && var p := w.labs[op.lab].project.value;
       && w.projects[p].state in {P.Allocated, P.Cleaning} && w.projects[p].lab != Some(op.lab)
       && CO.Concludes(w.CleanupEnv(op.lab), op.o) && !CP.Vacant(w.cloud, p)
  }

  // An unfreeze of a lab still deploying, which the transition table lets
  // through to ready with nothing provisioned.
  ghost predicate UnfreezesTooEarly(w: World, op: Op) {
    && op.Unfreeze? && op.lab in w.labs && w.labs[op.lab].state == Deploying
    && S.Permitted(op.who, Identity.LabUnfreeze, w.labs[op.lab]) && op.stored
  }

  // A deploy run that is to give up, with something in its lab's project
  // already or built on the way: the lab becomes failed and forgets it. Only
  // if the very first call of the first step fails is nothing built.
  ghost predicate Leaks(w: World, op: Op, cfg: D.Config) {
    && op.Deploy? && op.lab in w.labs && D.GivesUp(w.DeployEnv(op.lab), cfg, op.o)
    && !(DP.DoneFrom(w.RecordsOf(op.lab), 0) == 0 && op.o.cloud(3) == Fault
         && CP.Vacant(w.cloud, w.labs[op.lab].project.value))
  }

  // A step after which a lab does not know what is in its project.
  ghost predicate Forgets(w: World, op: Op, cfg: D.Config) {
    || Leaks(w, op, cfg)
    || (UnfreezesTooEarly(w, op) && w.labs[op.lab].project.Some? && !CP.Vacant(w.cloud, w.labs[op.lab].project.value))
  }
}

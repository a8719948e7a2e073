// The claims over whole histories, and what follows from the steps that break
// them.

module Histories {
  import opened Types
  import opened CloudDomain
  import opened LabDomain
  import opened Lifecycle
  import opened OrderlyProofs
  import EP = EquippedProofs
  import XP = ExclusiveProofs
  import HP = HousedProofs
  import TP = TidyProofs
  import P = PoolDomain
  import D = DeployDomain
  import DP = DeployProofs
  import C = CleanupDomain
  import CP = CleanupProofs
  import CO = CleanupOutcomes
  import S = LabService

  ghost predicate NeverRentsFromUnder(w: World, ops: seq<Op>, cfg: D.Config) {
    forall i :: 0 <= i < |ops| ==> !RentsFromUnder(Play(w, ops[..i], cfg), ops[i])
  }

  ghost predicate NeverAbandons(w: World, ops: seq<Op>, cfg: D.Config) {
    forall i :: 0 <= i < |ops| ==> !Abandons(Play(w, ops[..i], cfg), ops[i])
  }

  ghost predicate NeverEvicts(w: World, ops: seq<Op>, cfg: D.Config) {
    forall i :: 0 <= i < |ops| ==> !Evicts(Play(w, ops[..i], cfg), ops[i])
  }

  ghost predicate NeverStrips(w: World, ops: seq<Op>, cfg: D.Config) {
    forall i :: 0 <= i < |ops| ==> !Strips(Play(w, ops[..i], cfg), ops[i])
  }

  ghost predicate NeverUnfreezesEarly(w: World, ops: seq<Op>, cfg: D.Config) {
    forall i :: 0 <= i < |ops| ==> !UnfreezesTooEarly(Play(w, ops[..i], cfg), ops[i])
  }

  ghost predicate NeverForgets(w: World, ops: seq<Op>, cfg: D.Config) {
    forall i :: 0 <= i < |ops| ==> !Forgets(Play(w, ops[..i], cfg), ops[i], cfg)
  }

  lemma FrontOf(ops: seq<Op>)
    requires ops != []
    ensures forall i :: 0 <= i < |ops| ==> ops[..|ops| - 1][..i] == ops[..i]
  {
  }

  lemma StartsInOrder(w: World, top: D.Topology)
    requires Initial(w)
    ensures Equipped(w, top) && Served(w, top) && Exclusive(w) && AllTied(w) && Housed(w) && Tidy(w)
  {
  }

  // ---------------------------------------------------------------------
  // Every history.

  lemma {:induction false} HistoriesStayOrderly(w: World, ops: seq<Op>, cfg: D.Config)
    requires Initial(w)
    ensures Orderly(Play(w, ops, cfg))
  {
    hide Initial, Orderly, Step;
    if ops == [] {
      InitialIsOrderly(w, cfg.topology);
    } else {
      HistoriesStayOrderly(w, ops[..|ops| - 1], cfg);
      StepKeepsOrderly(Play(w, ops[..|ops| - 1], cfg), ops[|ops| - 1], cfg);
    }
  }

  lemma InitialIsOrderly(w: World, top: D.Topology)
    requires Initial(w)
    ensures Orderly(w)
  {
  }

  // Whatever happens, every stored lab has the shape of its state.
  lemma StoredLabsAreShaped(w: World, ops: seq<Op>, cfg: D.Config)
    requires Initial(w)
    ensures forall l :: l in Play(w, ops, cfg).labs ==>
      Play(w, ops, cfg).labs[l].id == l && Shaped(Play(w, ops, cfg).labs[l])
  {
    hide Initial, Step, Play, Shaped;
    HistoriesStayOrderly(w, ops, cfg);
  }

  // The states of a lab its student still uses or waits for.
  predicate Usable(s: State) {
    s in {PendingQuota, PendingProject, Deploying, Ready, Checking, Frozen}
  }

  // Whatever happens, a student has at most one active lab in a course, and so
  // at most one usable one.
  lemma OneLabPerSeat(w: World, ops: seq<Op>, cfg: D.Config)
    requires Initial(w)
    ensures OneActive(Play(w, ops, cfg).labs)
    ensures var labs := Play(w, ops, cfg).labs;
      forall l, m :: l in labs && m in labs && l != m && Usable(labs[l].state) && Usable(labs[m].state) ==>
        labs[l].student != labs[m].student || labs[l].course != labs[m].course
  {
    hide Initial, Step, Play, Shaped;
    HistoriesStayOrderly(w, ops, cfg);
    var labs := Play(w, ops, cfg).labs;
    forall l | l in labs && Usable(labs[l].state)
      ensures IsActive(labs[l].state)
    {
    }
  }

  // Even where two labs share a project, each deploying lab can be resumed and
  // the handles of each lab name only its own.
  lemma {:induction false} HistoriesStayEquipped(w: World, ops: seq<Op>, cfg: D.Config)
    requires Initial(w) && cfg.topology.NamesDistinct()
    ensures Equipped(Play(w, ops, cfg), cfg.topology)
  {
    hide Initial, Equipped, Step;
    if ops == [] {
      StartsInOrder(w, cfg.topology);
    } else {
      HistoriesStayEquipped(w, ops[..|ops| - 1], cfg);
      EP.StepKeepsServedIff(Play(w, ops[..|ops| - 1], cfg), ops[|ops| - 1], cfg);
    }
  }

  // ---------------------------------------------------------------------
  // Histories without the steps that do harm.

  // Crash-resume correctness across labs: whatever steps failed or crashed on
  // the way, and even where two labs share a project, a ready or frozen lab
  // names exactly its own network, keypair and machines, as specified and in
  // order, each machine with its own address.
  lemma {:induction false} UsableLabsAreProvisioned(w: World, ops: seq<Op>, cfg: D.Config)
    requires Initial(w) && cfg.topology.NamesDistinct() && NeverUnfreezesEarly(w, ops, cfg)
    ensures Served(Play(w, ops, cfg), cfg.topology)
  {
    hide Initial, Equipped, Served, Step, UnfreezesTooEarly;
    if ops == [] {
      StartsInOrder(w, cfg.topology);
    } else {
      FrontOf(ops);
      UsableLabsAreProvisioned(w, ops[..|ops| - 1], cfg);
      HistoriesStayEquipped(w, ops[..|ops| - 1], cfg);
      EP.StepKeepsServedIff(Play(w, ops[..|ops| - 1], cfg), ops[|ops| - 1], cfg);
    }
  }

  // A machine as booted, but for the id of the network it is in.
  function Apart(spec: ServerSpec): ServerSpec {
    spec.(network := None)
  }

  // Whatever failed, crashed or went on in other labs: a lab usable in any two
  // histories has the same machines in the same order, up to ids.
  lemma StandIgnoresHistory(w: World, ops: seq<Op>, w': World, ops': seq<Op>, cfg: D.Config, l: LabId)
    requires Initial(w) && Initial(w') && cfg.topology.NamesDistinct()
    requires NeverUnfreezesEarly(w, ops, cfg) && NeverUnfreezesEarly(w', ops', cfg)
    requires l in Play(w, ops, cfg).labs && Play(w, ops, cfg).labs[l].state in {Ready, Frozen}
    requires l in Play(w', ops', cfg).labs && Play(w', ops', cfg).labs[l].state in {Ready, Frozen}
    ensures var v, v' := Play(w, ops, cfg), Play(w', ops', cfg);
      var res, res' := v.labs[l].resources, v'.labs[l].resources;
      && res.keypair == res'.keypair && |res.servers| == |res'.servers| && |res.ips| == |res'.ips|
      && forall i :: 0 <= i < |res.servers| ==>
           && res.servers[i] in v.cloud.servers && res'.servers[i] in v'.cloud.servers
           && Apart(v.cloud.servers[res.servers[i]].spec) == Apart(v'.cloud.servers[res'.servers[i]].spec)
  {
    hide Initial, Step, Play, Shaped, UnfreezesTooEarly;
    UsableLabsAreProvisioned(w, ops, cfg);
    UsableLabsAreProvisioned(w', ops', cfg);
    StoredLabsAreShaped(w, ops, cfg);
    StoredLabsAreShaped(w', ops', cfg);
    HasItsProject(Play(w, ops, cfg).labs[l]);
    HasItsProject(Play(w', ops', cfg).labs[l]);
    assert Serves(Play(w, ops, cfg), l, cfg.topology) && Serves(Play(w', ops', cfg), l, cfg.topology);
  }

  // Machine id of lab l, in its network and with its keypair, is called so and
  // so, and takes what its flavor says.
  ghost predicate IsVm(c: Cloud, id: ServerId, l: LabId, res: Resources, name: string, image: string, flavor: string,
                       ip: string, takes: Amount)
  {
    && id in c.servers && c.servers[id].resources == takes
    && var spec := c.servers[id].spec;
       && spec.name == VmName(l, name) && spec.image == image && spec.flavor == flavor && spec.fixedIp == ip
       && spec.network == res.network && spec.keypair == res.keypair == Some(KeyName(l))
  }

  // The stand the gateway deploys: five machines in one network.
  lemma ReadyStandThreeIsComplete(w: World, ops: seq<Op>, cfg: D.Config, l: LabId)
    requires Initial(w) && cfg.topology == D.STAND_THREE && NeverUnfreezesEarly(w, ops, cfg)
    requires l in Play(w, ops, cfg).labs && Play(w, ops, cfg).labs[l].state in {Ready, Frozen}
    ensures var v := Play(w, ops, cfg); var c, res := v.cloud, v.labs[l].resources;
      && |res.servers| == 5 == |res.ips|
      && res.network.Some? && res.network.value in c.networks && c.networks[res.network.value].cidr == "10.0.0.0/24"
      && IsVm(c, res.servers[0], l, res, "L-MS", "LAB2_TMP_L-MS", "small", "10.0.0.10", Amount(1, 2048, 20))
      && IsVm(c, res.servers[1], l, res, "L-NFS", "LAB2_TMP_L-NFS", "start", "10.0.0.70", Amount(1, 1024, 10))
      && IsVm(c, res.servers[2], l, res, "L-PGSQL", "LAB2_TMP_L-PGSQL", "start", "10.0.0.55", Amount(1, 1024, 10))
      && IsVm(c, res.servers[3], l, res, "W-DC", "LAB2_TMP_W-DC", "medium", "10.0.0.5", Amount(2, 4096, 40))
      && IsVm(c, res.servers[4], l, res, "V-HYPERV", "LAB2_TMP_V-HYPERV", "large", "10.0.0.65", Amount(4, 8192, 80))
      && c.servers[res.servers[0]].spec.role == "Кибер Бэкап — сервер управления"
      && c.servers[res.servers[1]].spec.role == "файловый сервер, хранилище ВМ"
      && c.servers[res.servers[2]].spec.role == "сервер БД PostgreSQL"
      && c.servers[res.servers[3]].spec.role == "контроллер домена, DNS, SMB"
      && c.servers[res.servers[4]].spec.role == "гипервизор Microsoft Hyper-V"
  {
    hide Initial, Step, Play, Shaped, UnfreezesTooEarly;
    D.StandThreeIsDistinct();
    UsableLabsAreProvisioned(w, ops, cfg);
    StoredLabsAreShaped(w, ops, cfg);
    HasItsProject(Play(w, ops, cfg).labs[l]);
    assert Serves(Play(w, ops, cfg), l, cfg.topology);
    ProvisionedIsFive(Play(w, ops, cfg), l);
  }

  lemma ProvisionedIsFive(v: World, l: LabId)
    requires l in v.labs && v.labs[l].project.Some?
    requires DP.Provisioned(v.cloud, v.labs[l].project.value, l, D.STAND_THREE, v.labs[l].resources)
    ensures var c, res := v.cloud, v.labs[l].resources;
      && |res.servers| == 5 == |res.ips|
      && res.network.Some? && res.network.value in c.networks && c.networks[res.network.value].cidr == "10.0.0.0/24"
      && forall i :: 0 <= i < 5 ==>
           && res.servers[i] in c.servers
           && c.servers[res.servers[i]].resources == RequestFromFlavor(D.STAND_THREE.vms[i].flavor)
           && DP.IsMachine(c.servers[res.servers[i]].spec, l, D.STAND_THREE.vms[i], res.network, Some(KeyName(l)))
  {
  }

  lemma HasItsProject(lab: Lab)
    requires Shaped(lab) && lab.state in {Ready, Frozen}
    ensures lab.project.Some?
  {
  }

  // No double rent: in every history in which no create rents a project from
  // under a lab whose cleanup is to be retried, each tenant's project is
  // allocated to exactly it (or, while cleaning, being cleaned for it, freed
  // or quarantined), no two tenants share one, and every taken project has
  // its tenant.
  lemma {:induction false} NoDoubleRent(w: World, ops: seq<Op>, cfg: D.Config)
    requires Initial(w) && NeverRentsFromUnder(w, ops, cfg)
    ensures Exclusive(Play(w, ops, cfg))
  {
    hide Initial, Orderly, Exclusive, Step, RentsFromUnder;
    if ops == [] {
      StartsInOrder(w, cfg.topology);
    } else {
      FrontOf(ops);
      NoDoubleRent(w, ops[..|ops| - 1], cfg);
      HistoriesStayOrderly(w, ops[..|ops| - 1], cfg);
      XP.StepKeepsExclusiveIff(Play(w, ops[..|ops| - 1], cfg), ops[|ops| - 1], cfg);
    }
  }

  // No cleanup run need be stopped in its harmful window for that: without an
  // abandoned one no create rents from under anyone, and every cleaning lab
  // stays tied to its project.
  lemma {:induction false} TheftTakesAbandonment(w: World, ops: seq<Op>, cfg: D.Config)
    requires Initial(w) && NeverAbandons(w, ops, cfg)
    ensures NeverRentsFromUnder(w, ops, cfg) && AllTied(Play(w, ops, cfg))
  {
    hide Initial, Orderly, Exclusive, AllTied, Step, RentsFromUnder, Abandons;
    if ops == [] {
      StartsInOrder(w, cfg.topology);
    } else {
      var front := ops[..|ops| - 1];
      FrontOf(ops);
      TheftTakesAbandonment(w, front, cfg);
      NoDoubleRent(w, front, cfg);
      HistoriesStayOrderly(w, front, cfg);
      XP.StepKeepsTiedIff(Play(w, front, cfg), ops[|ops| - 1], cfg);
      forall i | 0 <= i < |ops|
        ensures !RentsFromUnder(Play(w, ops[..i], cfg), ops[i])
      {
        if i < |ops| - 1 {
          assert front[i] == ops[i] && front[..i] == ops[..i];
        }
      }
    }
  }

  // Nobody loses a project: in every history in which no lab whose project has
  // a next tenant is cleaned up, each lab from deploying to failed has its
  // project allocated to it; so no two of them share one, whoever rented from
  // under whom.
  lemma {:induction false} NobodyIsEvicted(w: World, ops: seq<Op>, cfg: D.Config)
    requires Initial(w) && NeverEvicts(w, ops, cfg)
    ensures Housed(Play(w, ops, cfg))
    ensures var labs := Play(w, ops, cfg).labs;
      forall l, m :: l in labs && m in labs && l != m && CP.Holding(labs[l].state) && CP.Holding(labs[m].state) ==>
        labs[l].project != labs[m].project
  {
    hide Initial, Orderly, Step, Evicts;
    if ops == [] {
      StartsInOrder(w, cfg.topology);
    } else {
      FrontOf(ops);
      NobodyIsEvicted(w, ops[..|ops| - 1], cfg);
      HistoriesStayOrderly(w, ops[..|ops| - 1], cfg);
      hide Housed;
      HP.StepKeepsHousedIff(Play(w, ops[..|ops| - 1], cfg), ops[|ops| - 1], cfg);
    }
    HoldersHaveTheirOwn(Play(w, ops, cfg));
  }

  lemma HoldersHaveTheirOwn(w: World)
    requires Housed(w)
    ensures forall l, m ::
      l in w.labs && m in w.labs && l != m && CP.Holding(w.labs[l].state) && CP.Holding(w.labs[m].state) ==>
        w.labs[l].project != w.labs[m].project
  {
    hide HasTenant;
  }

  // Where projects are exclusive nobody can be evicted and nothing stripped.
  lemma ExclusiveEvictsNobody(w: World, op: Op)
    requires Exclusive(w) && forall l :: l in w.labs ==> w.labs[l].id == l
    ensures !Evicts(w, op) && !Strips(w, op)
  {
    hide CP.Tenancy, CO.Concludes, CP.Vacant;
    if op.Cleanup? && op.lab in w.labs && w.labs[op.lab].state == Cleaning {
      var p := w.labs[op.lab].project.value;
      assert w.projects[p].state in {P.Allocated, P.Cleaning} ==> HasTenant(w, p);
    }
  }

  // So it takes a create that rents from under a lab first.
  lemma {:induction false} EvictionTakesTheft(w: World, ops: seq<Op>, cfg: D.Config)
    requires Initial(w) && NeverRentsFromUnder(w, ops, cfg)
    ensures NeverEvicts(w, ops, cfg) && NeverStrips(w, ops, cfg)
  {
    hide Initial, Orderly, Exclusive, Step, Evicts, Strips, RentsFromUnder;
    if ops != [] {
      var front := ops[..|ops| - 1];
      FrontOf(ops);
      EvictionTakesTheft(w, front, cfg);
      NoDoubleRent(w, front, cfg);
      HistoriesStayOrderly(w, front, cfg);
      OrderlyRows(Play(w, front, cfg));
      ExclusiveEvictsNobody(Play(w, front, cfg), ops[|ops| - 1]);
      forall i | 0 <= i < |ops|
        ensures !Evicts(Play(w, ops[..i], cfg), ops[i]) && !Strips(Play(w, ops[..i], cfg), ops[i])
      {
        if i < |ops| - 1 {
          assert front[i] == ops[i] && front[..i] == ops[..i];
        }
      }
    }
  }

  // Empty when free: however often deploys were retried, teardowns failed
  // part-way and projects rented from under abandoned cleanups, a free project
  // holds no server, keypair, network or address.
  lemma {:induction false} HistoriesStayTidy(w: World, ops: seq<Op>, cfg: D.Config)
    requires Initial(w) && cfg.topology.NamesDistinct()
    requires NeverEvicts(w, ops, cfg) && NeverStrips(w, ops, cfg) && NeverForgets(w, ops, cfg)
    ensures Tidy(Play(w, ops, cfg))
  {
    hide Initial, Equipped, Housed, Tidy, Step, Evicts, Strips, Forgets;
    if ops == [] {
      StartsInOrder(w, cfg.topology);
    } else {
      FrontOf(ops);
      HistoriesStayTidy(w, ops[..|ops| - 1], cfg);
      NobodyIsEvicted(w, ops[..|ops| - 1], cfg);
      HistoriesStayEquipped(w, ops[..|ops| - 1], cfg);
      TP.StepKeepsTidyIff(Play(w, ops[..|ops| - 1], cfg), ops[|ops| - 1], cfg);
    }
  }

  lemma FreeProjectsAreEmpty(w: World, ops: seq<Op>, cfg: D.Config)
    requires Initial(w) && cfg.topology.NamesDistinct()
    requires NeverEvicts(w, ops, cfg) && NeverStrips(w, ops, cfg) && NeverForgets(w, ops, cfg)
    ensures var v := Play(w, ops, cfg);
      forall p :: p in v.projects && v.projects[p].state == P.Free ==>
        && CP.Vacant(v.cloud, p)
        && forall ip :: ip in v.cloud.floating ==>
             v.cloud.floating[ip] in v.cloud.servers && v.cloud.servers[v.cloud.floating[ip]].project != p
  {
    var v := Play(w, ops, cfg);
    hide Initial, Orderly, NamesKnown, LabSound, Cloud.Valid, Play, Evicts, Strips, Forgets, CP.Vacant, Accounts;
    HistoriesStayTidy(w, ops, cfg);
    HistoriesStayEquipped(w, ops, cfg);
    forall p | p in v.projects && v.projects[p].state == P.Free
      ensures CP.Vacant(v.cloud, p)
      ensures forall ip :: ip in v.cloud.floating ==>
        v.cloud.floating[ip] in v.cloud.servers && v.cloud.servers[v.cloud.floating[ip]].project != p
    {
      CP.VacantHasNoAddress(v.cloud, p);
    }
  }

  // ---------------------------------------------------------------------
  // What the breaking steps lead to.

  lemma {:induction false} FaultlessDeletes(c: Cloud, ids: seq<ServerId>, t: nat, o: Oracle)
    requires Faultless(o)
    ensures C.DeleteServers(c, ids, t, o).fate == Fine
    decreases ids
  {
    if ids != [] {
      FaultlessDeletes(c.DeleteServer(ids[0], false).cloud, ids[1..], t + 1, o);
    }
  }

  // A cleanup whose calls all work finishes a cleaning lab and frees its
  // project, whoever the project is allocated to.
  lemma FaultlessCleanup(e: C.Env, now: Time, o: Oracle)
    requires C.RowsWellFormed(e.projects) && Faultless(o)
    requires e.lab.state == Cleaning || (CanTransition(e.lab.state, Cleaning) && !e.rival)
    requires e.lab.project.Some? && e.lab.project.value in e.projects
    requires e.projects[e.lab.project.value].state in {P.Allocated, P.Cleaning}
    ensures var r := C.Run(e, now, o).env;
      && r.lab.state == Done
      && r.projects.Keys == e.projects.Keys && r.projects[e.lab.project.value].state == P.Free
      && (e.lab.resources == NO_RESOURCES ==> r.cloud == e.cloud)
  {
    hide C.AfterTransition;
    if e.lab.state == Cleaning {
      FaultlessAfterTransition(e, now, 1, o);
    } else {
      FaultlessAfterTransition(e.(lab := e.lab.Transition(Cleaning, "cleanup", now).lab.Saved()), now, 2, o);
    }
  }

  lemma FaultlessAfterTransition(e: C.Env, now: Time, t: nat, o: Oracle)
    requires C.RowsWellFormed(e.projects) && Faultless(o) && e.lab.state == Cleaning
    requires e.lab.project.Some? && e.lab.project.value in e.projects
    requires e.projects[e.lab.project.value].state in {P.Allocated, P.Cleaning}
    ensures var r := C.AfterTransition(e, now, t, o).env;
      && r.lab.state == Done
      && r.projects.Keys == e.projects.Keys && r.projects[e.lab.project.value].state == P.Free
      && (e.lab.resources == NO_RESOURCES ==> r.cloud == e.cloud)
  {
    hide C.AfterRelease, C.Store;
    var p := C.ProjectOf(e).value;
    if p.state == P.Allocated {
      CP.StoreKeepsRows(e.projects, p.Release(now).project);
      FaultlessTeardown(e.(projects := C.Store(e.projects, p.Release(now).project)), now, t + 2, o);
    } else {
      FaultlessTeardown(e, now, t + 1, o);
    }
  }

  lemma FaultlessTeardown(e: C.Env, now: Time, t: nat, o: Oracle)
    requires C.RowsWellFormed(e.projects) && Faultless(o) && e.lab.state == Cleaning
    requires e.lab.project.Some? && e.lab.project.value in e.projects
    requires e.projects[e.lab.project.value].state == P.Cleaning
    ensures var r := C.AfterRelease(e, now, t, o).env;
      && r.lab.state == Done
      && r.projects.Keys == e.projects.Keys && r.projects[e.lab.project.value].state == P.Free
      && (e.lab.resources == NO_RESOURCES ==> r.cloud == e.cloud)
  {
    FaultlessDeletes(e.cloud, e.lab.resources.servers, t, o);
    var td, clean := C.Teardown(e.cloud, e.lab, t, o), C.ProjectOf(e).value.MarkClean(now).project;
    CP.StoreKeepsRows(e.projects, clean);
    hide C.DeleteServers, C.DropKey, C.Store, C.RowsWellFormed;
    CP.SteadyDropKey(e.(cloud := td.cloud, projects := C.Store(e.projects, clean)), now, td.t + 1, o);
    CP.DropKeyKeepsRest(e.(cloud := td.cloud, projects := C.Store(e.projects, clean)), now, td.t + 1, o);
  }

  // Compensation of a failed deploy deletes nothing and still frees the
  // project: it is left empty only if the deploy had built nothing. (It waits
  // while the student's next lab is active: see FailedWaitsForRival.)
  lemma CompensationDeletesNothing(w: World, op: Op, cfg: D.Config)
    requires Orderly(w) && Exclusive(w) && op.Cleanup? && Faultless(op.o)
    requires op.lab in w.labs && w.labs[op.lab].state == State.Failed && !HasRival(w.labs, w.labs[op.lab])
    ensures w.labs[op.lab].project.Some? && w.labs[op.lab].project.value in w.projects
    ensures var w', p := Step(w, op, cfg), w.labs[op.lab].project.value;
      && w'.labs[op.lab].state == Done && w'.cloud == w.cloud
      && p in w'.projects && w'.projects[p].state == P.Free
      && (CP.Vacant(w'.cloud, p) <==> CP.Vacant(w.cloud, p))
  {
    XP.TenantFacts(w, op.lab);
    FaultlessCleanup(w.CleanupEnv(op.lab), op.now, op.o);
    hide C.Run, Exclusive;
    CleanupChangesOneLab(w, op, cfg);
  }

  // A lab left cleaning after its project was freed and rented again: when
  // its cleanup is retried, the project is taken from under the new tenant.
  lemma RetryEvictsNextTenant(w: World, op: Op, next: LabId, p: ProjectId, cfg: D.Config)
    requires C.RowsWellFormed(w.projects) && op.Cleanup? && Faultless(op.o) && op.lab != next
    requires op.lab in w.labs && w.labs[op.lab].id == op.lab
    requires w.labs[op.lab].state == Cleaning && w.labs[op.lab].project == Some(p)
    requires next in w.labs && CP.Holding(w.labs[next].state) && w.labs[next].project == Some(p)
    requires p in w.projects && w.projects[p].state == P.Allocated && w.projects[p].lab == Some(next)
    ensures var w' := Step(w, op, cfg);
      && next in w'.labs && w'.labs[next] == w.labs[next]
      && p in w'.projects && w'.projects[p].state == P.Free
      && !Exclusive(w')
  {
    FaultlessCleanup(w.CleanupEnv(op.lab), op.now, op.o);
    hide C.Run;
    CleanupChangesOneLab(w, op, cfg);
  }

  lemma AbandonedLeavesTorn(w: World, op: Op, cfg: D.Config)
    requires Orderly(w) && Exclusive(w) && AllTied(w) && Abandons(w, op)
    ensures var w1, l := Step(w, op, cfg), op.lab;
      && l in w1.labs && w1.labs[l].state == Cleaning && w1.labs[l].id == l && w1.labs[l].project.Some?
      && w1.labs[l].project.value in w1.projects && w1.projects[w1.labs[l].project.value].state == P.Free
      && Orderly(w1) && Exclusive(w1) && !AllTied(w1)
  {
    hide Exclusive, Orderly, Step, C.Run, CP.Abandoned, AllTied;
    if !IsCleanable(w.labs[op.lab].state) {
      IdleCleanup(w, op, cfg);
    }
    StepKeepsOrderly(w, op, cfg);
    XP.StepKeepsExclusiveIff(w, op, cfg);
    XP.StepKeepsTiedIff(w, op, cfg);
    AbandonedRun(w, op, cfg);
  }

  lemma AbandonedRun(w: World, op: Op, cfg: D.Config)
    requires Orderly(w) && Exclusive(w) && AllTied(w) && Abandons(w, op) && IsCleanable(w.labs[op.lab].state)
    ensures var w1, l := Step(w, op, cfg), op.lab;
      && l in w1.labs && w1.labs[l].state == Cleaning && w1.labs[l].id == l && w1.labs[l].project.Some?
      && w1.labs[l].project.value in w1.projects && w1.projects[w1.labs[l].project.value].state == P.Free
  {
    hide Step, C.Run, CP.Abandoned, C.RowsWellFormed, CP.Settled, Exclusive, AllTied, Shaped;
    assert Tenant(w.labs[op.lab].state);
    XP.TenantFacts(w, op.lab);
    CleanupChangesOneLab(w, op, cfg);
    CP.RunSettlesUnlessAbandoned(w.CleanupEnv(op.lab), op.now, op.o);
  }

  // Deliveries of the cleanup task of lab l, with a working database.
  ghost predicate Retries(ops: seq<Op>, l: LabId) {
    forall i :: 0 <= i < |ops| ==> ops[i].Cleanup? && ops[i].lab == l && Steady(ops[i].o)
  }

  // One of them finds a provider that refuses no call of the teardown.
  ghost predicate OneClears(ops: seq<Op>, res: Resources) {
    exists i :: 0 <= i < |ops| && ops[i].Cleanup? && CO.Accepted(res, 2, ops[i].o)
  }

  // Retries of a cleaning lab whose project is free, or was quarantined by a
  // run that died before finishing the lab, leave every project alone, and end
  // the lab exactly when one of them clears. Failures are not counted any more,
  // so nothing else ends it.
  lemma {:induction false} RetriesEndIff(w: World, ops: seq<Op>, l: LabId, cfg: D.Config)
    requires Orderly(w) && Exclusive(w) && Retries(ops, l) && l in w.labs && w.labs[l].state == Cleaning
    requires w.labs[l].project.Some? && w.labs[l].project.value in w.projects
    requires w.projects[w.labs[l].project.value].state !in {P.Allocated, P.Cleaning}
    ensures var v := Play(w, ops, cfg);
      && Orderly(v) && Exclusive(v)
      && l in v.labs && v.labs == w.labs[l := v.labs[l]] && v.projects == w.projects
      && v.labs[l].project == w.labs[l].project
      && if OneClears(ops, w.labs[l].resources) then v.labs[l].state == Done else v.labs == w.labs
  {
    hide Orderly, Exclusive, Step, CO.Accepted;
    if ops != [] {
      var front, op := ops[..|ops| - 1], ops[|ops| - 1];
      RetriesEndIff(w, front, l, cfg);
      LastClears(ops, w.labs[l].resources);
      hide OneClears;
      var v := Play(w, front, cfg);
      StepKeepsOrderly(v, op, cfg);
      XP.StepKeepsExclusiveIff(v, op, cfg);
      RetryEndsIff(v, op, cfg);
    }
  }

  lemma LastClears(ops: seq<Op>, res: Resources)
    requires ops != [] && ops[|ops| - 1].Cleanup?
    ensures OneClears(ops, res) <==> OneClears(ops[..|ops| - 1], res) || CO.Accepted(res, 2, ops[|ops| - 1].o)
  {
    hide CO.Accepted;
    var front := ops[..|ops| - 1];
    if i :| 0 <= i < |front| && front[i].Cleanup? && CO.Accepted(res, 2, front[i].o) {
      assert ops[i] == front[i];
    }
    if i :| 0 <= i < |ops| && ops[i].Cleanup? && CO.Accepted(res, 2, ops[i].o) {
      assert i < |front| ==> front[i] == ops[i];
    }
  }

  lemma RetryEndsIff(w: World, op: Op, cfg: D.Config)
    requires Orderly(w) && op.Cleanup? && Steady(op.o) && op.lab in w.labs && w.labs[op.lab].state in {Cleaning, Done}
    requires w.labs[op.lab].project.Some? && w.labs[op.lab].project.value in w.projects
    requires w.projects[w.labs[op.lab].project.value].state !in {P.Allocated, P.Cleaning}
    ensures var w', l := Step(w, op, cfg), op.lab;
      && l in w'.labs && w'.labs == w.labs[l := w'.labs[l]] && w'.projects == w.projects
      && w'.labs[l].project == w.labs[l].project
      && if w.labs[l].state == Done || CO.Accepted(w.labs[l].resources, 2, op.o) then w'.labs[l].state == Done
         else w'.labs == w.labs
  {
    hide Step, C.Run, C.RowsWellFormed, CO.Accepted, Shaped;
    OrderlyRows(w);
    var e := w.CleanupEnv(op.lab);
    CleanupChangesOneLab(w, op, cfg);
    if w.labs[op.lab].state == Done {
      CO.LaterRunsChangeNothing(e, op.now, op.o);
    } else {
      CO.SteadyRunTurns(e, op.now, op.o);
    }
  }

  // An abandoned cleanup retried before the project is rented again, in any
  // number of runs with a working database: it leaves every project alone, and
  // is repaired (the lab done, projects exclusive and all cleaning labs tied)
  // exactly when the provider lets one of the teardowns through. Otherwise the
  // tables stay as they are, however often it is retried.
  lemma AbandonmentIsRepairedIff(w: World, abandoned: Op, retries: seq<Op>, cfg: D.Config)
    requires Orderly(w) && Exclusive(w) && AllTied(w) && Abandons(w, abandoned)
    requires Retries(retries, abandoned.lab)
    ensures var w1, l := Step(w, abandoned, cfg), abandoned.lab;
      && l in w1.labs
      && var v, cleared := Play(w1, retries, cfg), OneClears(retries, w1.labs[l].resources);
         && l in v.labs && v.projects == w1.projects && Exclusive(v)
         && (v.labs[l].state == Done <==> cleared) && (AllTied(v) <==> cleared)
         && (!cleared ==> v.labs == w1.labs)
  {
    assert abandoned.Cleanup?;
    hide Exclusive, Orderly, Step, AllTied, Abandons, OneClears, Retries, Play;
    AbandonedLeavesTorn(w, abandoned, cfg);
    var w1, l := Step(w, abandoned, cfg), abandoned.lab;
    RetriesEndIff(w1, retries, l, cfg);
    var v := Play(w1, retries, cfg);
    if OneClears(retries, w1.labs[l].resources) {
      RepairedIsTied(w, w1, v, abandoned, cfg);
    } else {
      SameTables(w1, v);
    }
  }

  lemma SameTables(w: World, v: World)
    requires v.labs == w.labs && v.projects == w.projects
    ensures AllTied(v) <==> AllTied(w)
  {
  }

  // As long as every retry is refused the lab stays active, so that its
  // student gets no other lab in the course.
  lemma RefusedRetriesKeepSeat(w: World, abandoned: Op, retries: seq<Op>, input: S.CreateInput, cfg: D.Config)
    requires Orderly(w) && Exclusive(w) && AllTied(w) && Abandons(w, abandoned)
    requires Retries(retries, abandoned.lab)
    requires var w1 := Step(w, abandoned, cfg);
      && abandoned.lab in w1.labs && !OneClears(retries, w1.labs[abandoned.lab].resources)
      && input.student == w1.labs[abandoned.lab].student && input.course == w1.labs[abandoned.lab].course
    ensures S.CreateLab(Play(Step(w, abandoned, cfg), retries, cfg).Tables(), input).result.Err?
  {
    assert abandoned.Cleanup?;
    hide Exclusive, Orderly, Step, AllTied, Abandons, OneClears, Retries, Play, S.CreateLab;
    AbandonedLeavesTorn(w, abandoned, cfg);
    AbandonmentIsRepairedIff(w, abandoned, retries, cfg);
    var v := Play(Step(w, abandoned, cfg), retries, cfg);
    assert v.labs[abandoned.lab].state == Cleaning;
    assert S.HasActive(v.labs, input.student, input.course);
    S.CreateSucceedsIff(v.Tables(), input);
  }

  lemma OrderlyRows(w: World)
    requires Orderly(w)
    ensures C.RowsWellFormed(w.projects) && forall l :: l in w.labs ==> w.labs[l].id == l
  {
  }

  // Only the abandoned lab was not tied, and it is done.
  lemma RepairedIsTied(w: World, w1: World, v: World, op: Op, cfg: D.Config)
    requires Orderly(w) && Exclusive(w) && AllTied(w) && Abandons(w, op) && w1 == Step(w, op, cfg)
    requires op.lab in w1.labs && op.lab in v.labs && v.labs == w1.labs[op.lab := v.labs[op.lab]]
    requires v.labs[op.lab].state == Done && v.projects == w1.projects
    ensures AllTied(v)
  {
    hide Exclusive, Step, C.Run, CP.Abandoned, Shaped, C.RowsWellFormed, CP.Tied, CP.Tenancy;
    var l, e := op.lab, w.CleanupEnv(op.lab);
    if IsCleanable(w.labs[l].state) {
      assert Tenant(w.labs[l].state);
      XP.TenantFacts(w, l);
      CleanupChangesOneLab(w, op, cfg);
      CP.RunIsConsistent(e, op.now, op.o);
      var p := w.labs[l].project.value;
      forall m | m in v.labs && Tenant(v.labs[m].state) && v.labs[m].project.Some?
        && v.labs[m].project.value in v.projects
        ensures CP.Tied(v.labs[m], v.projects[v.labs[m].project.value])
      {
        XP.TenantFacts(w, m);
        OnlyOneTenant(w, l, m);
      }
    } else {
      IdleCleanup(w, op, cfg);
    }
  }

  lemma OnlyOneTenant(w: World, l: LabId, m: LabId)
    requires Exclusive(w) && l in w.labs && m in w.labs && l != m && Tenant(w.labs[l].state) && Tenant(w.labs[m].state)
    ensures w.labs[l].project != w.labs[m].project
  {
  }

  lemma PlayThree(w: World, a: Op, b: Op, c: Op, cfg: D.Config)
    ensures Play(w, [a, b, c], cfg) == Step(Step(Step(w, a, cfg), b, cfg), c, cfg)
  {
    hide Step;
    var ops := [a, b, c];
    assert ops[..2] == [a, b] && [a, b][..1] == [a] && [a][..0] == [];
    assert Play(w, [a], cfg) == Step(w, a, cfg);
    assert Play(w, [a, b], cfg) == Step(Step(w, a, cfg), b, cfg);
  }

  // The whole misfortune: a cleanup abandoned after freeing the project, the
  // project rented to a new lab, the cleanup retried. The new lab is still
  // deploying and its project is free for a third.
  lemma AbandonedCleanupDoubleRents(w: World, abandoned: Op, input: S.CreateInput, retry: Op, cfg: D.Config)
    requires Orderly(w) && Exclusive(w) && AllTied(w) && Abandons(w, abandoned)
    requires retry.Cleanup? && retry.lab == abandoned.lab && Faultless(retry.o)
    requires var w1 := Step(w, abandoned, cfg); var reply := S.CreateLab(w1.Tables(), input);
      && reply.result.Ok? && abandoned.lab in w1.labs
      && reply.result.value.project == w1.labs[abandoned.lab].project
    ensures var v := Play(w, [abandoned, Create(input), retry], cfg);
      && input.id in v.labs && v.labs[input.id].state == Deploying && v.labs[input.id].project.Some?
      && v.labs[input.id].project.value in v.projects
      && v.projects[v.labs[input.id].project.value].state == P.Free
  {
    hide Step, S.CreateLab, Shaped, Exclusive, AllTied, CP.Abandoned;
    PlayThree(w, abandoned, Create(input), retry, cfg);
    AbandonedLeavesTorn(w, abandoned, cfg);
    var w1 := Step(w, abandoned, cfg);
    CreatedLabRents(w1, input, cfg);
    var w2 := Step(w1, Create(input), cfg);
    RetryEvictsNextTenant(w2, retry, input.id, w1.labs[abandoned.lab].project.value, cfg);
  }
}

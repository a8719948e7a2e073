// Histories from an empty system in which the guarded steps do their harm:
// two labs in one project, a ready lab with nothing, a free project that is
// not empty. They show that the guards of the history theorems are needed.

module Counterexamples {
  import opened Types
  import opened CloudDomain
  import opened LabDomain
  import opened Lifecycle
  import opened OrderlyProofs
  import H = Histories
  import P = PoolDomain
  import D = DeployDomain
  import C = CleanupDomain
  import CP = CleanupProofs
  import CO = CleanupOutcomes
  import EP = EquippedProofs
  import S = LabService
  import Resume
  import Identity
  import Quota

  // One free project, nothing else.
  const EMPTY := World(
    map[], map[0 := P.Row(0, "ki-0", "domain", "project 0", P.Free, None, 0, 0, 0)], map[],
    D.Vault({}, 0), NewCloud(NOTHING))

  // Student number id asks for lab number id.
  function Ask(id: LabId): S.CreateInput {
    var idle := Quota.Capacity(0, 0);
    S.CreateInput(id, id, 0, 0, S.Reading(Quota.Snapshot(idle, idle, idle), 0), 0.0,
      Some("domain"), 0, (n: nat) => true)
  }

  const WORKS := Oracle((t: nat) => Fine, (t: nat) => Fine)

  // The worker dies at storage call n; the provider fails call n.
  function DiesAt(n: nat): Oracle {
    Oracle((t: nat) => if t == n then Death else Fine, (t: nat) => Fine)
  }

  function FailsAt(n: nat): Oracle {
    Oracle((t: nat) => Fine, (t: nat) => if t == n then Fault else Fine)
  }

  // One project, and lab number l belongs to student number l.
  ghost predicate Small(w: World) {
    && C.RowsWellFormed(w.projects) && w.projects.Keys == {0} && w.projects[0].domain == "domain"
    && forall l :: l in w.labs ==> w.labs[l].id == l && w.labs[l].student == l
  }

  // Lab l is in state s, in project 0, with no handles.
  ghost predicate Bare(w: World, l: LabId, s: State) {
    && l in w.labs && w.labs[l].state == s && w.labs[l].project == Some(0)
    && w.labs[l].resources == NO_RESOURCES && w.labs[l].checkerKey == None
  }

  lemma StartsEmpty()
    ensures Initial(EMPTY) && Small(EMPTY) && EMPTY.projects[0].state == P.Free
  {
    assert EMPTY.cloud == NewCloud(NOTHING) && NOTHING.Within(NOTHING);
    assert P.Loaded(EMPTY.projects[0]).WellFormed();
  }

  lemma AskIsAdmitted(id: LabId)
    ensures Quota.Allowed(Ask(id).quota.snapshot, S.RESOURCE_REQUEST, Ask(id).thresholdPct)
  {
  }

  // A student's request rents the project when it is free.
  lemma AskRents(w: World, id: LabId, cfg: D.Config)
    requires Small(w) && w.projects[0].state == P.Free && id !in w.labs
    ensures var w' := Step(w, Create(Ask(id)), cfg);
      && Small(w') && Bare(w', id, Deploying) && w'.projects[0].state == P.Allocated && w'.projects[0].lab == Some(id)
      && w'.labs == w.labs[id := w'.labs[id]] && w'.labs[id].course == 0
      && w'.records == w.records && w'.cloud == w.cloud
  {
    AskIsAdmitted(id);
    hide Quota.Allowed;
    assert !S.HasActive(w.labs, id, 0);
    assert S.IsFreeIn(w.projects, "domain", 0);
    S.PoolHasIffSomeFree(w.projects, "domain");
    assert P.Loaded(w.projects[0]).WellFormed();
    var p := S.Candidate(w.projects, "domain");
    assert p == 0;
  }

  // The provider fails call n of the first step and the budget is one: the
  // deploy gives up, with or without the keypair made.
  lemma DeployGivesUp(w: World, n: nat, cfg: D.Config)
    requires Small(w) && Bare(w, 0, Deploying) && 0 !in w.records && cfg.maxAttempts == 1 && n in {3, 4}
    ensures var w' := Step(w, Deploy(0, 0, FailsAt(n)), cfg);
      && Small(w') && Bare(w', 0, State.Failed) && w'.projects == w.projects && w'.labs == w.labs[0 := w'.labs[0]]
      && (n == 4 ==> (0, KeyName(0)) in w'.cloud.keypairs)
  {
    var e, o := w.DeployEnv(0), FailsAt(n);
    var begun := D.Put(e, D.CreateKeypair, D.Begun(D.Record(D.Pending, 0, None)));
    assert D.Run(e, cfg, 0, o) == D.RunFrom(e, 0, D.START, cfg, 0, 1, o) == D.Attempt(begun, 0, D.START, cfg, 0, 3, o);
    var r := D.RunStep(D.CreateKeypair, begun, D.START, cfg, 3, o);
    assert r.fate == Fault && r.t == n + 1 && (n == 4 ==> (0, KeyName(0)) in r.cloud.keypairs);
  }

  function Releasing(r: P.Row): P.Row {
    r.(state := P.Cleaning, changedAt := 0)
  }

  function Freed(r: P.Row): P.Row {
    r.(state := P.Free, lab := None, failures := 0, changedAt := 0)
  }

  // What saving the released and the freed project writes.
  lemma ReleaseWrites(projects: C.Projects)
    requires C.RowsWellFormed(projects) && 0 in projects && projects[0].state == P.Allocated
    ensures P.Loaded(projects[0]).WellFormed()
    ensures C.Store(projects, P.Loaded(projects[0]).Release(0).project) == projects[0 := Releasing(projects[0])]
  {
    assert P.Loaded(projects[0]).WellFormed();
  }

  lemma MarkCleanWrites(projects: C.Projects)
    requires 0 in projects && projects[0].state == P.Cleaning && projects[0].id == 0
    ensures C.Store(projects, P.Loaded(projects[0]).MarkClean(0).project) == projects[0 := Freed(projects[0])]
  {
  }

  lemma RowsStayWellFormed(w: World, r: P.Row)
    requires Small(w) && r == Freed(w.projects[0])
    ensures C.RowsWellFormed(w.projects[0 := r])
  {
  }

  // Tearing down a bare cleaning lab calls nothing and frees its project.
  lemma BareTeardown(e: C.Env, t: nat, o: Oracle)
    requires 0 in e.projects && e.projects[0].state == P.Cleaning && e.projects[0].id == 0
    requires e.lab.state == Cleaning && e.lab.project == Some(0) && e.lab.resources == NO_RESOURCES
      && e.lab.checkerKey == None
    requires o.store(t) == Fine
    ensures C.AfterRelease(e, 0, t, o)
         == C.Finish(e.(projects := e.projects[0 := Freed(e.projects[0])]), C.COMPLETE, 0, t + 1, o)
  {
    assert C.Teardown(e.cloud, e.lab, t, o) == C.TeardownResult(e.cloud, t, Fine);
    MarkCleanWrites(e.projects);
    hide C.Store, C.Finish;
  }

  // The project is still allocated: it is released and the lab torn down.
  lemma BareCleanup(e: C.Env, t: nat, o: Oracle)
    requires C.RowsWellFormed(e.projects) && 0 in e.projects && e.projects[0].state == P.Allocated
    requires e.lab.state == Cleaning && e.lab.project == Some(0) && e.lab.resources == NO_RESOURCES
      && e.lab.checkerKey == None
    requires o.store(t) == Fine && o.store(t + 1) == Fine && o.store(t + 2) == Fine
    ensures C.AfterTransition(e, 0, t, o)
         == C.Finish(e.(projects := e.projects[0 := Freed(e.projects[0])]), C.COMPLETE, 0, t + 3, o)
  {
    ReleaseWrites(e.projects);
    var released := e.(projects := e.projects[0 := Releasing(e.projects[0])]);
    assert e.projects[0].id == 0;
    hide C.Store, C.RowsWellFormed, C.AfterRelease, C.Finish;
    assert C.AfterTransition(e, 0, t, o) == C.AfterRelease(released, 0, t + 2, o);
    BareTeardown(released, t + 2, o);
    assert released.projects[0 := Freed(released.projects[0])] == e.projects[0 := Freed(e.projects[0])];
  }

  // Nothing is saved by a worker that dies at the save of the finished lab.
  lemma BareRunStops(e: C.Env)
    requires C.RowsWellFormed(e.projects) && 0 in e.projects && e.projects[0].state == P.Allocated && !e.rival
    requires e.lab.state == State.Failed && e.lab.project == Some(0) && e.lab.resources == NO_RESOURCES
      && e.lab.checkerKey == None
    ensures C.Run(e, 0, DiesAt(5)).env
         == e.(lab := e.lab.Transition(Cleaning, "cleanup", 0).lab.Saved(),
           projects := e.projects[0 := Freed(e.projects[0])])
  {
    var begun, o := e.(lab := e.lab.Transition(Cleaning, "cleanup", 0).lab.Saved()), DiesAt(5);
    BareCleanup(begun, 2, o);
    hide C.AfterTransition, C.RowsWellFormed;
    assert C.Run(e, 0, o) == C.AfterTransition(begun, 0, 2, o);
  }

  // The worker dies after the project was freed, before the lab is done.
  lemma CleanupIsAbandoned(w: World, cfg: D.Config)
    requires Small(w) && Bare(w, 0, State.Failed) && w.projects[0].state == P.Allocated
    ensures var w' := Step(w, Cleanup(0, 0, DiesAt(5)), cfg);
      && Small(w') && Bare(w', 0, Cleaning) && w'.projects[0].state == P.Free && w'.labs == w.labs[0 := w'.labs[0]]
  {
    RowsStayWellFormed(w, Freed(w.projects[0]));
    hide C.Run, HasRival;
    assert !w.CleanupEnv(0).rival;
    BareRunStops(w.CleanupEnv(0));
    hide C.RowsWellFormed;
  }

  // The retried cleanup frees the project whoever holds it by now.
  lemma RetryFrees(w: World, cfg: D.Config)
    requires Small(w) && Bare(w, 0, Cleaning) && w.projects[0].state == P.Allocated
    ensures var w' := Step(w, Cleanup(0, 0, WORKS), cfg);
      && Small(w') && w'.projects[0].state == P.Free && w'.labs == w.labs[0 := w'.labs[0]] && w'.cloud == w.cloud
  {
    RowsStayWellFormed(w, Freed(w.projects[0]));
    hide C.AfterTransition, HasRival;
    BareCleanup(w.CleanupEnv(0), 1, WORKS);
    hide C.RowsWellFormed;
  }

  lemma {:induction false} PlayOn(w: World, xs: seq<Op>, ys: seq<Op>, cfg: D.Config)
    ensures Play(w, xs + ys, cfg) == Play(Play(w, xs, cfg), ys, cfg)
  {
    hide Step;
    if ys == [] {
      assert xs + ys == xs;
    } else {
      PlayOn(w, xs, ys[..|ys| - 1], cfg);
      assert (xs + ys)[..|xs + ys| - 1] == xs + ys[..|ys| - 1];
    }
  }

  const TO_ABANDONED := [Create(Ask(0)), Deploy(0, 0, FailsAt(3)), Cleanup(0, 0, DiesAt(5))]

  const TO_SHARED := [Create(Ask(1)), Cleanup(0, 0, WORKS), Create(Ask(2))]

  // The cleanup of a failed deploy is stopped after freeing the project.
  lemma AbandonmentHappens(cfg: D.Config)
    requires cfg.maxAttempts == 1
    ensures var v := Play(EMPTY, TO_ABANDONED, cfg);
      Small(v) && v.labs.Keys == {0} && Bare(v, 0, Cleaning) && v.projects[0].state == P.Free
  {
    hide Step, Small;
    StartsEmpty();
    H.PlayThree(EMPTY, Create(Ask(0)), Deploy(0, 0, FailsAt(3)), Cleanup(0, 0, DiesAt(5)), cfg);
    AskRents(EMPTY, 0, cfg);
    var w1 := Step(EMPTY, Create(Ask(0)), cfg);
    DeployGivesUp(w1, 3, cfg);
    CleanupIsAbandoned(Step(w1, Deploy(0, 0, FailsAt(3)), cfg), cfg);
  }

  lemma SharingHappens(w: World, cfg: D.Config)
    requires Small(w) && w.labs.Keys == {0} && Bare(w, 0, Cleaning) && w.projects[0].state == P.Free
    ensures var v := Play(w, TO_SHARED, cfg);
      Bare(v, 1, Deploying) && Bare(v, 2, Deploying)
  {
    hide Step, Small;
    H.PlayThree(w, Create(Ask(1)), Cleanup(0, 0, WORKS), Create(Ask(2)), cfg);
    AskRents(w, 1, cfg);
    var w1 := Step(w, Create(Ask(1)), cfg);
    RetryFrees(w1, cfg);
    AskRents(Step(w1, Cleanup(0, 0, WORKS), cfg), 2, cfg);
  }

  // A failed deploy, a cleanup stopped at the wrong moment, a new lab, the
  // cleanup retried, another new lab: two labs deploy into one project.
  lemma DoubleRentHappens(cfg: D.Config)
    requires cfg.maxAttempts == 1
    ensures Initial(EMPTY)
    ensures var v := Play(EMPTY, TO_ABANDONED + TO_SHARED, cfg);
      Bare(v, 1, Deploying) && Bare(v, 2, Deploying) && !Exclusive(v)
  {
    hide Small, Play;
    StartsEmpty();
    AbandonmentHappens(cfg);
    PlayOn(EMPTY, TO_ABANDONED, TO_SHARED, cfg);
    SharingHappens(Play(EMPTY, TO_ABANDONED, cfg), cfg);
  }

  const TEACHER := Identity.Subject(9, Identity.Teacher, map[0 := Identity.CourseTeacher])

  lemma UnfreezesDeploying(w: World, cfg: D.Config)
    requires Bare(w, 0, Deploying) && w.labs[0].id == 0 && w.labs[0].course == 0 && w.labs.Keys == {0}
    ensures var v := Step(w, Unfreeze(TEACHER, 0, 0, true), cfg); Bare(v, 0, Ready) && !Served(v, cfg.topology)
  {
    S.UnfreezeSucceedsIff(w.Tables(), TEACHER, 0, 0, true);
    var v := Step(w, Unfreeze(TEACHER, 0, 0, true), cfg);
    assert Bare(v, 0, Ready);
    assert !Serves(v, 0, cfg.topology);
  }

  // An unfreeze while the lab deploys makes it ready with nothing.
  lemma ReadyWithNothingHappens(cfg: D.Config)
    ensures var v := Play(EMPTY, [Create(Ask(0)), Unfreeze(TEACHER, 0, 0, true)], cfg);
      Bare(v, 0, Ready) && !Served(v, cfg.topology)
  {
    hide Step, Served;
    StartsEmpty();
    AskRents(EMPTY, 0, cfg);
    var ops := [Create(Ask(0)), Unfreeze(TEACHER, 0, 0, true)];
    assert ops[..1] == [Create(Ask(0))] && ops[..1][..0] == [];
    assert Play(EMPTY, ops[..1], cfg) == Step(EMPTY, Create(Ask(0)), cfg);
    assert Play(EMPTY, ops, cfg) == Step(Step(EMPTY, Create(Ask(0)), cfg), ops[1], cfg);
    UnfreezesDeploying(Step(EMPTY, Create(Ask(0)), cfg), cfg);
  }

  // A failed deploy and its compensation leave a keypair in a free project.
  lemma FreeButNotEmptyHappens(cfg: D.Config)
    requires cfg.maxAttempts == 1
    ensures var v := Play(EMPTY, [Create(Ask(0)), Deploy(0, 0, FailsAt(4)), Cleanup(0, 0, WORKS)], cfg);
      v.projects.Keys == {0} && v.projects[0].state == P.Free && (0, KeyName(0)) in v.cloud.keypairs
  {
    hide Step;
    StartsEmpty();
    H.PlayThree(EMPTY, Create(Ask(0)), Deploy(0, 0, FailsAt(4)), Cleanup(0, 0, WORKS), cfg);
    AskRents(EMPTY, 0, cfg);
    var w1 := Step(EMPTY, Create(Ask(0)), cfg);
    DeployGivesUp(w1, 4, cfg);
    var w2 := Step(w1, Deploy(0, 0, FailsAt(4)), cfg);
    CleanupChangesOneLab(w2, Cleanup(0, 0, WORKS), cfg);
    CleanupChangesProjects(w2, Cleanup(0, 0, WORKS), cfg);
    H.FaultlessCleanup(w2.CleanupEnv(0), 0, WORKS);
  }

  lemma CleanupChangesProjects(w: World, op: Op, cfg: D.Config)
    requires op.Cleanup? && op.lab in w.labs && C.RowsWellFormed(w.projects)
    ensures var r := C.Run(w.CleanupEnv(op.lab), op.now, op.o).env;
      Step(w, op, cfg).projects == r.projects && Step(w, op, cfg).cloud == r.cloud
  {
    hide C.Run, C.RowsWellFormed;
  }

  // ---------------------------------------------------------------------
  // A cleanup that no retry ends.

  // A stand without machines: a network and a keypair to delete.
  const BARE_STAND := D.Topology("10.0.0.0/24", [])

  function DiesFrom(n: nat): Oracle {
    Oracle((t: nat) => if t >= n then Death else Fine, (t: nat) => Fine)
  }

  const TO_READY := [Create(Ask(0)), Deploy(0, 0, WORKS)]

  const STOPPED := Cleanup(0, 0, DiesFrom(7))

  function Refused(n: nat): seq<Op> {
    seq(n, i => Cleanup(0, 0, FailsAt(2)))
  }

  lemma PlayTwo(w: World, a: Op, b: Op, cfg: D.Config)
    ensures Play(w, [a], cfg) == Step(w, a, cfg)
    ensures Play(w, [a, b], cfg) == Step(Step(w, a, cfg), b, cfg)
  {
    hide Step;
    assert [a, b][..1] == [a] && [a][..0] == [];
  }

  lemma ReadyHappens(cfg: D.Config)
    requires cfg.topology == BARE_STAND
    ensures var v := Play(EMPTY, TO_READY, cfg);
      && v.labs.Keys == {0} && v.labs[0].state == Ready && v.labs[0].id == 0
      && v.labs[0].student == 0 == v.labs[0].course
      && v.labs[0].project == Some(0) && 0 in v.projects && v.projects[0].state == P.Allocated
  {
    hide Step, Play, Initial, Equipped;
    StartsEmpty();
    AskRents(EMPTY, 0, cfg);
    PlayTwo(EMPTY, Create(Ask(0)), Deploy(0, 0, WORKS), cfg);
    H.HistoriesStayEquipped(EMPTY, [Create(Ask(0))], cfg);
    BareStandIsDeployed(Step(EMPTY, Create(Ask(0)), cfg), cfg);
  }

  lemma BareStandIsDeployed(w: World, cfg: D.Config)
    requires cfg.topology == BARE_STAND && Equipped(w, BARE_STAND) && w.cloud.issued == 0
    requires 0 in w.labs && w.labs[0].state == Deploying
    ensures var w' := Step(w, Deploy(0, 0, WORKS), cfg);
      && 0 in w'.labs && w'.labs == w.labs[0 := w'.labs[0]] && w'.projects == w.projects
      && w'.labs[0].state == Ready && w'.labs[0].id == 0 && w'.labs[0].project == w.labs[0].project
      && SameSeat(w.labs[0], w'.labs[0])
  {
    hide Step, D.Run, Equipped, Resume.Built, Deployed;
    EP.DeployingIsResumable(w, 0, BARE_STAND);
    BareStandIsBuilt(w.cloud, w.labs[0].project.value, 0);
    Resume.FaultlessRunBuilds(w.DeployEnv(0), cfg, 0, WORKS);
    DeployChangesOneLab(w, Deploy(0, 0, WORKS), cfg);
    RunDeploys(w.DeployEnv(0), cfg, 0, WORKS);
    DeployedIsShaped(w.labs[0], Step(w, Deploy(0, 0, WORKS), cfg).labs[0]);
  }

  lemma BareStandIsBuilt(c: Cloud, p: ProjectId, l: LabId)
    ensures Resume.Built(c, p, l, BARE_STAND).Some?
  {
  }

  lemma ReadyIsAbandoned(e: C.Env)
    requires e.lab.state == Ready && e.lab.project == Some(0) && 0 in e.projects && e.projects[0].state == P.Allocated
    requires !e.rival && CO.Calls(e.lab.resources) == 2
    ensures CP.Abandoned(e, 0, DiesFrom(7))
  {
    var begun, o := e.(lab := e.lab.Transition(Cleaning, "cleanup", 0).lab.Saved()), DiesFrom(7);
    CO.TeardownSucceedsIff(begun.cloud, begun.lab, 4, o);
    hide C.Teardown, CO.Calls;
  }

  // What holds of the ready lab, as of any usable lab.
  lemma ReadyIsOwned(cfg: D.Config)
    requires cfg.topology == BARE_STAND
    ensures var v := Play(EMPTY, TO_READY, cfg);
      && Orderly(v) && Exclusive(v) && AllTied(v)
      && 0 in v.labs && CO.Calls(v.labs[0].resources) == 2
  {
    StartsEmpty();
    ReadyHappens(cfg);
    hide Step, Play, Initial, Orderly, Exclusive, AllTied;
    H.HistoriesStayOrderly(EMPTY, TO_READY, cfg);
    H.TheftTakesAbandonment(EMPTY, TO_READY, cfg);
    H.NoDoubleRent(EMPTY, TO_READY, cfg);
    H.UsableLabsAreProvisioned(EMPTY, TO_READY, cfg);
    assert Serves(Play(EMPTY, TO_READY, cfg), 0, BARE_STAND);
  }

  // The worker dies before the lab is saved as done, and from then on the
  // provider refuses the first delete of every retry: the project is free, but
  // the lab is cleaning for ever and keeps its student from another one.
  lemma StuckCleanupHappens(n: nat, input: S.CreateInput, cfg: D.Config)
    requires cfg.topology == BARE_STAND && input.student == 0 == input.course
    ensures var v := Play(EMPTY, TO_READY + [STOPPED] + Refused(n), cfg);
      && 0 in v.labs && v.labs[0].state == Cleaning && 0 in v.projects && v.projects[0].state == P.Free
      && S.CreateLab(v.Tables(), input).result.Err?
  {
    ReadyHappens(cfg);
    ReadyIsOwned(cfg);
    var w := Play(EMPTY, TO_READY, cfg);
    assert (TO_READY + [STOPPED])[..2] == TO_READY;
    assert Play(EMPTY, TO_READY + [STOPPED], cfg) == Step(w, STOPPED, cfg);
    PlayOn(EMPTY, TO_READY + [STOPPED], Refused(n), cfg);
    hide Play, Step, Orderly, Exclusive, AllTied, S.CreateLab, CP.Abandoned, CO.Calls;
    assert !w.CleanupEnv(0).rival;
    ReadyIsAbandoned(w.CleanupEnv(0));
    assert Abandons(w, STOPPED);
    H.AbandonedLeavesTorn(w, STOPPED, cfg);
    StoppedKeepsHandles(w, cfg);
    RefusedAreRefused(n, Step(w, STOPPED, cfg).labs[0].resources);
    H.AbandonmentIsRepairedIff(w, STOPPED, Refused(n), cfg);
    H.RefusedRetriesKeepSeat(w, STOPPED, Refused(n), input, cfg);
  }

  lemma StoppedKeepsHandles(w: World, cfg: D.Config)
    requires Orderly(w) && 0 in w.labs && w.labs[0].id == 0
    ensures 0 in Step(w, STOPPED, cfg).labs
    ensures var next := Step(w, STOPPED, cfg).labs[0];
      next.resources == w.labs[0].resources && next.project == w.labs[0].project && SameSeat(next, w.labs[0])
  {
    hide Step, C.Run;
    CleanupChangesOneLab(w, STOPPED, cfg);
    CP.RunMoves(w.CleanupEnv(0), 0, DiesFrom(7));
  }

  lemma RefusedAreRefused(n: nat, res: Resources)
    requires CO.Calls(res) == 2
    ensures H.Retries(Refused(n), 0) && !H.OneClears(Refused(n), res)
  {
    assert FailsAt(2).cloud(2) == Fault;
  }
}

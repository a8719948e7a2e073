// What every step of every history keeps without any condition: the rows of
// the pool are well formed, every lab carries the data of its state, and no
// student has two active labs in a course.

module OrderlyProofs {
  import opened Types
  import opened LabDomain
  import opened Lifecycle
  import P = PoolDomain
  import D = DeployDomain
  import DP = DeployProofs
  import C = CleanupDomain
  import CP = CleanupProofs
  import S = LabService
  import Identity
  import Quota

  // One lab is replaced by another version of itself.
  lemma ReplacingKeepsOrderly(w: World, w': World, next: Lab)
    requires Orderly(w) && C.RowsWellFormed(w'.projects) && w'.labs == w.labs[next.id := next]
    requires Shaped(next) && !Clashes(w.labs, next)
    ensures Orderly(w')
  {
    hide Shaped, C.RowsWellFormed, Clashes;
    StoringKeepsOneActive(w.labs, next);
  }

  // ---------------------------------------------------------------------
  // User operations on one lab.

  // next is the lab after a call that keeps its owner, project and handles and
  // does not bring it back to an earlier part of its life.
  ghost predicate Relabels(lab: Lab, next: Lab) {
    && next.id == lab.id && next.student == lab.student && next.course == lab.course && next.project == lab.project
    && Tenant(lab.state) && Tenant(next.state)
    && (CP.Holding(next.state) ==> CP.Holding(lab.state))
    && Shaped(next)
    && next.resources == lab.resources && next.checkerKey == lab.checkerKey
    && (next.state == Deploying ==> next == lab)
  }

  predicate IsUserOp(op: Op) {
    op.Stop? || op.Freeze? || op.Unfreeze? || op.Extend?
  }

  // The aggregate calls behind the user operations.
  lemma CallsRelabel(lab: Lab, now: Time, who: UserId, reason: string, at: Time)
    requires Shaped(lab)
    ensures var c := lab.Transition(Cleaning, reason, now);
      c.error.None? && lab.state in {Ready, Frozen, State.Failed} ==> Relabels(lab, c.lab.Saved())
    ensures var c := lab.Freeze(who, reason, at, now);
      c.error.None? ==> Relabels(lab, c.lab.Saved()) && lab.state == Ready
    ensures var c := lab.Unfreeze(at, now);
      c.error.None? ==> Relabels(lab, c.lab.Saved()) && lab.state in {Frozen, Deploying}
    ensures var c := lab.ExtendCleanup(at, now);
      c.error.None? ==> Relabels(lab, c.lab.Saved()) && lab.state == Ready
  {
  }

  // A user operation changes nothing or moves one tenant lab on legally.
  ghost predicate MovesOneLab(w: World, op: Op, w': World)
    requires IsUserOp(op)
  {
    || w' == w
    || (op.lab in w.labs && op.lab in w'.labs
        && w' == w.(labs := w.labs[op.lab := w'.labs[op.lab]])
        && MovesLegally(w, op, w'.labs[op.lab])
        && !Clashes(w.labs, w'.labs[op.lab]))
  }

  ghost predicate MovesLegally(w: World, op: Op, next: Lab)
    requires IsUserOp(op) && op.lab in w.labs
  {
    && Relabels(w.labs[op.lab], next)
    && next.state in {Ready, Frozen, Cleaning}
    && (w.labs[op.lab].state == State.Failed ==> next.state == Cleaning)
    && (w.labs[op.lab].state == Deploying ==> UnfreezesTooEarly(w, op))
    && (next.state in {Ready, Frozen} ==> w.labs[op.lab].state in {Ready, Frozen} || UnfreezesTooEarly(w, op))
  }

  lemma CommitMovesOneLab(w: World, op: Op, c: Change, stored: bool)
    requires IsUserOp(op) && op.lab in w.labs && c.lab.id == op.lab
    requires c.error.None? && stored ==> MovesLegally(w, op, c.lab.Saved())
    ensures MovesOneLab(w, op, w.With(S.Commit(w.Tables(), c, stored).tables))
  {
    hide MovesLegally;
    assert w.With(w.Tables()) == w;
    SavedClashes(w.labs, c.lab);
  }

  lemma SavedClashes(labs: map<LabId, Lab>, lab: Lab)
    ensures Clashes(labs, lab.Saved()) == Clashes(labs, lab)
  {
  }

  lemma StopMovesOneLab(w: World, op: Op, cfg: D.Config)
    requires op.Stop? && (op.lab in w.labs ==> w.labs[op.lab].id == op.lab && Shaped(w.labs[op.lab]))
    ensures MovesOneLab(w, op, Step(w, op, cfg))
  {
    assert w.With(w.Tables()) == w;
    if op.lab in w.labs && w.labs[op.lab].state in {Ready, Frozen, State.Failed} {
      CallsRelabel(w.labs[op.lab], op.now, 0, "stop_requested", 0);
      hide Relabels, Shaped, S.Commit, S.Permitted, MovesOneLab;
      CommitMovesOneLab(w, op, w.labs[op.lab].Transition(Cleaning, "stop_requested", op.now), op.stored);
    }
  }

  lemma FreezeMovesOneLab(w: World, op: Op, cfg: D.Config)
    requires op.Freeze? && (op.lab in w.labs ==> w.labs[op.lab].id == op.lab && Shaped(w.labs[op.lab]))
    ensures MovesOneLab(w, op, Step(w, op, cfg))
  {
    assert w.With(w.Tables()) == w;
    if op.lab in w.labs {
      var until := op.now + (if op.seconds.Some? then op.seconds.value else S.FREEZE_DURATION);
      CallsRelabel(w.labs[op.lab], op.now, op.who.user, op.reason, until);
      hide Relabels, Shaped, S.Commit, S.Permitted, MovesOneLab;
      CommitMovesOneLab(w, op, w.labs[op.lab].Freeze(op.who.user, op.reason, until, op.now), op.stored);
    }
  }

  lemma UnfreezeMovesOneLab(w: World, op: Op, cfg: D.Config)
    requires op.Unfreeze? && (op.lab in w.labs ==> w.labs[op.lab].id == op.lab && Shaped(w.labs[op.lab]))
    ensures MovesOneLab(w, op, Step(w, op, cfg))
  {
    assert w.With(w.Tables()) == w;
    if op.lab in w.labs && S.Permitted(op.who, Identity.LabUnfreeze, w.labs[op.lab]) {
      CallsRelabel(w.labs[op.lab], op.now, 0, "", op.now + S.CLEANUP_DURATION);
      hide Relabels, Shaped, S.Commit, S.Permitted, MovesOneLab;
      CommitMovesOneLab(w, op, w.labs[op.lab].Unfreeze(op.now + S.CLEANUP_DURATION, op.now), op.stored);
    }
  }

  lemma ExtendMovesOneLab(w: World, op: Op, cfg: D.Config)
    requires op.Extend? && (op.lab in w.labs ==> w.labs[op.lab].id == op.lab && Shaped(w.labs[op.lab]))
    ensures MovesOneLab(w, op, Step(w, op, cfg))
  {
    assert w.With(w.Tables()) == w;
    if op.lab in w.labs {
      CallsRelabel(w.labs[op.lab], op.now, 0, "", op.now + op.extendBy);
      hide Relabels, Shaped, S.Commit, S.Permitted, MovesOneLab;
      CommitMovesOneLab(w, op, w.labs[op.lab].ExtendCleanup(op.now + op.extendBy, op.now), op.stored);
    }
  }

  lemma UserOpMovesOneLab(w: World, op: Op, cfg: D.Config)
    requires IsUserOp(op) && Orderly(w)
    ensures MovesOneLab(w, op, Step(w, op, cfg))
  {
    hide Shaped, Step, MovesOneLab;
    match op {
      case Stop(_, _, _, _) => StopMovesOneLab(w, op, cfg);
      case Freeze(_, _, _, _, _, _) => FreezeMovesOneLab(w, op, cfg);
      case Unfreeze(_, _, _, _) => UnfreezeMovesOneLab(w, op, cfg);
      case Extend(_, _, _, _, _) => ExtendMovesOneLab(w, op, cfg);
    }
  }

  lemma UserOpKeepsOrderly(w: World, op: Op, cfg: D.Config)
    requires IsUserOp(op) && Orderly(w)
    ensures Orderly(Step(w, op, cfg))
  {
    hide Step, Shaped;
    UserOpMovesOneLab(w, op, cfg);
    var w' := Step(w, op, cfg);
    if w' != w {
      hide Clashes, UnfreezesTooEarly;
      ReplacingKeepsOrderly(w, w', w'.labs[op.lab]);
    }
  }

  // ---------------------------------------------------------------------
  // Creating a lab.

  // A rejected lab is only a record of the attempt.
  ghost predicate Rejects(w: World, w': World, lab: Lab) {
    && lab.id !in w.labs && lab.state == Rejected && Shaped(lab) && lab.checkerKey == None
    && w' == w.(labs := w.labs[lab.id := lab])
  }

  // The state after a successful create.
  ghost predicate Rents(w: World, w': World, lab: Lab, p: ProjectId) {
    && lab.id !in w.labs && lab.state == Deploying && lab.project == Some(p) && Shaped(lab) && lab.checkerKey == None
    && p in w.projects && w.projects[p].state == P.Free
    && p in w'.projects
    && w' == w.(labs := w.labs[lab.id := lab], projects := w.projects[p := w'.projects[p]])
    && w'.projects[p].state == P.Allocated && w'.projects[p].lab == Some(lab.id)
    && C.RowsWellFormed(w'.projects)
    && !HasRival(w.labs, lab)
  }

  lemma CreatedLabRents(w: World, i: S.CreateInput, cfg: D.Config)
    requires C.RowsWellFormed(w.projects) && S.CreateLab(w.Tables(), i).result.Ok?
    ensures var lab := S.CreateLab(w.Tables(), i).result.value;
      && lab.id == i.id
      && S.PoolHas(w.projects, i.domain.value) && lab.project == Some(S.Candidate(w.projects, i.domain.value))
      && Rents(w, Step(w, Create(i), cfg), lab, lab.project.value)
  {
    S.SuccessfulCreateRentsOne(w.Tables(), i);
    var w', lab := Step(w, Create(i), cfg), S.CreateLab(w.Tables(), i).result.value;
    var p := lab.project.value;
    hide S.PoolHas, Quota.Allowed;
    assert P.Loaded(w.projects[p]).WellFormed();
    assert w'.projects == w.projects[p := w'.projects[p]];
  }

  lemma PoolEmptyRejects(w: World, i: S.CreateInput, cfg: D.Config) returns (lab: Lab)
    requires S.CreateLab(w.Tables(), i).result == Err(PoolEmpty)
    ensures Rejects(w, Step(w, Create(i), cfg), lab)
  {
    hide S.PoolHas, S.HasActive, S.Candidate;
    lab := S.Opened(i).Transition(Rejected, "pool_empty", i.now).lab.Saved();
  }

  lemma RefusalChangesNothing(w: World, i: S.CreateInput, cfg: D.Config)
    requires S.CreateLab(w.Tables(), i).result.Err? && S.CreateLab(w.Tables(), i).result.error != PoolEmpty
    ensures Step(w, Create(i), cfg) == w
  {
    hide S.PoolHas, S.HasActive, S.Candidate;
    assert w.With(w.Tables()) == w;
  }

  lemma CreateKeepsOrderly(w: World, op: Op, cfg: D.Config)
    requires op.Create? && Orderly(w)
    ensures Orderly(Step(w, op, cfg))
  {
    hide Shaped, C.RowsWellFormed, S.CreateLab, Step;
    var i, r, w' := op.input, S.CreateLab(w.Tables(), op.input), Step(w, op, cfg);
    if r.result.Ok? {
      CreatedLabRents(w, i, cfg);
      ReplacingKeepsOrderly(w, w', r.result.value);
    } else if r.result.error == PoolEmpty {
      var lab := PoolEmptyRejects(w, i, cfg);
      ReplacingKeepsOrderly(w, w', lab);
    } else {
      RefusalChangesNothing(w, i, cfg);
    }
  }

  // ---------------------------------------------------------------------
  // Deploy runs.

  // A run leaves the lab as it was, failed, or ready.
  ghost predicate Deployed(a: Lab, b: Lab) {
    || b == a
    || (b.state == State.Failed && b.(state := Deploying, reason := a.reason, updatedAt := a.updatedAt) == a.Saved())
    || (b.state == Ready && DP.SameIdentity(a, b) && b.cleanupAt.Some? && b.pending == []
        && b.unfreezeAt == a.unfreezeAt && b.frozenBy == a.frozenBy)
  }

  lemma {:induction false} RunFromDeploys(e: D.Env, k: nat, st: D.DeployState, cfg: D.Config,
                                          now: Time, t: nat, o: Oracle)
    requires e.lab.project.Some? && e.lab.state == Deploying && k <= |D.STEPS|
    ensures Deployed(e.lab, D.RunFrom(e, k, st, cfg, now, t, o).env.lab)
    decreases |D.STEPS| - k
  {
    hide D.RunStep, Deployed;
    assert Deployed(e.lab, e.lab) by { StayingDeploys(e.lab); }
    if k == |D.STEPS| {
      EndDeploys(e, st, cfg, now, t, o);
    } else if o.store(t) == Fine {
      var s, rec := D.STEPS[k], D.RecordOf(e.records, D.STEPS[k]);
      if rec.status == D.Succeeded {
        RunFromDeploys(e, k + 1, D.Overlay(st, rec.result), cfg, now, t + 1, o);
      } else if o.store(t + 1) == Fine {
        AttemptDeploys(D.Put(e, s, D.Begun(rec)), k, st, cfg, now, t + 2, o);
      }
    }
  }

  lemma StayingDeploys(a: Lab)
    ensures Deployed(a, a)
  {
  }

  lemma EndDeploys(e: D.Env, st: D.DeployState, cfg: D.Config, now: Time, t: nat, o: Oracle)
    requires e.lab.project.Some? && e.lab.state == Deploying
    ensures Deployed(e.lab, D.RunFrom(e, |D.STEPS|, st, cfg, now, t, o).env.lab)
  {
  }

  lemma {:induction false} AttemptDeploys(e: D.Env, k: nat, st: D.DeployState, cfg: D.Config,
                                          now: Time, t: nat, o: Oracle)
    requires e.lab.project.Some? && e.lab.state == Deploying && k < |D.STEPS|
    ensures Deployed(e.lab, D.Attempt(e, k, st, cfg, now, t, o).env.lab)
    decreases |D.STEPS| - k, 0
  {
    hide D.RunStep, D.RunFrom;
    var s, rec := D.STEPS[k], D.RecordOf(e.records, D.STEPS[k]);
    var r := D.RunStep(s, e, st, cfg, t, o);
    if r.fate == Fine && o.store(r.t) == Fine {
      var next := D.Put(e.(cloud := r.cloud, vault := r.vault), s, rec.(status := D.Succeeded, result := Some(r.st)));
      RunFromDeploys(next, k + 1, r.st, cfg, now, r.t + 1, o);
    }
  }

  lemma RunDeploys(e: D.Env, cfg: D.Config, now: Time, o: Oracle)
    ensures Deployed(e.lab, D.Run(e, cfg, now, o).env.lab)
    ensures e.lab.state != Deploying ==> D.Run(e, cfg, now, o).env == e
  {
    hide D.RunFrom;
    if e.lab.state == Deploying && e.lab.project.Some? {
      RunFromDeploys(e, 0, D.START, cfg, now, 1, o);
    }
  }

  lemma DeployChangesOneLab(w: World, op: Op, cfg: D.Config)
    requires op.Deploy? && op.lab in w.labs
    ensures var w', l := Step(w, op, cfg), op.lab;
      && l in w'.labs && w'.labs == w.labs[l := w'.labs[l]] && w'.projects == w.projects
      && (forall m :: m != l ==> w'.RecordsOf(m) == w.RecordsOf(m))
      && (forall k :: k in w'.records ==> k == l || k in w.records)
      && w'.DeployEnv(l) == D.Run(w.DeployEnv(l), cfg, op.now, op.o).env
  {
    hide D.Run;
  }

  lemma IdleDeploy(w: World, op: Op, cfg: D.Config)
    requires op.Deploy? && (op.lab in w.labs ==> w.labs[op.lab].state != Deploying)
    ensures Step(w, op, cfg) == w
  {
  }

  lemma DeployedIsShaped(a: Lab, b: Lab)
    requires Shaped(a) && a.state == Deploying && Deployed(a, b)
    ensures Shaped(b) && b.id == a.id && SameSeat(a, b) && b.project == a.project
      && b.state in {Deploying, State.Failed, Ready}
    ensures b.state == Deploying ==> b == a
    ensures b.state == State.Failed ==> b.resources == NO_RESOURCES
  {
  }

  lemma DeployKeepsOrderly(w: World, op: Op, cfg: D.Config)
    requires op.Deploy? && Orderly(w)
    ensures Orderly(Step(w, op, cfg))
  {
    hide Shaped, C.RowsWellFormed, Step, Deployed, D.Run;
    if op.lab !in w.labs || w.labs[op.lab].state != Deploying {
      IdleDeploy(w, op, cfg);
    } else {
      var w' := Step(w, op, cfg);
      DeployChangesOneLab(w, op, cfg);
      RunDeploys(w.DeployEnv(op.lab), cfg, op.now, op.o);
      DeployedIsShaped(w.labs[op.lab], w'.labs[op.lab]);
      ActiveHasNoRival(w.labs, w'.labs[op.lab]);
      ReplacingKeepsOrderly(w, w', w'.labs[op.lab]);
    }
  }

  // ---------------------------------------------------------------------
  // Cleanup runs.

  predicate IsCleanable(s: State) {
    s == Cleaning || CanTransition(s, Cleaning)
  }

  lemma CleanupChangesOneLab(w: World, op: Op, cfg: D.Config)
    requires op.Cleanup? && op.lab in w.labs && C.RowsWellFormed(w.projects) && w.labs[op.lab].id == op.lab
    ensures var w', l, r := Step(w, op, cfg), op.lab, C.Run(w.CleanupEnv(op.lab), op.now, op.o).env;
      && w' == w.(labs := w.labs[l := r.lab], projects := r.projects, vault := r.vault, cloud := r.cloud)
      && r.rival == w.CleanupEnv(l).rival && r.lab.id == l
      && w'.CleanupEnv(l) == r
  {
    var e := w.CleanupEnv(op.lab);
    CP.RunMoves(e, op.now, op.o);
    CP.RunKeepsRival(e, op.now, op.o);
    hide C.Run, C.RowsWellFormed;
    var r := C.Run(e, op.now, op.o).env;
    RivalIgnores(w.labs, op.lab, r.lab);
  }

  lemma IdleCleanup(w: World, op: Op, cfg: D.Config)
    requires op.Cleanup? && (op.lab in w.labs ==> !IsCleanable(w.labs[op.lab].state))
    ensures Step(w, op, cfg) == w && !Abandons(w, op)
  {
  }

  lemma MovedIsShaped(a: Lab, b: Lab)
    requires Shaped(a) && CP.Moved(a, b) && (b == a || (IsCleanable(a.state) && b.state in {Cleaning, Done}))
    ensures Shaped(b) && b.id == a.id && SameSeat(a, b) && b.project == a.project && b.resources == a.resources
  {
  }

  lemma CleanupKeepsOrderly(w: World, op: Op, cfg: D.Config)
    requires op.Cleanup? && Orderly(w)
    ensures Orderly(Step(w, op, cfg))
  {
    hide Shaped, C.RowsWellFormed, C.Run, CP.Moved, Clashes;
    if op.lab in w.labs {
      var l, e := op.lab, w.CleanupEnv(op.lab);
      CleanupChangesOneLab(w, op, cfg);
      CP.RunMoves(e, op.now, op.o);
      CP.RunKeepsRows(e, op.now, op.o);
      RunStaysUncleanable(e, op.now, op.o);
      var r := C.Run(e, op.now, op.o).env;
      hide Step;
      MovedIsShaped(e.lab, r.lab);
      CleaningClashesNot(w, l, r.lab, op.now, op.o);
      ReplacingKeepsOrderly(w, Step(w, op, cfg), r.lab);
    }
  }

  lemma RunStaysUncleanable(e: C.Env, now: Time, o: Oracle)
    requires C.RowsWellFormed(e.projects)
    ensures !IsCleanable(e.lab.state) ==> C.Run(e, now, o).env == e
    ensures e.rival && e.lab.state != Cleaning ==> C.Run(e, now, o).env == e
  {
  }

  lemma CleaningClashesNot(w: World, l: LabId, next: Lab, now: Time, o: Oracle)
    requires Orderly(w) && l in w.labs && next == C.Run(w.CleanupEnv(l), now, o).env.lab
    requires next.id == l && SameSeat(w.labs[l], next)
    ensures !Clashes(w.labs, next)
  {
    hide C.Run, Shaped, C.RowsWellFormed;
    RunStaysUncleanable(w.CleanupEnv(l), now, o);
    if IsActive(w.labs[l].state) {
      ActiveHasNoRival(w.labs, next);
    } else if HasRival(w.labs, w.labs[l]) {
      assert next == w.labs[l];
    } else {
      assert HasRival(w.labs, next) == HasRival(w.labs, w.labs[l]);
    }
  }

  // ---------------------------------------------------------------------

  // Every step keeps the tables orderly, whatever fails, whoever acts.
  lemma StepKeepsOrderly(w: World, op: Op, cfg: D.Config)
    requires Orderly(w)
    ensures Orderly(Step(w, op, cfg))
  {
    hide Step, Orderly;
    if op.Create? {
      CreateKeepsOrderly(w, op, cfg);
    } else if op.Deploy? {
      DeployKeepsOrderly(w, op, cfg);
    } else if op.Cleanup? {
      CleanupKeepsOrderly(w, op, cfg);
    } else {
      UserOpKeepsOrderly(w, op, cfg);
    }
  }

  // While a student's next lab is active, nothing gets the failed one out of
  // its state: neither a stop nor a cleanup run.
  lemma FailedWaitsForRival(w: World, op: Op, cfg: D.Config)
    requires Orderly(w) && !op.Create? && op.lab in w.labs && w.labs[op.lab].state == State.Failed
    requires HasRival(w.labs, w.labs[op.lab])
    ensures Step(w, op, cfg) == w
  {
    if op.Deploy? {
      IdleDeploy(w, op, cfg);
    } else if op.Cleanup? {
      hide C.Run, Shaped, C.RowsWellFormed;
      RunStaysUncleanable(w.CleanupEnv(op.lab), op.now, op.o);
      CleanupChangesOneLab(w, op, cfg);
      hide Step;
      assert w.labs[op.lab := w.labs[op.lab]] == w.labs;
    } else {
      hide Step, Clashes, HasRival;
      UserOpMovesOneLab(w, op, cfg);
      hide C.RowsWellFormed;
      RelabelledClashes(w, op, Step(w, op, cfg));
    }
  }

  lemma RelabelledClashes(w: World, op: Op, w': World)
    requires IsUserOp(op) && MovesOneLab(w, op, w') && op.lab in w.labs
    requires w.labs[op.lab].state == State.Failed && HasRival(w.labs, w.labs[op.lab])
    ensures w' == w
  {
    if w' != w {
      assert IsActive(w'.labs[op.lab].state);
      assert HasRival(w.labs, w'.labs[op.lab]);
    }
  }
}

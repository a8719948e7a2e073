// Which stored keys stay in the vault over whole histories.

module Secrets {
  import opened Types
  import opened LabDomain
  import opened Lifecycle
  import opened OrderlyProofs
  import D = DeployDomain
  import DP = DeployProofs
  import DO = DeployOutcomes
  import C = CleanupDomain
  import CP = CleanupProofs
  import S = LabService
  import H = Histories

  // ---------------------------------------------------------------------
  // One run of the deploy saga.

  // The secret in the record of the first step.
  function KeyIn(records: D.Records): Option<SecretId> {
    var rec := D.RecordOf(records, D.CreateKeypair);
    if rec.status == D.Succeeded && rec.result.Some? then rec.result.value.secret else None
  }

  predicate Follows(records: D.Records, s: D.Step) {
    var rec := D.RecordOf(records, s);
    rec.status == D.Succeeded ==>
      && D.RecordOf(records, D.CreateKeypair).status == D.Succeeded
      && (rec.result.Some? ==> rec.result.value.secret == KeyIn(records))
  }

  // Every finished step carries the secret of the first.
  ghost predicate Threaded(records: D.Records) {
    forall s :: Follows(records, s)
  }

  // The run has done the first k steps and holds their secret.
  ghost predicate Carries(records: D.Records, k: nat, st: D.DeployState) {
    && Threaded(records)
    && (if k == 0 then st.secret == None
        else D.RecordOf(records, D.CreateKeypair).status == D.Succeeded && st.secret == KeyIn(records))
  }

  // What a run does to the key: a lab made ready gets the recorded one or
  // keeps its own.
  ghost predicate KeyMoves(a: D.Env, b: D.Env) {
    && Threaded(b.records)
    && (KeyIn(a.records).Some? ==> KeyIn(b.records) == KeyIn(a.records))
    && (b.lab.checkerKey == a.lab.checkerKey || (b.lab.state == Ready && b.lab.checkerKey == KeyIn(b.records)))
    && (b.lab.state == State.Failed ==> b.lab.checkerKey == a.lab.checkerKey)
  }

  lemma ThreadedWith(records: D.Records, k: nat, r: D.Record)
    requires k < |D.STEPS| && Threaded(records) && D.RecordOf(records, D.STEPS[k]).status != D.Succeeded
    requires r.status == D.Succeeded ==>
      && r.result.Some?
      && (k > 0 ==>
           D.RecordOf(records, D.CreateKeypair).status == D.Succeeded && r.result.value.secret == KeyIn(records))
    ensures Threaded(records[D.STEPS[k] := r])
    ensures KeyIn(records[D.STEPS[k] := r]) == if k == 0 && r.status == D.Succeeded
      then r.result.value.secret else KeyIn(records)
  {
    var after := records[D.STEPS[k] := r];
    DP.RecordWith(records, k, r, 0);
    forall s
      ensures Follows(after, s)
    {
      assert Follows(records, s);
      var j := DO.PlaceOf(s);
      DP.RecordWith(records, k, r, j);
      if k == 0 && j > 0 {
        assert D.RecordOf(after, s).status != D.Succeeded;
      }
    }
  }

  lemma EndMovesKey(e: D.Env, st: D.DeployState, cfg: D.Config, now: Time, t: nat, o: Oracle)
    requires e.lab.project.Some? && e.lab.state == Deploying && Carries(e.records, |D.STEPS|, st)
    ensures KeyMoves(e, D.RunFrom(e, |D.STEPS|, st, cfg, now, t, o).env)
  {
    hide Threaded;
  }

  lemma {:induction false} RunFromMovesKey(e: D.Env, k: nat, st: D.DeployState, cfg: D.Config,
                                           now: Time, t: nat, o: Oracle)
    requires e.lab.project.Some? && e.lab.state == Deploying && k <= |D.STEPS| && Carries(e.records, k, st)
    ensures KeyMoves(e, D.RunFrom(e, k, st, cfg, now, t, o).env)
    decreases |D.STEPS| - k
  {
    hide D.RunStep, D.RunFrom, D.Attempt, KeyMoves, D.Overlay, Threaded, KeyIn;
    if k == |D.STEPS| {
      EndMovesKey(e, st, cfg, now, t, o);
    } else {
      var s, rec := D.STEPS[k], D.RecordOf(e.records, D.STEPS[k]);
      var r := D.RunStep(s, e, st, cfg, t + 2, o);
      if o.store(t) != Fine
        || (rec.status != D.Succeeded && (o.store(t + 1) != Fine || r.fate != Fine || o.store(r.t) != Fine)) {
        StopMovesKey(e, k, st, cfg, now, t, o);
      } else if rec.status == D.Succeeded {
        DO.SkipsHere(e, k, st, cfg, now, t, o);
        SkippingCarries(e.records, k, st);
        RunFromMovesKey(e, k + 1, D.Overlay(st, rec.result), cfg, now, t + 1, o);
      } else {
        DO.PassesHere(e, k, st, cfg, now, t, o);
        DO.StepKeepsKeypairs(s, e, st, cfg, t + 2, o);
        PassingCarries(e, k, st, r.st, rec);
        var next := D.Put(e.(cloud := r.cloud, vault := r.vault), s, D.Completed(rec, r.st));
        RunFromMovesKey(next, k + 1, r.st, cfg, now, r.t + 1, o);
        MovesOnFrom(e, next, D.RunFrom(next, k + 1, r.st, cfg, now, r.t + 1, o).env);
      }
    }
  }

  lemma SkippingCarries(records: D.Records, k: nat, st: D.DeployState)
    requires k < |D.STEPS| && Carries(records, k, st) && D.RecordOf(records, D.STEPS[k]).status == D.Succeeded
    ensures Carries(records, k + 1, D.Overlay(st, D.RecordOf(records, D.STEPS[k]).result))
  {
    assert Follows(records, D.STEPS[k]);
  }

  lemma PassingCarries(e: D.Env, k: nat, st: D.DeployState, after: D.DeployState, rec: D.Record)
    requires k < |D.STEPS| && Carries(e.records, k, st) && rec == D.RecordOf(e.records, D.STEPS[k])
      && rec.status != D.Succeeded
    requires k > 0 ==> after.secret == st.secret
    ensures Carries(e.records[D.STEPS[k] := D.Completed(rec, after)], k + 1, after)
    ensures KeyIn(e.records).Some? ==> KeyIn(e.records[D.STEPS[k] := D.Completed(rec, after)]) == KeyIn(e.records)
  {
    ThreadedWith(e.records, k, D.Completed(rec, after));
    DP.RecordWith(e.records, k, D.Completed(rec, after), 0);
    hide Threaded;
  }

  lemma MovesOnFrom(e: D.Env, next: D.Env, d: D.Env)
    requires next.lab == e.lab && KeyMoves(next, d)
    requires KeyIn(e.records).Some? ==> KeyIn(next.records) == KeyIn(e.records)
    ensures KeyMoves(e, d)
  {
    hide Threaded;
  }

  lemma StopMovesKey(e: D.Env, k: nat, st: D.DeployState, cfg: D.Config, now: Time, t: nat, o: Oracle)
    requires e.lab.project.Some? && e.lab.state == Deploying && k < |D.STEPS| && Threaded(e.records)
    requires var rec, r := D.RecordOf(e.records, D.STEPS[k]), D.RunStep(D.STEPS[k], e, st, cfg, t + 2, o);
      o.store(t) != Fine
        || (rec.status != D.Succeeded && (o.store(t + 1) != Fine || r.fate != Fine || o.store(r.t) != Fine))
    ensures KeyMoves(e, D.RunFrom(e, k, st, cfg, now, t, o).env)
  {
    var s, rec := D.STEPS[k], D.RecordOf(e.records, D.STEPS[k]);
    hide D.RunStep, Threaded;
    DO.StepIgnoresRecords(s, e, D.Put(e, s, D.Begun(rec)), st, cfg, t + 2, o);
    DP.RecordWith(e.records, k, D.Begun(rec), k);
    if rec.status != D.Succeeded {
      ThreadedWith(e.records, k, D.Begun(rec));
      var failed := D.Begun(rec).(status := D.Status.Failed);
      ThreadedWith(e.records, k, failed);
      assert e.records[s := D.Begun(rec)][s := failed] == e.records[s := failed];
    }
  }

  lemma RunMovesKey(e: D.Env, cfg: D.Config, now: Time, o: Oracle)
    requires Threaded(e.records)
    ensures KeyMoves(e, D.Run(e, cfg, now, o).env)
  {
    hide D.RunFrom, Threaded;
    if e.lab.state == Deploying && e.lab.project.Some? {
      RunFromMovesKey(e, 0, D.START, cfg, now, 1, o);
    }
  }

  // ---------------------------------------------------------------------
  // The whole system.

  // The secret stored for lab l, as its first step recorded it.
  function KeyOf(w: World, l: LabId): Option<SecretId> {
    KeyIn(w.RecordsOf(l))
  }

  // Secrets are told apart: each was issued, belongs to one lab, and a lab
  // refers to no other; a lab that is deploying or failed refers to none.
  ghost predicate KeysApart(w: World) {
    && (forall l :: Threaded(w.RecordsOf(l)))
    && (forall l :: l in w.records ==> l in w.labs)
    && (forall s :: s in w.vault.live ==> s < w.vault.next)
    && (forall l :: KeyOf(w, l).Some? ==> KeyOf(w, l).value < w.vault.next)
    && (forall l, m :: l != m && KeyOf(w, l).Some? ==> KeyOf(w, l) != KeyOf(w, m))
    && (forall l :: l in w.labs && w.labs[l].checkerKey.Some? ==>
          w.labs[l].checkerKey == KeyOf(w, l) && w.labs[l].state !in {Deploying, State.Failed})
  }

  // Lab l will do nothing about its secret any more: it is done, or it has
  // given up, or is being cleaned up, without referring to it.
  ghost predicate Forgot(w: World, l: LabId)
    requires l in w.labs
  {
    || w.labs[l].state == Done
    || (w.labs[l].checkerKey.None? && w.labs[l].state in {State.Failed, Cleaning, Rejected})
  }

  // A live secret that no lab will ever delete.
  ghost predicate Leaked(w: World, s: SecretId) {
    && s in w.vault.live
    && forall l :: l in w.labs && KeyOf(w, l) == Some(s) ==> Forgot(w, l)
  }

  // What every step does to labs, records and vault, as far as secrets go.
  ghost predicate KeyStep(w: World, w': World, l: LabId) {
    && (forall m :: m != l ==> w'.RecordsOf(m) == w.RecordsOf(m))
    && (forall m :: m in w.labs && m != l ==> m in w'.labs && w'.labs[m] == w.labs[m])
    && (forall m :: m in w'.labs && m != l ==> m in w.labs)
    && (forall m :: m in w'.records ==> m in w'.labs)
    && (l in w.labs ==> l in w'.labs)
    && Threaded(w'.RecordsOf(l))
    // The key is kept, or is the next secret, which is then issued.
    && w.vault.next <= w'.vault.next
    && (KeyOf(w', l).Some? ==>
         KeyOf(w', l) == KeyOf(w, l) || (KeyOf(w, l).None? && w.vault.next == KeyOf(w', l).value < w'.vault.next))
    && (KeyOf(w, l).Some? ==> KeyOf(w', l) == KeyOf(w, l))
    // Live secrets come and go one at a time.
    && (forall s :: s in w'.vault.live ==> s in w.vault.live || w.vault.next == s < w'.vault.next)
    && (forall s :: s in w.vault.live && s !in w'.vault.live ==>
          l in w.labs && w.labs[l].checkerKey == Some(s) && w.labs[l].state != Done)
    // The lab's own reference.
    && (l in w'.labs && w'.labs[l].checkerKey.Some? ==>
          && w'.labs[l].checkerKey == KeyOf(w', l) && w'.labs[l].state !in {Deploying, State.Failed}
          && l in w.labs && (w'.labs[l].checkerKey == w.labs[l].checkerKey || w.labs[l].state == Deploying))
    && (l in w.labs && Forgot(w, l) ==> Forgot(w', l))
  }

  lemma KeyStepKeepsApart(w: World, w': World, l: LabId)
    requires KeysApart(w) && KeyStep(w, w', l)
    ensures KeysApart(w')
    ensures forall s :: Leaked(w, s) ==> Leaked(w', s)
  {
    hide Threaded, KeyIn;
    forall m
      ensures Threaded(w'.RecordsOf(m)) && (m != l ==> KeyOf(w', m) == KeyOf(w, m))
    {
      assert Threaded(w.RecordsOf(m));
    }
    forall s: SecretId | Leaked(w, s)
      ensures Leaked(w', s)
    {
      forall m | m in w'.labs && KeyOf(w', m) == Some(s)
        ensures Forgot(w', m)
      {
        assert m in w.labs && KeyOf(w, m) == Some(s) by { LeakedIsOld(w, w', l, m, s); }
      }
    }
  }

  lemma LeakedIsOld(w: World, w': World, l: LabId, m: LabId, s: SecretId)
    requires KeysApart(w) && KeyStep(w, w', l) && Leaked(w, s) && m in w'.labs && KeyOf(w', m) == Some(s)
    requires m != l ==> KeyOf(w', m) == KeyOf(w, m)
    ensures m in w.labs && KeyOf(w, m) == Some(s)
  {
    hide Threaded, KeyIn;
    if m == l {
      assert KeyOf(w, l) == Some(s);
      assert l !in w.labs ==> w.RecordsOf(l) == map[];
      if l !in w.labs {
        NoRecordsNoKey();
      }
    }
  }

  lemma NoRecordsNoKey()
    ensures KeyIn(map[]) == None
  {
  }

  lemma KeysApartFacts(w: World, l: LabId)
    requires KeysApart(w)
    ensures Threaded(w.RecordsOf(l))
    ensures l in w.labs && w.labs[l].checkerKey.Some? ==> w.labs[l].checkerKey == KeyOf(w, l)
    ensures l !in w.labs ==> w.RecordsOf(l) == map[]
  {
    hide Threaded, KeyIn;
  }

  // ---------------------------------------------------------------------
  // The steps.

  // A step that leaves records and vault alone and the lab's reference too.
  lemma QuietIsKeyStep(w: World, w': World, l: LabId, next: Lab)
    requires KeysApart(w) && w'.labs == w.labs[l := next] && w'.records == w.records && w'.vault == w.vault
    requires l in w.labs && next.checkerKey == w.labs[l].checkerKey
    requires next.state in {Deploying, State.Failed} ==> next.checkerKey.None?
    requires Forgot(w, l) ==> Forgot(w', l)
    ensures KeyStep(w, w', l)
  {
    hide Threaded, KeyIn;
    KeysApartFacts(w, l);
  }

  lemma UserOpIsKeyStep(w: World, op: Op, cfg: D.Config)
    requires IsUserOp(op) && Orderly(w) && KeysApart(w)
    ensures Step(w, op, cfg) == w || KeyStep(w, Step(w, op, cfg), op.lab)
  {
    UserOpMovesOneLab(w, op, cfg);
    hide Orderly, Step, KeysApart, KeyStep, Shaped, Clashes, UnfreezesTooEarly, CP.Holding;
    var w' := Step(w, op, cfg);
    if w' != w {
      QuietIsKeyStep(w, w', op.lab, w'.labs[op.lab]);
    }
  }

  lemma JoiningIsKeyStep(w: World, w': World, lab: Lab)
    requires KeysApart(w) && lab.id !in w.labs && lab.checkerKey.None?
    requires w'.labs == w.labs[lab.id := lab] && w'.records == w.records && w'.vault == w.vault
    ensures KeyStep(w, w', lab.id)
  {
    hide Threaded, KeyIn;
    KeysApartFacts(w, lab.id);
  }

  lemma CreateIsKeyStep(w: World, op: Op, cfg: D.Config) returns (l: LabId)
    requires op.Create? && Orderly(w) && KeysApart(w)
    ensures Step(w, op, cfg) == w || KeyStep(w, Step(w, op, cfg), l)
  {
    hide Step, KeysApart, KeyStep, Shaped, C.RowsWellFormed, S.CreateLab, HasRival, OneActive;
    var i, r, w' := op.input, S.CreateLab(w.Tables(), op.input), Step(w, op, cfg);
    l := i.id;
    if r.result.Ok? {
      CreatedLabRents(w, i, cfg);
      JoiningIsKeyStep(w, w', r.result.value);
    } else if r.result.error == PoolEmpty {
      var lab := PoolEmptyRejects(w, i, cfg);
      JoiningIsKeyStep(w, w', lab);
      l := lab.id;
    } else {
      RefusalChangesNothing(w, i, cfg);
    }
  }

  // What a deploy run does to key and vault, given that keys are told apart.
  lemma RunIssuesKey(e: D.Env, cfg: D.Config, now: Time, o: Oracle)
    requires Threaded(e.records)
    ensures var d := D.Run(e, cfg, now, o).env;
      && e.vault.next <= d.vault.next
      && (KeyIn(d.records) == KeyIn(e.records)
          || KeyIn(d.records).None?
          || (KeyIn(e.records).None? && e.vault.next == KeyIn(d.records).value < d.vault.next))
      && (forall s :: s in d.vault.live ==> s in e.vault.live || e.vault.next == s < d.vault.next)
      && e.vault.live <= d.vault.live
  {
    hide D.Run, Threaded, DP.DoneFrom, DP.RecordsSound;
    DO.RunStoresKey(e, cfg, now, o);
    RunMovesKey(e, cfg, now, o);
  }

  lemma DeployIsKeyStep(w: World, op: Op, cfg: D.Config)
    requires op.Deploy? && Orderly(w) && KeysApart(w) && op.lab in w.labs && w.labs[op.lab].state == Deploying
    ensures KeyStep(w, Step(w, op, cfg), op.lab)
  {
    hide Step, D.Run, Threaded, KeyIn, Shaped, C.RowsWellFormed, OneActive, Deployed;
    var l, w', e := op.lab, Step(w, op, cfg), w.DeployEnv(op.lab);
    KeysApartFacts(w, l);
    DeployChangesOneLab(w, op, cfg);
    RunDeploys(e, cfg, op.now, op.o);
    DeployedIsShaped(w.labs[l], w'.labs[l]);
    RunIssuesKey(e, cfg, op.now, op.o);
    RunMovesKey(e, cfg, op.now, op.o);
    AfterDeployKeepsVault(w, op, cfg);
    hide KeysApart;
    assert w.labs[l].checkerKey.None? by { DeployingRefersToNone(w, l); }
  }

  lemma DeployingRefersToNone(w: World, l: LabId)
    requires KeysApart(w) && l in w.labs && w.labs[l].state == Deploying
    ensures w.labs[l].checkerKey.None?
  {
    hide Threaded, KeyIn;
  }

  lemma AfterDeployKeepsVault(w: World, op: Op, cfg: D.Config)
    requires op.Deploy? && op.lab in w.labs
    ensures Step(w, op, cfg).vault == D.Run(w.DeployEnv(op.lab), cfg, op.now, op.o).env.vault
    ensures forall m :: m in Step(w, op, cfg).records ==> m in w.records || m == op.lab
  {
    hide D.Run;
  }

  lemma CleanupIsKeyStep(w: World, op: Op, cfg: D.Config)
    requires op.Cleanup? && Orderly(w) && KeysApart(w) && op.lab in w.labs
    ensures KeyStep(w, Step(w, op, cfg), op.lab)
  {
    hide Step, C.Run, Threaded, KeyIn, Shaped, C.RowsWellFormed, OneActive;
    var l, w', e := op.lab, Step(w, op, cfg), w.CleanupEnv(op.lab);
    OrderlyLab(w, l);
    KeysApartFacts(w, l);
    CleanupChangesOneLab(w, op, cfg);
    CP.RunMoves(e, op.now, op.o);
    CP.RunDropsOnlyKey(e, op.now, op.o);
    RunStaysUncleanable(e, op.now, op.o);
    MovedForgets(w.labs[l], w'.labs[l]);
  }

  lemma OrderlyLab(w: World, l: LabId)
    requires Orderly(w) && l in w.labs
    ensures w.labs[l].id == l && C.RowsWellFormed(w.projects)
  {
  }

  lemma MovedForgets(a: Lab, b: Lab)
    requires CP.Moved(a, b)
    ensures b.state in {a.state, Cleaning, Done} && b.checkerKey == a.checkerKey
  {
  }

  lemma StepKeepsKeysApart(w: World, op: Op, cfg: D.Config)
    requires Orderly(w) && KeysApart(w)
    ensures KeysApart(Step(w, op, cfg))
    ensures forall s :: Leaked(w, s) ==> Leaked(Step(w, op, cfg), s)
  {
    hide Step, Orderly, KeysApart, KeyStep, Leaked;
    var w' := Step(w, op, cfg);
    var l := 0;
    if op.Create? {
      l := CreateIsKeyStep(w, op, cfg);
    } else if IsUserOp(op) {
      UserOpIsKeyStep(w, op, cfg);
      l := op.lab;
    } else {
      l := op.lab;
      if op.Deploy? {
        if l in w.labs && w.labs[l].state == Deploying {
          DeployIsKeyStep(w, op, cfg);
        } else {
          IdleDeploy(w, op, cfg);
        }
      } else if l in w.labs {
        CleanupIsKeyStep(w, op, cfg);
      } else {
        IdleCleanup(w, op, cfg);
      }
    }
    if w' != w {
      KeyStepKeepsApart(w, w', l);
    }
  }

  // ---------------------------------------------------------------------
  // Histories.

  lemma {:induction false} HistoriesKeepKeysApart(w: World, ops: seq<Op>, cfg: D.Config)
    requires Initial(w)
    ensures KeysApart(Play(w, ops, cfg))
  {
    hide Initial, KeysApart, Step, Leaked;
    if ops == [] {
      InitialKeysApart(w);
    } else {
      HistoriesKeepKeysApart(w, ops[..|ops| - 1], cfg);
      H.HistoriesStayOrderly(w, ops[..|ops| - 1], cfg);
      StepKeepsKeysApart(Play(w, ops[..|ops| - 1], cfg), ops[|ops| - 1], cfg);
    }
  }

  lemma InitialKeysApart(w: World)
    requires Initial(w)
    ensures KeysApart(w)
  {
    assert forall l :: w.RecordsOf(l) == map[];
  }

  // A leaked secret is never deleted, whatever happens next.
  lemma {:induction false} LeakedStays(w: World, ops: seq<Op>, more: seq<Op>, cfg: D.Config, s: SecretId)
    requires Initial(w) && Leaked(Play(w, ops, cfg), s)
    ensures Leaked(Play(w, ops + more, cfg), s)
  {
    hide Initial, KeysApart, Step, Leaked;
    if more == [] {
      assert ops + more == ops;
    } else {
      var front := more[..|more| - 1];
      LeakedStays(w, ops, front, cfg, s);
      assert (ops + more)[..|ops + more| - 1] == ops + front;
      var v := Play(w, ops + front, cfg);
      HistoriesKeepKeysApart(w, ops + front, cfg);
      H.HistoriesStayOrderly(w, ops + front, cfg);
      StepKeepsKeysApart(v, more[|more| - 1], cfg);
    }
  }

  // The key of a failed deploy is never deleted: compensation does not know
  // it, and nothing later learns of it.
  lemma FailedLabsKeyStays(w: World, ops: seq<Op>, more: seq<Op>, cfg: D.Config, l: LabId)
    requires Initial(w)
    requires var v := Play(w, ops, cfg);
      l in v.labs && v.labs[l].state == State.Failed && KeyOf(v, l).Some? && KeyOf(v, l).value in v.vault.live
    ensures KeyOf(Play(w, ops, cfg), l).value in Play(w, ops + more, cfg).vault.live
  {
    hide Initial, Step, Play;
    var v, s := Play(w, ops, cfg), KeyOf(Play(w, ops, cfg), l).value;
    HistoriesKeepKeysApart(w, ops, cfg);
    FailedIsLeaked(v, l);
    LeakedStays(w, ops, more, cfg, s);
    hide KeysApart;
  }

  lemma FailedIsLeaked(w: World, l: LabId)
    requires KeysApart(w) && l in w.labs && w.labs[l].state == State.Failed
    requires KeyOf(w, l).Some? && KeyOf(w, l).value in w.vault.live
    ensures Leaked(w, KeyOf(w, l).value)
  {
    hide Threaded, KeyIn;
  }

  // Nor is the key of a lab that is done: if the run that ended it did not
  // delete the key (see CleanupOutcomes.RunDeletesKeyIff), nothing will.
  lemma EndedLabsKeyStays(w: World, ops: seq<Op>, more: seq<Op>, cfg: D.Config, l: LabId)
    requires Initial(w)
    requires var v := Play(w, ops, cfg);
      l in v.labs && v.labs[l].state == Done && KeyOf(v, l).Some? && KeyOf(v, l).value in v.vault.live
    ensures KeyOf(Play(w, ops, cfg), l).value in Play(w, ops + more, cfg).vault.live
  {
    hide Initial, Step, Play;
    var v, s := Play(w, ops, cfg), KeyOf(Play(w, ops, cfg), l).value;
    HistoriesKeepKeysApart(w, ops, cfg);
    EndedIsLeaked(v, l);
    LeakedStays(w, ops, more, cfg, s);
    hide KeysApart;
  }

  lemma EndedIsLeaked(w: World, l: LabId)
    requires KeysApart(w) && l in w.labs && w.labs[l].state == Done
    requires KeyOf(w, l).Some? && KeyOf(w, l).value in w.vault.live
    ensures Leaked(w, KeyOf(w, l).value)
  {
    hide Threaded, KeyIn;
  }

  // Nor is a secret that no step recorded, as a crash leaves it.
  lemma OrphanStays(w: World, ops: seq<Op>, more: seq<Op>, cfg: D.Config, s: SecretId)
    requires Initial(w)
    requires var v := Play(w, ops, cfg); s in v.vault.live && forall l :: KeyOf(v, l) != Some(s)
    ensures s in Play(w, ops + more, cfg).vault.live
  {
    hide Initial, Step, Play, KeyOf;
    LeakedStays(w, ops, more, cfg, s);
  }
}

// What a run of the deploy saga leaves behind, told before the run from what
// it finds and which calls fail: whether it gives up, whether that leaves the
// project empty, and whether a stored key is left without an owner.

module DeployOutcomes {
  import opened Types
  import opened CloudDomain
  import opened LabDomain
  import opened DeployDomain
  import opened DeployProofs
  import CP = CleanupProofs

  // ---------------------------------------------------------------------
  // Giving up.

  lemma GivesUpGoesOn(e: Env, k: nat, st: DeployState, cfg: Config, t: nat, o: Oracle)
    requires e.lab.project.Some? && k < |STEPS| && RecordOf(e.records, STEPS[k]).status != Succeeded
    requires o.store(t) == Fine && o.store(t + 1) == Fine
    requires RunStep(STEPS[k], e, st, cfg, t + 2, o).fate == Fine
    ensures var rec, r := RecordOf(e.records, STEPS[k]), RunStep(STEPS[k], e, st, cfg, t + 2, o);
      GivesUpFrom(e, k, st, cfg, t, o)
      <==> o.store(r.t) == Fine
           && GivesUpFrom(Put(e.(cloud := r.cloud, vault := r.vault), STEPS[k], Completed(rec, r.st)), k + 1,
                r.st, cfg, r.t + 1, o)
  {
    hide RunStep;
  }

  lemma {:induction false} RunFromFailsIff(e: Env, k: nat, st: DeployState, cfg: Config, now: Time, t: nat, o: Oracle)
    requires e.lab.project.Some? && e.lab.state == Deploying && k <= |STEPS|
    ensures RunFrom(e, k, st, cfg, now, t, o).env.lab.state == LabDomain.Failed <==> GivesUpFrom(e, k, st, cfg, t, o)
    decreases |STEPS| - k
  {
    hide RunStep, GivesUpFrom, RunFrom, Attempt;
    if k == |STEPS| {
      EndNeverFails(e, st, cfg, now, t, o);
    } else {
      var s, rec := STEPS[k], RecordOf(e.records, STEPS[k]);
      var r := RunStep(s, e, st, cfg, t + 2, o);
      if o.store(t) != Fine
        || (rec.status != Succeeded && (o.store(t + 1) != Fine || r.fate != Fine || o.store(r.t) != Fine)) {
        StopsHere(e, k, st, cfg, now, t, o);
      } else if rec.status == Succeeded {
        SkipsHere(e, k, st, cfg, now, t, o);
        RunFromFailsIff(e, k + 1, Overlay(st, rec.result), cfg, now, t + 1, o);
      } else {
        PassesHere(e, k, st, cfg, now, t, o);
        GivesUpGoesOn(e, k, st, cfg, t, o);
        var next := Put(e.(cloud := r.cloud, vault := r.vault), s, Completed(rec, r.st));
        RunFromFailsIff(next, k + 1, r.st, cfg, now, r.t + 1, o);
      }
    }
  }

  lemma EndNeverFails(e: Env, st: DeployState, cfg: Config, now: Time, t: nat, o: Oracle)
    requires e.lab.project.Some? && e.lab.state == Deploying
    ensures RunFrom(e, |STEPS|, st, cfg, now, t, o).env.lab.state != LabDomain.Failed
    ensures !GivesUpFrom(e, |STEPS|, st, cfg, t, o)
  {
  }

  // The run ends at step k, by a failing call or a failing step.
  lemma StopsHere(e: Env, k: nat, st: DeployState, cfg: Config, now: Time, t: nat, o: Oracle)
    requires e.lab.project.Some? && e.lab.state == Deploying && k < |STEPS|
    requires var rec, r := RecordOf(e.records, STEPS[k]), RunStep(STEPS[k], e, st, cfg, t + 2, o);
      o.store(t) != Fine
        || (rec.status != Succeeded && (o.store(t + 1) != Fine || r.fate != Fine || o.store(r.t) != Fine))
    ensures RunFrom(e, k, st, cfg, now, t, o).env.lab.state == LabDomain.Failed <==> GivesUpFrom(e, k, st, cfg, t, o)
  {
    hide RunStep;
    var s, rec := STEPS[k], RecordOf(e.records, STEPS[k]);
    StepIgnoresRecords(s, e, Put(e, s, Begun(rec)), st, cfg, t + 2, o);
    RecordWith(e.records, k, Begun(rec), k);
  }

  lemma StepIgnoresRecords(s: Step, e: Env, f: Env, st: DeployState, cfg: Config, t: nat, o: Oracle)
    requires e.lab.project.Some? && f == e.(records := f.records)
    ensures RunStep(s, f, st, cfg, t, o) == RunStep(s, e, st, cfg, t, o)
  {
  }

  lemma SkipsHere(e: Env, k: nat, st: DeployState, cfg: Config, now: Time, t: nat, o: Oracle)
    requires e.lab.project.Some? && k < |STEPS| && o.store(t) == Fine
    requires RecordOf(e.records, STEPS[k]).status == Succeeded
    ensures var next := Overlay(st, RecordOf(e.records, STEPS[k]).result);
      && RunFrom(e, k, st, cfg, now, t, o) == RunFrom(e, k + 1, next, cfg, now, t + 1, o)
      && GivesUpFrom(e, k, st, cfg, t, o) == GivesUpFrom(e, k + 1, next, cfg, t + 1, o)
  {
    hide Attempt, RunStep, Overlay;
  }

  lemma PassesHere(e: Env, k: nat, st: DeployState, cfg: Config, now: Time, t: nat, o: Oracle)
    requires e.lab.project.Some? && k < |STEPS| && RecordOf(e.records, STEPS[k]).status != Succeeded
    requires var r := RunStep(STEPS[k], e, st, cfg, t + 2, o);
      o.store(t) == Fine && o.store(t + 1) == Fine && r.fate == Fine && o.store(r.t) == Fine
    ensures var rec, r := RecordOf(e.records, STEPS[k]), RunStep(STEPS[k], e, st, cfg, t + 2, o);
      RunFrom(e, k, st, cfg, now, t, o)
      == RunFrom(Put(e.(cloud := r.cloud, vault := r.vault), STEPS[k], Completed(rec, r.st)), k + 1, r.st,
        cfg, now, r.t + 1, o)
  {
    hide RunStep, RunFrom, RecordOf;
    var rec := RecordOf(e.records, STEPS[k]);
    StepIgnoresRecords(STEPS[k], e, Put(e, STEPS[k], Begun(rec)), st, cfg, t + 2, o);
    GoesOn(e, k, st, cfg, now, t, o);
  }

  // A run makes its lab failed exactly when it was to give up.
  lemma RunFailsIff(e: Env, cfg: Config, now: Time, o: Oracle)
    requires e.lab.state == Deploying
    ensures Run(e, cfg, now, o).env.lab.state == LabDomain.Failed <==> GivesUp(e, cfg, o)
  {
    hide RunFrom, GivesUpFrom;
    if e.lab.project.Some? {
      RunFromFailsIff(e, 0, START, cfg, now, 1, o);
    }
  }

  // ---------------------------------------------------------------------
  // What the lab is then, and what the run answers.

  // Every finished step has its result.
  ghost predicate AllResults(records: Records) {
    forall k :: 0 <= k < |STEPS| && RecordOf(records, STEPS[k]).status == Succeeded ==>
      RecordOf(records, STEPS[k]).result.Some?
  }

  // st is what step k - 1 recorded, up to the text of the check.
  ghost predicate HoldsRecorded(records: Records, k: nat, st: DeployState)
    requires k <= |STEPS|
  {
    st.(check := "") == StateAfter(records, k).(check := "")
  }

  function FailedLab(lab: Lab, now: Time): Lab {
    lab.(state := LabDomain.Failed, reason := "deploy failed", updatedAt := now, pending := [])
  }

  // The lab once it is ready: it names what the last step recorded, the stored
  // key serves checker and student alike, and its life ends as configured, or
  // two hours from now.
  function ReadyLab(lab: Lab, st: DeployState, cfg: Config, now: Time): Lab {
    lab.(state := Ready, reason := "deploy_succeeded",
         resources := Resources(st.servers, st.network, st.ips, st.keypair),
         checkerKey := if st.secret.Some? then st.secret else lab.checkerKey,
         studentKey := if st.secret.Some? then st.secret else lab.studentKey,
         cleanupAt := Some(now + if cfg.cleanupAfter > 0 then cfg.cleanupAfter else 7200),
         updatedAt := now, pending := [])
  }

  // known tells whether the records held results to begin with.
  ghost predicate Decided(lab: Lab, r: Outcome, known: bool, cfg: Config, now: Time) {
    && (r.env.lab == lab || r.env.lab == FailedLab(lab, now)
        || (r.env.lab.state == Ready
            && (known ==> r.env.lab == ReadyLab(lab, StateAfter(r.env.records, |STEPS|), cfg, now))))
    && (r.verdict == Ended <==> r.env.lab.state != Deploying)
  }

  lemma EndDecides(e: Env, st: DeployState, known: bool, cfg: Config, now: Time, t: nat, o: Oracle)
    requires e.lab.project.Some? && e.lab.state == Deploying && (known ==> HoldsRecorded(e.records, |STEPS|, st))
    ensures Decided(e.lab, RunFrom(e, |STEPS|, st, cfg, now, t, o), known, cfg, now)
  {
  }

  lemma StopDecides(e: Env, k: nat, st: DeployState, known: bool, cfg: Config, now: Time, t: nat, o: Oracle)
    requires e.lab.project.Some? && e.lab.state == Deploying && k < |STEPS|
    requires var rec, r := RecordOf(e.records, STEPS[k]), RunStep(STEPS[k], e, st, cfg, t + 2, o);
      o.store(t) != Fine
        || (rec.status != Succeeded && (o.store(t + 1) != Fine || r.fate != Fine || o.store(r.t) != Fine))
    ensures Decided(e.lab, RunFrom(e, k, st, cfg, now, t, o), known, cfg, now)
  {
    hide RunStep, StateAfter, ReadyLab;
    var s, rec := STEPS[k], RecordOf(e.records, STEPS[k]);
    StepIgnoresRecords(s, e, Put(e, s, Begun(rec)), st, cfg, t + 2, o);
  }

  lemma {:induction false} RunFromDecides(e: Env, k: nat, st: DeployState, known: bool, cfg: Config,
                                          now: Time, t: nat, o: Oracle)
    requires e.lab.project.Some? && e.lab.state == Deploying && k <= |STEPS|
    requires known ==> AllResults(e.records) && HoldsRecorded(e.records, k, st)
    ensures Decided(e.lab, RunFrom(e, k, st, cfg, now, t, o), known, cfg, now)
    decreases |STEPS| - k
  {
    hide RunStep, RunFrom, Attempt, Decided, Overlay, AllResults, HoldsRecorded;
    if k == |STEPS| {
      EndDecides(e, st, known, cfg, now, t, o);
    } else {
      var s, rec := STEPS[k], RecordOf(e.records, STEPS[k]);
      var r := RunStep(s, e, st, cfg, t + 2, o);
      if o.store(t) != Fine
        || (rec.status != Succeeded && (o.store(t + 1) != Fine || r.fate != Fine || o.store(r.t) != Fine)) {
        StopDecides(e, k, st, known, cfg, now, t, o);
      } else if rec.status == Succeeded {
        SkipsHere(e, k, st, cfg, now, t, o);
        if known {
          SkippingHolds(e.records, k, st);
        }
        RunFromDecides(e, k + 1, Overlay(st, rec.result), known, cfg, now, t + 1, o);
      } else {
        PassesHere(e, k, st, cfg, now, t, o);
        if known {
          PassingHolds(e.records, k, Completed(rec, r.st));
        }
        var next := Put(e.(cloud := r.cloud, vault := r.vault), s, Completed(rec, r.st));
        RunFromDecides(next, k + 1, r.st, known, cfg, now, r.t + 1, o);
      }
    }
  }

  lemma SkippingHolds(records: Records, k: nat, st: DeployState)
    requires k < |STEPS| && AllResults(records) && RecordOf(records, STEPS[k]).status == Succeeded
    ensures HoldsRecorded(records, k + 1, Overlay(st, RecordOf(records, STEPS[k]).result))
  {
  }

  lemma PassingHolds(records: Records, k: nat, rec: Record)
    requires k < |STEPS| && AllResults(records) && rec.result.Some?
    ensures AllResults(records[STEPS[k] := rec]) && HoldsRecorded(records[STEPS[k] := rec], k + 1, rec.result.value)
  {
    forall j: nat | j < |STEPS|
      ensures RecordOf(records[STEPS[k] := rec], STEPS[j]) == if j == k then rec else RecordOf(records, STEPS[j])
    {
      RecordWith(records, k, rec, j);
    }
  }

  // Whatever fails, a run leaves the lab as it was, failed, or ready with just
  // what the last step recorded, and tells the queue to stop exactly when it
  // has loaded a lab that is not deploying any more, or leaves it so.
  lemma RunDecides(e: Env, cfg: Config, now: Time, o: Oracle)
    ensures var r := Run(e, cfg, now, o);
      && (r.env.lab == e.lab || r.env.lab == FailedLab(e.lab, now) || r.env.lab.state == Ready)
      && (RecordsSound(e.records) && r.env.lab != e.lab && r.env.lab.state == Ready ==>
            r.env.lab == ReadyLab(e.lab, StateAfter(r.env.records, |STEPS|), cfg, now))
      && (r.verdict == Ended <==> o.store(0) == Fine && r.env.lab.state != Deploying)
  {
    hide RunFrom, ReadyLab;
    if e.lab.state == Deploying && e.lab.project.Some? {
      RunFromDecides(e, 0, START, RecordsSound(e.records), cfg, now, 1, o);
    }
  }

  // ---------------------------------------------------------------------
  // The same, by naming the step that fails.

  // Where a run is before step k, if all steps from the first unfinished one
  // up to it have passed.
  datatype Point = Point(cloud: Cloud, vault: Vault, st: DeployState, t: nat)

  ghost function PointAt(e: Env, cfg: Config, o: Oracle, k: nat): Point
    requires e.lab.project.Some? && DoneFrom(e.records, 0) <= k <= |STEPS|
    decreases k, 0
  {
    var n := DoneFrom(e.records, 0);
    if k == n then Point(e.cloud, e.vault, StateAfter(e.records, n), 1 + n)
    else var r := StepAt(e, cfg, o, k - 1); Point(r.cloud, r.vault, r.st, r.t + 1)
  }

  ghost function StepAt(e: Env, cfg: Config, o: Oracle, k: nat): StepResult
    requires e.lab.project.Some? && DoneFrom(e.records, 0) <= k < |STEPS|
    decreases k, 1
  {
    var q := PointAt(e, cfg, o, k);
    RunStep(STEPS[k], e.(cloud := q.cloud, vault := q.vault), q.st, cfg, q.t + 2, o)
  }

  // The step is recorded as begun.
  ghost predicate BeginsAt(e: Env, cfg: Config, o: Oracle, k: nat)
    requires e.lab.project.Some? && DoneFrom(e.records, 0) <= k < |STEPS|
  {
    var t := PointAt(e, cfg, o, k).t; o.store(t) == Fine && o.store(t + 1) == Fine
  }

  ghost predicate PassesAt(e: Env, cfg: Config, o: Oracle, k: nat)
    requires e.lab.project.Some? && DoneFrom(e.records, 0) <= k < |STEPS|
  {
    var r := StepAt(e, cfg, o, k);
    BeginsAt(e, cfg, o, k) && r.fate == Fine && o.store(r.t) == Fine
  }

  // The step fails on its last attempt, and the lab is saved as failed.
  ghost predicate LastFailsAt(e: Env, cfg: Config, o: Oracle, k: nat)
    requires e.lab.project.Some? && DoneFrom(e.records, 0) <= k < |STEPS|
  {
    var r := StepAt(e, cfg, o, k);
    && BeginsAt(e, cfg, o, k) && r.fate == Fault
    && RecordOf(e.records, STEPS[k]).attempt + 1 >= cfg.Budget()
    && o.store(r.t) != Death && o.store(r.t + 1) == Fine
  }

  // Step k is the first to fail, on its last attempt.
  ghost predicate FailsFirstAt(e: Env, cfg: Config, o: Oracle, from: nat, k: nat)
    requires e.lab.project.Some? && DoneFrom(e.records, 0) <= from <= k < |STEPS|
  {
    (forall j: nat :: from <= j < k ==> PassesAt(e, cfg, o, j)) && LastFailsAt(e, cfg, o, k)
  }

  ghost predicate SomeFailsFirst(e: Env, cfg: Config, o: Oracle, from: nat)
    requires e.lab.project.Some? && DoneFrom(e.records, 0) <= from <= |STEPS|
  {
    exists k: nat :: from <= k < |STEPS| && FailsFirstAt(e, cfg, o, from, k)
  }

  // d is e with the records of the steps before k rewritten and the cloud and
  // the vault as they are there.
  ghost predicate StandsAt(e: Env, d: Env, cfg: Config, o: Oracle, k: nat)
    requires e.lab.project.Some? && DoneFrom(e.records, 0) <= k <= |STEPS|
  {
    var q := PointAt(e, cfg, o, k);
    && d == e.(cloud := q.cloud, vault := q.vault, records := d.records)
    && forall j: nat :: k <= j < |STEPS| ==> RecordOf(d.records, STEPS[j]) == RecordOf(e.records, STEPS[j])
  }

  lemma StandsFurther(e: Env, d: Env, cfg: Config, o: Oracle, k: nat)
    requires e.lab.project.Some? && DoneFrom(e.records, 0) <= k < |STEPS| && StandsAt(e, d, cfg, o, k)
    ensures var q := PointAt(e, cfg, o, k); RunStep(STEPS[k], d, q.st, cfg, q.t + 2, o) == StepAt(e, cfg, o, k)
    ensures var r := StepAt(e, cfg, o, k);
      StandsAt(e, Put(d.(cloud := r.cloud, vault := r.vault), STEPS[k],
        Completed(RecordOf(d.records, STEPS[k]), r.st)), cfg, o, k + 1)
  {
    hide RunStep;
    var q, r := PointAt(e, cfg, o, k), StepAt(e, cfg, o, k);
    StepIgnoresRecords(STEPS[k], e.(cloud := q.cloud, vault := q.vault), d, q.st, cfg, q.t + 2, o);
    forall j: nat | k + 1 <= j < |STEPS|
      ensures RecordOf(d.records[STEPS[k] := Completed(RecordOf(d.records, STEPS[k]), r.st)], STEPS[j])
        == RecordOf(e.records, STEPS[j])
    {
      RecordWith(d.records, k, Completed(RecordOf(d.records, STEPS[k]), r.st), j);
    }
  }

  // The env after step k, if it passes.
  ghost function Past(e: Env, d: Env, cfg: Config, o: Oracle, k: nat): Env
    requires e.lab.project.Some? && DoneFrom(e.records, 0) <= k < |STEPS|
  {
    var r := StepAt(e, cfg, o, k);
    Put(d.(cloud := r.cloud, vault := r.vault), STEPS[k], Completed(RecordOf(d.records, STEPS[k]), r.st))
  }

  lemma GivesUpHereOrPast(e: Env, d: Env, cfg: Config, o: Oracle, k: nat)
    requires e.lab.project.Some? && RecordsSound(e.records) && DoneFrom(e.records, 0) <= k < |STEPS|
    requires StandsAt(e, d, cfg, o, k)
    ensures StandsAt(e, Past(e, d, cfg, o, k), cfg, o, k + 1)
    ensures var q, next := PointAt(e, cfg, o, k), PointAt(e, cfg, o, k + 1);
      && d.lab.project.Some?
      && (GivesUpFrom(d, k, q.st, cfg, q.t, o) <==>
            || LastFailsAt(e, cfg, o, k)
            || (PassesAt(e, cfg, o, k) && GivesUpFrom(Past(e, d, cfg, o, k), k + 1, next.st, cfg, next.t, o)))
  {
    hide RunStep, PointAt, StepAt, RecordsSound, StandsAt, GivesUpFrom, DoneFrom, RecordOf, Put;
    hide Completed, Config.Budget;
    StandsUnfinished(e, d, cfg, o, k);
    StandsFurther(e, d, cfg, o, k);
    PointFollows(e, cfg, o, k);
    var q := PointAt(e, cfg, o, k);
    GivesUpHere(d, k, q.st, cfg, q.t, o);
  }

  lemma {:induction false} GivesUpFromIff(e: Env, d: Env, cfg: Config, o: Oracle, k: nat)
    requires e.lab.project.Some? && RecordsSound(e.records) && DoneFrom(e.records, 0) <= k <= |STEPS|
    requires StandsAt(e, d, cfg, o, k)
    ensures var q := PointAt(e, cfg, o, k);
      d.lab.project.Some? && (GivesUpFrom(d, k, q.st, cfg, q.t, o) <==> SomeFailsFirst(e, cfg, o, k))
    decreases |STEPS| - k
  {
    assert d.lab == e.lab;
    hide RunStep, PointAt, StepAt, RecordsSound, StandsAt, GivesUpFrom, SomeFailsFirst, LastFailsAt, PassesAt, Past;
    if k < |STEPS| {
      GivesUpHereOrPast(e, d, cfg, o, k);
      GivesUpFromIff(e, Past(e, d, cfg, o, k), cfg, o, k + 1);
      FirstOrLater(e, cfg, o, k);
    } else {
      NothingFails(e, d, cfg, o);
    }
  }

  lemma NothingFails(e: Env, d: Env, cfg: Config, o: Oracle)
    requires e.lab.project.Some? && d.lab.project.Some?
    ensures !SomeFailsFirst(e, cfg, o, |STEPS|)
    ensures var q := PointAt(e, cfg, o, |STEPS|); !GivesUpFrom(d, |STEPS|, q.st, cfg, q.t, o)
  {
    hide PointAt;
  }

  lemma GivesUpHere(d: Env, k: nat, st: DeployState, cfg: Config, t: nat, o: Oracle)
    requires d.lab.project.Some? && k < |STEPS| && RecordOf(d.records, STEPS[k]).status != Succeeded
    ensures var rec, r := RecordOf(d.records, STEPS[k]), RunStep(STEPS[k], d, st, cfg, t + 2, o);
      GivesUpFrom(d, k, st, cfg, t, o) <==>
      && o.store(t) == Fine && o.store(t + 1) == Fine
      && match r.fate
         case Death => false
         case Fault => rec.attempt + 1 >= cfg.Budget() && o.store(r.t) != Death && o.store(r.t + 1) == Fine
         case Fine =>
           o.store(r.t) == Fine
           && GivesUpFrom(Put(d.(cloud := r.cloud, vault := r.vault), STEPS[k], Completed(rec, r.st)), k + 1,
                r.st, cfg, r.t + 1, o)
  {
    hide RunStep;
  }

  lemma StandsUnfinished(e: Env, d: Env, cfg: Config, o: Oracle, k: nat)
    requires e.lab.project.Some? && RecordsSound(e.records) && DoneFrom(e.records, 0) <= k < |STEPS|
    requires StandsAt(e, d, cfg, o, k)
    ensures RecordOf(d.records, STEPS[k]).status != Succeeded
      && RecordOf(d.records, STEPS[k]) == RecordOf(e.records, STEPS[k])
    ensures d.lab == e.lab
  {
    hide RunStep, PointAt;
  }

  lemma PointFollows(e: Env, cfg: Config, o: Oracle, k: nat)
    requires e.lab.project.Some? && DoneFrom(e.records, 0) <= k < |STEPS|
    ensures var r := StepAt(e, cfg, o, k); PointAt(e, cfg, o, k + 1) == Point(r.cloud, r.vault, r.st, r.t + 1)
  {
    hide RunStep;
  }

  lemma FirstOrLater(e: Env, cfg: Config, o: Oracle, k: nat)
    requires e.lab.project.Some? && DoneFrom(e.records, 0) <= k < |STEPS|
    ensures SomeFailsFirst(e, cfg, o, k) <==>
      LastFailsAt(e, cfg, o, k) || (PassesAt(e, cfg, o, k) && SomeFailsFirst(e, cfg, o, k + 1))
  {
    hide PassesAt, LastFailsAt;
    if m: nat :| k <= m < |STEPS| && FailsFirstAt(e, cfg, o, k, m) {
      if m > k {
        assert FailsFirstAt(e, cfg, o, k + 1, m);
      }
    }
    if LastFailsAt(e, cfg, o, k) {
      assert FailsFirstAt(e, cfg, o, k, k);
    }
    var from := k + 1;
    if m: nat :| from <= m < |STEPS| && PassesAt(e, cfg, o, k) && FailsFirstAt(e, cfg, o, from, m) {
      assert FailsFirstAt(e, cfg, o, k, m);
    }
  }

  lemma {:induction false} GivesUpAfterPrefix(e: Env, k: nat, cfg: Config, o: Oracle)
    requires e.lab.project.Some? && RecordsSound(e.records) && k <= DoneFrom(e.records, 0)
    ensures var n := DoneFrom(e.records, 0);
      GivesUpFrom(e, k, StateAfter(e.records, k), cfg, 1 + k, o) <==>
      && (forall i: nat :: 1 + k <= i <= n ==> o.store(i) == Fine)
      && GivesUpFrom(e, n, StateAfter(e.records, n), cfg, 1 + n, o)
    decreases DoneFrom(e.records, 0) - k
  {
    hide GivesUpFrom, RunStep;
    if k < DoneFrom(e.records, 0) {
      GivesUpAfterPrefix(e, k + 1, cfg, o);
      ReplayOnce(e.records, k, StateAfter(e.records, k));
      SkipsOrNot(e, k, StateAfter(e.records, k), cfg, 1 + k, o);
    }
  }

  lemma SkipsOrNot(e: Env, k: nat, st: DeployState, cfg: Config, t: nat, o: Oracle)
    requires e.lab.project.Some? && k < |STEPS| && RecordOf(e.records, STEPS[k]).status == Succeeded
    ensures GivesUpFrom(e, k, st, cfg, t, o) <==>
      o.store(t) == Fine && GivesUpFrom(e, k + 1, Overlay(st, RecordOf(e.records, STEPS[k]).result), cfg, t + 1, o)
  {
    hide RunStep, Overlay;
  }

  // A run gives up exactly when the finished steps can be read, and some step
  // after them is the first to fail, on its last attempt.
  lemma GivesUpIff(e: Env, cfg: Config, o: Oracle)
    requires e.lab.state == Deploying && e.lab.project.Some? && RecordsSound(e.records)
    ensures var n := DoneFrom(e.records, 0);
      GivesUp(e, cfg, o) <==>
      && (forall i: nat :: i <= n ==> o.store(i) == Fine)
      && SomeFailsFirst(e, cfg, o, n)
  {
    hide GivesUpFrom, SomeFailsFirst;
    var n := DoneFrom(e.records, 0);
    GivesUpAfterPrefix(e, 0, cfg, o);
    assert StandsAt(e, e, cfg, o, n) by { assert e == e.(cloud := e.cloud, vault := e.vault); }
    GivesUpFromIff(e, e, cfg, o, n);
  }

  // ---------------------------------------------------------------------
  // What giving up leaves in the project.

  lemma {:induction false} BootKeepsKeypairs(c: Cloud, v: Vault, st: DeployState, p: ProjectId, l: LabId,
                                             vms: seq<VmSpec>, t: nat, o: Oracle)
    requires |st.servers| <= |vms|
    ensures var r := BootRest(c, v, st, p, l, vms, t, o);
      r.cloud.keypairs == c.keypairs && r.vault == v && r.st.secret == st.secret
    decreases |vms| - |st.servers|
  {
    if |st.servers| < |vms| && o.cloud(t) != Death {
      var b := c.BootServer(p, SpecFor(l, vms[|st.servers|], st.network, st.keypair), o.cloud(t) == Fault);
      if b.result.Ok? {
        BootKeepsKeypairs(b.cloud, v, st.(servers := st.servers + [b.result.value]), p, l, vms, t + 1, o);
      }
    }
  }

  lemma {:induction false} AddressKeepsKeypairs(c: Cloud, v: Vault, st: DeployState, t: nat, o: Oracle)
    requires |st.ips| <= |st.servers|
    ensures var r := AddressRest(c, v, st, t, o);
      r.cloud.keypairs == c.keypairs && r.vault == v && r.st.secret == st.secret
    decreases |st.servers| - |st.ips|
  {
    if |st.ips| < |st.servers| && o.cloud(t) != Death && o.cloud(t + 1) != Death {
      var a := c.AllocateFloatingIp(st.servers[|st.ips|], o.cloud(t + 1) == Fault);
      if a.result.Ok? {
        AddressKeepsKeypairs(a.cloud, v, st.(ips := st.ips + [a.result.value]), t + 2, o);
      }
    }
  }

  // Only the first step makes keypairs and stores secrets.
  lemma StepKeepsKeypairs(s: Step, e: Env, st: DeployState, cfg: Config, t: nat, o: Oracle)
    requires e.lab.project.Some?
    ensures var r := RunStep(s, e, st, cfg, t, o);
      && e.cloud.keypairs <= r.cloud.keypairs
      && (s != CreateKeypair ==> r.vault == e.vault && r.st.secret == st.secret)
  {
    match s
    case BootVm => BootKeepsKeypairs(e.cloud, e.vault, st.(servers := []), e.lab.project.value, e.lab.id,
      cfg.topology.vms, t, o);
    case WaitSsh => AddressKeepsKeypairs(e.cloud, e.vault, st.(ips := []), t, o);
    case _ =>
  }

  // What the steps from number k > 0 on leave as it is.
  ghost predicate KeepsKey(e: Env, d: Env) {
    && e.cloud.keypairs <= d.cloud.keypairs && d.vault == e.vault
    && RecordOf(d.records, CreateKeypair) == RecordOf(e.records, CreateKeypair)
  }

  lemma EndKeepsKey(e: Env, st: DeployState, cfg: Config, now: Time, t: nat, o: Oracle)
    requires e.lab.project.Some?
    ensures KeepsKey(e, RunFrom(e, |STEPS|, st, cfg, now, t, o).env)
  {
  }

  lemma {:induction false} RunFromKeepsKey(e: Env, k: nat, st: DeployState, cfg: Config, now: Time, t: nat, o: Oracle)
    requires e.lab.project.Some? && 0 < k <= |STEPS|
    ensures KeepsKey(e, RunFrom(e, k, st, cfg, now, t, o).env)
    decreases |STEPS| - k
  {
    hide RunStep, RunFrom, Attempt, RecordOf, Overlay;
    if k == |STEPS| {
      EndKeepsKey(e, st, cfg, now, t, o);
    } else {
      var s, rec := STEPS[k], RecordOf(e.records, STEPS[k]);
      var r := RunStep(s, e, st, cfg, t + 2, o);
      if o.store(t) != Fine
        || (rec.status != Succeeded && (o.store(t + 1) != Fine || r.fate != Fine || o.store(r.t) != Fine)) {
        StopKeepsKey(e, k, st, cfg, now, t, o);
      } else if rec.status == Succeeded {
        SkipsHere(e, k, st, cfg, now, t, o);
        RunFromKeepsKey(e, k + 1, Overlay(st, rec.result), cfg, now, t + 1, o);
      } else {
        PassesHere(e, k, st, cfg, now, t, o);
        StepKeepsKeypairs(s, e, st, cfg, t + 2, o);
        var next := Put(e.(cloud := r.cloud, vault := r.vault), s, Completed(rec, r.st));
        RecordWith(e.records, k, Completed(rec, r.st), 0);
        RunFromKeepsKey(next, k + 1, r.st, cfg, now, r.t + 1, o);
      }
    }
  }

  lemma StopKeepsKey(e: Env, k: nat, st: DeployState, cfg: Config, now: Time, t: nat, o: Oracle)
    requires e.lab.project.Some? && 0 < k < |STEPS|
    requires var rec, r := RecordOf(e.records, STEPS[k]), RunStep(STEPS[k], e, st, cfg, t + 2, o);
      o.store(t) != Fine
        || (rec.status != Succeeded && (o.store(t + 1) != Fine || r.fate != Fine || o.store(r.t) != Fine))
    ensures KeepsKey(e, RunFrom(e, k, st, cfg, now, t, o).env)
  {
    var s, rec := STEPS[k], RecordOf(e.records, STEPS[k]);
    StepKeepsKeypairs(s, e, st, cfg, t + 2, o);
    hide RunStep;
    StepIgnoresRecords(s, e, Put(e, s, Begun(rec)), st, cfg, t + 2, o);
  }

  // A run that gives up leaves the project empty exactly when the very first
  // call failed before anything was built and the project was empty.
  lemma GivingUpVacatesIff(e: Env, cfg: Config, now: Time, o: Oracle)
    requires Resumable(e, cfg.topology) && GivesUp(e, cfg, o)
    ensures var p := e.lab.project.value;
      CP.Vacant(Run(e, cfg, now, o).env.cloud, p)
      <==> DoneFrom(e.records, 0) == 0 && o.cloud(3) == Fault && CP.Vacant(e.cloud, p)
  {
    hide RunFrom, GivesUpFrom, CP.Vacant, Cloud.Valid, StandAsSpecified, RecordsSound;
    var p, l, d := e.lab.project.value, e.lab.id, Run(e, cfg, now, o).env;
    assert Run(e, cfg, now, o) == RunFrom(e, 0, START, cfg, now, 1, o);
    if DoneFrom(e.records, 0) > 0 {
      FirstIsDone(e.records);
      GivesUpReads(e, 0, START, cfg, 1, o);
      SkipsHere(e, 0, START, cfg, now, 1, o);
      RunFromKeepsKey(e, 1, Overlay(START, RecordOf(e.records, STEPS[0]).result), cfg, now, 2, o);
      assert (p, KeyName(l)) in d.cloud.keypairs;
      KeyIsNotVacant(d.cloud, p, l);
    } else {
      FirstCallDecides(e, cfg, now, o);
      if o.cloud(3) != Fault {
        KeyIsNotVacant(d.cloud, p, l);
      }
    }
  }

  lemma GivesUpReads(e: Env, k: nat, st: DeployState, cfg: Config, t: nat, o: Oracle)
    requires e.lab.project.Some? && GivesUpFrom(e, k, st, cfg, t, o)
    ensures o.store(t) == Fine
  {
  }

  lemma FirstIsDone(records: Records)
    ensures DoneFrom(records, 0) > 0 <==> RecordOf(records, STEPS[0]).status == Succeeded
  {
  }

  lemma KeyIsNotVacant(c: Cloud, p: ProjectId, l: LabId)
    requires (p, KeyName(l)) in c.keypairs
    ensures !CP.Vacant(c, p)
  {
  }

  lemma FirstCallDecides(e: Env, cfg: Config, now: Time, o: Oracle)
    requires GivesUp(e, cfg, o) && DoneFrom(e.records, 0) == 0
    ensures var d := Run(e, cfg, now, o).env;
      && (o.cloud(3) == Fault ==> d.cloud == e.cloud)
      && (o.cloud(3) != Fault ==> (e.lab.project.value, KeyName(e.lab.id)) in d.cloud.keypairs)
  {
    FirstIsDone(e.records);
    var r := RunStep(STEPS[0], e, START, cfg, 3, o);
    if r.fate == Fine {
      hide RunFrom;
      PassesHere(e, 0, START, cfg, now, 1, o);
      var rec := RecordOf(e.records, STEPS[0]);
      RunFromKeepsKey(Put(e.(cloud := r.cloud, vault := r.vault), STEPS[0], Completed(rec, r.st)), 1, r.st,
        cfg, now, r.t + 1, o);
    } else {
      var rec := RecordOf(e.records, STEPS[0]);
      StepIgnoresRecords(STEPS[0], e, Put(e, STEPS[0], Begun(rec)), START, cfg, 3, o);
      assert Run(e, cfg, now, o) == Attempt(Put(e, STEPS[0], Begun(rec)), 0, START, cfg, now, 3, o);
    }
  }

  // ---------------------------------------------------------------------
  // What becomes of the secret.

  // The run reaches the secret store: the first step is unfinished, and the
  // calls up to and including the store's work.
  ghost predicate StoresKey(e: Env, o: Oracle) {
    && e.lab.state == Deploying && e.lab.project.Some? && DoneFrom(e.records, 0) == 0
    && o.store(0) == Fine && o.store(1) == Fine && o.store(2) == Fine && o.cloud(3) == Fine && o.cloud(4) == Fine
  }

  // And records it.
  ghost predicate KeyDone(e: Env, o: Oracle) {
    StoresKey(e, o) && o.store(5) == Fine
  }

  // A finished step's record or the lab refers to the secret.
  ghost predicate Names(e: Env, s: SecretId) {
    || e.lab.checkerKey == Some(s)
    || exists step :: RecordOf(e.records, step).status == Succeeded && RecordOf(e.records, step).result.Some?
                      && RecordOf(e.records, step).result.value.secret == Some(s)
  }

  ghost predicate KeyRecorded(e: Env, s: SecretId) {
    var rec := RecordOf(e.records, CreateKeypair);
    rec.status == Succeeded && rec.result.Some? && rec.result.value.secret == Some(s)
  }

  // A run leaves the vault alone unless it stores a key, and that key is the
  // next secret; it is recorded exactly when the save after the step works.
  ghost predicate KeyOutcome(e: Env, d: Env, o: Oracle) {
    && d.vault == (if StoresKey(e, o) then Vault(e.vault.live + {e.vault.next}, e.vault.next + 1) else e.vault)
    && (KeyDone(e, o) ==> KeyRecorded(d, e.vault.next))
    && (!KeyDone(e, o) && RecordOf(d.records, CreateKeypair).status == Succeeded ==>
          RecordOf(d.records, CreateKeypair) == RecordOf(e.records, CreateKeypair))
    && (StoresKey(e, o) && o.store(5) != Fine && RecordsSound(e.records) ==>
          d.lab == e.lab && forall step :: RecordOf(d.records, step).status != Succeeded)
  }

  lemma RunStoresKey(e: Env, cfg: Config, now: Time, o: Oracle)
    ensures KeyOutcome(e, Run(e, cfg, now, o).env, o)
  {
    hide RunFrom, RunStep, RecordsSound;
    if e.lab.state == Deploying && e.lab.project.Some? && o.store(0) == Fine {
      FirstIsDone(e.records);
      if DoneFrom(e.records, 0) > 0 {
        if o.store(1) == Fine {
          SkipsHere(e, 0, START, cfg, now, 1, o);
          RunFromKeepsKey(e, 1, Overlay(START, RecordOf(e.records, STEPS[0]).result), cfg, now, 2, o);
        } else {
          StopsAtOnce(e, cfg, now, o);
        }
      } else {
        var r := RunStep(STEPS[0], e, START, cfg, 3, o);
        if o.store(1) == Fine && o.store(2) == Fine && r.fate == Fine && o.store(r.t) == Fine {
          FirstStepPasses(e, cfg, now, o);
        } else {
          FirstStepStops(e, cfg, now, o);
        }
      }
    }
  }

  lemma StopsAtOnce(e: Env, cfg: Config, now: Time, o: Oracle)
    requires e.lab.project.Some? && o.store(1) != Fine
    ensures RunFrom(e, 0, START, cfg, now, 1, o).env == e
  {
  }

  lemma FirstStepPasses(e: Env, cfg: Config, now: Time, o: Oracle)
    requires DoneFrom(e.records, 0) == 0 && e.lab.state == Deploying && e.lab.project.Some? && o.store(0) == Fine
    requires var r := RunStep(STEPS[0], e, START, cfg, 3, o);
      o.store(1) == Fine && o.store(2) == Fine && r.fate == Fine && o.store(r.t) == Fine
    ensures KeyOutcome(e, RunFrom(e, 0, START, cfg, now, 1, o).env, o)
  {
    hide RunFrom, RecordsSound;
    FirstIsDone(e.records);
    var rec, r := RecordOf(e.records, STEPS[0]), RunStep(STEPS[0], e, START, cfg, 3, o);
    PassesHere(e, 0, START, cfg, now, 1, o);
    RunFromKeepsKey(Put(e.(cloud := r.cloud, vault := r.vault), STEPS[0], Completed(rec, r.st)), 1, r.st,
      cfg, now, r.t + 1, o);
  }

  lemma FirstStepStops(e: Env, cfg: Config, now: Time, o: Oracle)
    requires DoneFrom(e.records, 0) == 0 && e.lab.state == Deploying && e.lab.project.Some? && o.store(0) == Fine
    requires var r := RunStep(STEPS[0], e, START, cfg, 3, o);
      o.store(1) != Fine || o.store(2) != Fine || r.fate != Fine || o.store(r.t) != Fine
    ensures KeyOutcome(e, RunFrom(e, 0, START, cfg, now, 1, o).env, o)
  {
    hide RecordsSound;
    FirstIsDone(e.records);
    var rec := RecordOf(e.records, STEPS[0]);
    var begun := Put(e, STEPS[0], Begun(rec));
    if o.store(1) == Fine && o.store(2) == Fine {
      StepIgnoresRecords(STEPS[0], e, begun, START, cfg, 3, o);
      assert RunFrom(e, 0, START, cfg, now, 1, o) == Attempt(begun, 0, START, cfg, now, 3, o);
      hide RunFrom;
      if StoresKey(e, o) && RecordsSound(e.records) {
        NoneDone(e.records);
        BegunIsNotDone(e.records, rec, begun.records);
      }
    }
  }

  lemma BegunIsNotDone(records: Records, rec: Record, after: Records)
    requires forall step :: RecordOf(records, step).status != Succeeded
    requires after == records[STEPS[0] := Begun(rec)]
    ensures forall step :: RecordOf(after, step).status != Succeeded
  {
    forall step
      ensures RecordOf(after, step).status != Succeeded
    {
      assert RecordOf(records, step).status != Succeeded;
    }
  }

  lemma NoneDone(records: Records)
    requires RecordsSound(records) && DoneFrom(records, 0) == 0
    ensures forall step :: RecordOf(records, step).status != Succeeded
  {
    forall step
      ensures RecordOf(records, step).status != Succeeded
    {
      var k := PlaceOf(step);
    }
  }

  lemma PlaceOf(step: Step) returns (k: nat)
    ensures k < |STEPS| && STEPS[k] == step
  {
    k := match step
      case CreateKeypair => 0
      case ProvisionNetwork => 1
      case BootVm => 2
      case WaitSsh => 3
      case InitialCheck => 4;
  }

  // For every lab, budget and oracle: a run leaves a new secret that
  // no record and no lab names exactly when it stores a key and the save of
  // the finished step does not work. Any other run adds to the vault exactly
  // the secret its record names, or nothing.
  lemma OrphansIff(e: Env, cfg: Config, now: Time, o: Oracle)
    requires RecordsSound(e.records)
    requires e.vault.next !in e.vault.live && e.lab.checkerKey != Some(e.vault.next)
    ensures var d := Run(e, cfg, now, o).env;
      && ((exists s :: s in d.vault.live && s !in e.vault.live && !Names(d, s)) <==>
           StoresKey(e, o) && o.store(5) != Fine)
      && (forall s :: s in d.vault.live && s !in e.vault.live ==>
            s == e.vault.next && StoresKey(e, o) && (o.store(5) == Fine ==> KeyRecorded(d, s)))
      && e.vault.live <= d.vault.live
  {
    hide Run, DoneFrom, StoresKey;
    RunStoresKey(e, cfg, now, o);
    var d, s := Run(e, cfg, now, o).env, e.vault.next;
    if StoresKey(e, o) && o.store(5) != Fine {
      assert s in d.vault.live && s !in e.vault.live && !Names(d, s);
    } else if StoresKey(e, o) {
      assert KeyRecorded(d, s) && Names(d, s);
    }
  }
}

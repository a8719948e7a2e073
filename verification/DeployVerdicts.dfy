// What a run of the deploy saga answers, told from the calls that find its
// worker dead.

module DeployVerdicts {
  import opened Types
  import opened CloudDomain
  import opened LabDomain
  import opened DeployDomain
  import opened DeployProofs
  import opened DeployOutcomes

  // ---------------------------------------------------------------------
  // One step.

  // A step whose first call is number t dies exactly at a call of its own.
  ghost predicate DiesAtCall(r: StepResult, t: nat, o: Oracle) {
    && t <= r.t
    && (r.fate == Death ==> exists i: nat :: t <= i <= r.t && o.cloud(i) == Death)
    && (r.fate != Death ==> forall i: nat :: t <= i < r.t ==> o.cloud(i) != Death)
  }

  // Each machine takes one call. The call that fails is counted, one that finds
  // the worker dead is not made.
  lemma {:induction false} BootCalls(c: Cloud, v: Vault, st: DeployState, p: ProjectId, l: LabId, vms: seq<VmSpec>,
                                     t: nat, o: Oracle)
    requires |st.servers| <= |vms|
    ensures var r := BootRest(c, v, st, p, l, vms, t, o); var booted := |r.st.servers| - |st.servers|;
      && DiesAtCall(r, t, o)
      && booted >= 0 && r.t == t + booted + (if r.fate == Fault then 1 else 0)
      && (r.fate == Fine <==> |r.st.servers| == |vms|)
      && (r.fate == Death ==> o.cloud(r.t) == Death)
    decreases |vms| - |st.servers|
  {
    if |st.servers| < |vms| && o.cloud(t) != Death {
      var b := c.BootServer(p, SpecFor(l, vms[|st.servers|], st.network, st.keypair), o.cloud(t) == Fault);
      if b.result.Ok? {
        BootCalls(b.cloud, v, st.(servers := st.servers + [b.result.value]), p, l, vms, t + 1, o);
      }
    }
  }

  // Each address takes two: the wait for the machine and the allocation.
  lemma {:induction false} AddressCalls(c: Cloud, v: Vault, st: DeployState, t: nat, o: Oracle)
    requires |st.ips| <= |st.servers|
    ensures var r := AddressRest(c, v, st, t, o);
      var more := r.t - t - 2 * (|r.st.ips| - |st.ips|);
      && DiesAtCall(r, t, o)
      && r.st.servers == st.servers && |r.st.ips| <= |st.servers|
      && (r.fate == Fine <==> |r.st.ips| == |st.servers|) && (r.fate == Fine ==> more == 0)
      && (r.fate == Death ==> more in {0, 1} && o.cloud(r.t) == Death)
      && (r.fate == Fault ==> more in {1, 2})
      && (r.fate == Fault && more == 1 ==> o.cloud(r.t - 1) == Fault || st.servers[|r.st.ips|] !in r.cloud.servers)
    decreases |st.servers| - |st.ips|
  {
    if |st.ips| < |st.servers| && o.cloud(t) != Death && o.cloud(t + 1) != Death {
      var a := c.AllocateFloatingIp(st.servers[|st.ips|], o.cloud(t + 1) == Fault);
      if c.WaitForActive(st.servers[|st.ips|], o.cloud(t) == Fault).Ok? && a.result.Ok? {
        AddressCalls(a.cloud, v, st.(ips := st.ips + [a.result.value]), t + 2, o);
      }
    }
  }

  // The keypair takes two calls, of the provider and of the secret store, and
  // the network one.
  lemma KeyAndNetworkCalls(e: Env, st: DeployState, cfg: Config, t: nat, o: Oracle)
    requires e.lab.project.Some?
    ensures var r := RunStep(CreateKeypair, e, st, cfg, t, o);
      && (r.fate == Fine <==> o.cloud(t) == Fine && o.cloud(t + 1) == Fine) && (r.fate == Fine ==> r.t == t + 2)
      && (r.fate == Death <==> o.cloud(t) == Death || (o.cloud(t) == Fine && o.cloud(t + 1) == Death))
    ensures var r := RunStep(ProvisionNetwork, e, st, cfg, t, o);
      r.fate == o.cloud(t) && r.t == if r.fate == Death then t else t + 1
  {
  }

  // The check of a new lab calls nothing and never fails; its result is only
  // recorded.
  lemma CheckIsRecorded(e: Env, st: DeployState, cfg: Config, t: nat, o: Oracle)
    requires e.lab.project.Some?
    ensures RunStep(InitialCheck, e, st, cfg, t, o)
         == StepResult(e.cloud, e.vault, st.(check := if cfg.checks then "passed" else "skipped"), t, Fine)
  {
  }

  lemma StepDiesAtCall(s: Step, e: Env, st: DeployState, cfg: Config, t: nat, o: Oracle)
    requires e.lab.project.Some?
    ensures DiesAtCall(RunStep(s, e, st, cfg, t, o), t, o)
  {
    var p, l := e.lab.project.value, e.lab.id;
    match s
    case CreateKeypair =>
    case ProvisionNetwork =>
    case BootVm => BootCalls(e.cloud, e.vault, st.(servers := []), p, l, cfg.topology.vms, t, o);
    case WaitSsh => AddressCalls(e.cloud, e.vault, st.(ips := []), t, o);
    case InitialCheck =>
  }

  // ---------------------------------------------------------------------
  // One run.

  // Step k is begun, and one of the calls around it or of its own finds the
  // worker dead.
  ghost predicate DiesAt(e: Env, cfg: Config, o: Oracle, k: nat)
    requires e.lab.project.Some? && DoneFrom(e.records, 0) <= k < |STEPS|
  {
    var t, r := PointAt(e, cfg, o, k).t, StepAt(e, cfg, o, k);
    || FirstDies(o.store, t, t + 2)
    || (AllFine(o.store, t, t + 2)
        && match r.fate
           case Death => true
           case Fine => o.store(r.t) == Death
           case Fault =>
             || o.store(r.t) == Death
             || (RecordOf(e.records, STEPS[k]).attempt + 1 >= cfg.Budget() && o.store(r.t + 1) == Death))
  }

  // All steps from number from on pass, up to a call that finds the worker
  // dead, or up to the save of the ready lab, which does.
  ghost predicate DiesFirstAt(e: Env, cfg: Config, o: Oracle, from: nat, k: nat)
    requires e.lab.project.Some? && DoneFrom(e.records, 0) <= from <= k <= |STEPS|
  {
    && (forall j: nat :: from <= j < k ==> PassesAt(e, cfg, o, j))
    && if k == |STEPS| then o.store(PointAt(e, cfg, o, k).t) == Death else DiesAt(e, cfg, o, k)
  }

  ghost predicate SomeDiesFirst(e: Env, cfg: Config, o: Oracle, from: nat)
    requires e.lab.project.Some? && DoneFrom(e.records, 0) <= from <= |STEPS|
  {
    exists k: nat :: from <= k <= |STEPS| && DiesFirstAt(e, cfg, o, from, k)
  }

  // One of the calls a run makes finds its worker dead: it loads the lab, reads
  // the finished steps, and goes on from the first that is not.
  ghost predicate MeetsDeath(e: Env, cfg: Config, o: Oracle) {
    if e.lab.state != Deploying || e.lab.project.None? then o.store(0) == Death
    else
      var n := DoneFrom(e.records, 0);
      FirstDies(o.store, 0, n + 1) || (AllFine(o.store, 0, n + 1) && SomeDiesFirst(e, cfg, o, n))
  }

  lemma DiesHereOrLater(e: Env, cfg: Config, o: Oracle, k: nat)
    requires e.lab.project.Some? && DoneFrom(e.records, 0) <= k < |STEPS|
    ensures SomeDiesFirst(e, cfg, o, k) <==>
      DiesAt(e, cfg, o, k) || (PassesAt(e, cfg, o, k) && SomeDiesFirst(e, cfg, o, k + 1))
  {
    hide PassesAt, DiesAt, PointAt;
    if m: nat :| k <= m <= |STEPS| && DiesFirstAt(e, cfg, o, k, m) {
      if m > k {
        assert DiesFirstAt(e, cfg, o, k + 1, m);
      }
    }
    if DiesAt(e, cfg, o, k) {
      assert DiesFirstAt(e, cfg, o, k, k);
    }
    var from := k + 1;
    if m: nat :| from <= m <= |STEPS| && PassesAt(e, cfg, o, k) && DiesFirstAt(e, cfg, o, from, m) {
      assert DiesFirstAt(e, cfg, o, k, m);
    }
  }

  lemma EndDies(e: Env, d: Env, cfg: Config, now: Time, o: Oracle)
    requires e.lab.project.Some? && d.lab == e.lab && e.lab.state == Deploying
    ensures var q := PointAt(e, cfg, o, |STEPS|);
      RunFrom(d, |STEPS|, q.st, cfg, now, q.t, o).verdict == Died <==> SomeDiesFirst(e, cfg, o, |STEPS|)
  {
    hide PointAt;
    var n := |STEPS|;
    assert SomeDiesFirst(e, cfg, o, n) <==> DiesFirstAt(e, cfg, o, n, n);
  }

  // A step that does not pass ends the run.
  lemma StopDiesIff(d: Env, k: nat, st: DeployState, cfg: Config, now: Time, t: nat, o: Oracle)
    requires d.lab.project.Some? && d.lab.state == Deploying && k < |STEPS|
    requires RecordOf(d.records, STEPS[k]).status != Succeeded
    requires var r := RunStep(STEPS[k], d, st, cfg, t + 2, o);
      !(o.store(t) == Fine && o.store(t + 1) == Fine && r.fate == Fine && o.store(r.t) == Fine)
    ensures var r := RunStep(STEPS[k], d, st, cfg, t + 2, o);
      RunFrom(d, k, st, cfg, now, t, o).verdict == Died <==>
      || o.store(t) == Death
      || (o.store(t) == Fine && o.store(t + 1) == Death)
      || (o.store(t) == Fine && o.store(t + 1) == Fine
          && match r.fate
             case Death => true
             case Fine => o.store(r.t) == Death
             case Fault =>
               || o.store(r.t) == Death
               || (RecordOf(d.records, STEPS[k]).attempt + 1 >= cfg.Budget() && o.store(r.t + 1) == Death))
  {
    hide RunStep;
    var s, rec := STEPS[k], RecordOf(d.records, STEPS[k]);
    StepIgnoresRecords(s, d, Put(d, s, Begun(rec)), st, cfg, t + 2, o);
    RecordWith(d.records, k, Begun(rec), k);
  }

  lemma DiesHereOrPast(e: Env, d: Env, cfg: Config, now: Time, o: Oracle, k: nat)
    requires e.lab.project.Some? && e.lab.state == Deploying
    requires RecordsSound(e.records) && DoneFrom(e.records, 0) <= k < |STEPS|
    requires StandsAt(e, d, cfg, o, k)
    ensures StandsAt(e, Past(e, d, cfg, o, k), cfg, o, k + 1) && d.lab == e.lab
    ensures var q, next := PointAt(e, cfg, o, k), PointAt(e, cfg, o, k + 1);
      var verdict := RunFrom(d, k, q.st, cfg, now, q.t, o).verdict;
      if PassesAt(e, cfg, o, k)
      then verdict == RunFrom(Past(e, d, cfg, o, k), k + 1, next.st, cfg, now, next.t, o).verdict
           && !DiesAt(e, cfg, o, k)
      else verdict == Died <==> DiesAt(e, cfg, o, k)
  {
    hide RunStep, PointAt, StepAt, RecordsSound, StandsAt, RunFrom, DoneFrom, RecordOf, Put, Completed;
    hide Config.Budget;
    StandsUnfinished(e, d, cfg, o, k);
    StandsFurther(e, d, cfg, o, k);
    PointFollows(e, cfg, o, k);
    var q := PointAt(e, cfg, o, k);
    TwoCalls(o.store, q.t);
    hide FirstDies, AllFine;
    if PassesAt(e, cfg, o, k) {
      PassesHere(d, k, q.st, cfg, now, q.t, o);
    } else {
      StopDiesIff(d, k, q.st, cfg, now, q.t, o);
    }
  }

  lemma {:induction false} RunFromDiesIff(e: Env, d: Env, cfg: Config, now: Time, o: Oracle, k: nat)
    requires e.lab.project.Some? && e.lab.state == Deploying
    requires RecordsSound(e.records) && DoneFrom(e.records, 0) <= k <= |STEPS|
    requires StandsAt(e, d, cfg, o, k)
    ensures var q := PointAt(e, cfg, o, k);
      d.lab == e.lab && (RunFrom(d, k, q.st, cfg, now, q.t, o).verdict == Died <==> SomeDiesFirst(e, cfg, o, k))
    decreases |STEPS| - k
  {
    assert d.lab == e.lab;
    hide RunStep, PointAt, StepAt, RecordsSound, StandsAt, RunFrom, SomeDiesFirst, DiesAt, PassesAt, Past;
    if k < |STEPS| {
      DiesHereOrPast(e, d, cfg, now, o, k);
      RunFromDiesIff(e, Past(e, d, cfg, o, k), cfg, now, o, k + 1);
      DiesHereOrLater(e, cfg, o, k);
    } else {
      EndDies(e, d, cfg, now, o);
    }
  }

  // Reading the finished steps.
  lemma {:induction false} PrefixDies(e: Env, k: nat, cfg: Config, now: Time, o: Oracle)
    requires e.lab.project.Some? && RecordsSound(e.records) && k <= DoneFrom(e.records, 0)
    ensures var n := DoneFrom(e.records, 0);
      var r := RunFrom(e, k, StateAfter(e.records, k), cfg, now, 1 + k, o);
      if AllFine(o.store, 1 + k, 1 + n) then r == RunFrom(e, n, StateAfter(e.records, n), cfg, now, 1 + n, o)
      else r.verdict == Died <==> FirstDies(o.store, 1 + k, 1 + n)
    decreases DoneFrom(e.records, 0) - k
  {
    hide RunFrom, RunStep, AllFine, FirstDies;
    if k < DoneFrom(e.records, 0) {
      var n := DoneFrom(e.records, 0);
      FirstOfMore(o.store, 1 + k, 1 + n);
      ReplayOnce(e.records, k, StateAfter(e.records, k));
      if o.store(1 + k) == Fine {
        SkipsHere(e, k, StateAfter(e.records, k), cfg, now, 1 + k, o);
        PrefixDies(e, k + 1, cfg, now, o);
      } else {
        LoadStops(e, k, StateAfter(e.records, k), cfg, now, 1 + k, o);
      }
    } else {
      NoCalls(o.store, 1 + k);
    }
  }

  lemma LoadStops(e: Env, k: nat, st: DeployState, cfg: Config, now: Time, t: nat, o: Oracle)
    requires e.lab.project.Some? && k < |STEPS| && o.store(t) != Fine
    ensures RunFrom(e, k, st, cfg, now, t, o).verdict == Died <==> o.store(t) == Death
  {
    hide RunStep, Attempt, Overlay;
  }

  // What a run answers, whatever fails: its worker dies exactly at a call it
  // makes, it tells the queue to stop exactly when the lab is not deploying any
  // more, and otherwise it is to be retried.
  lemma RunVerdict(e: Env, cfg: Config, now: Time, o: Oracle)
    requires RecordsSound(e.records)
    ensures var r := Run(e, cfg, now, o);
      && (r.verdict == Died <==> MeetsDeath(e, cfg, o))
      && (r.verdict == Ended <==> o.store(0) == Fine && r.env.lab.state != Deploying)
      && (r.verdict == Retry <==> !(r.verdict == Ended || MeetsDeath(e, cfg, o)))
  {
    RunDecides(e, cfg, now, o);
    if e.lab.state == Deploying && e.lab.project.Some? {
      var n := DoneFrom(e.records, 0);
      FirstOfMore(o.store, 0, n + 1);
      assert StandsAt(e, e, cfg, o, n) by { StandsAtStart(e, cfg, o); }
      PointAtStart(e, cfg, o);
      hide RunFrom, RecordsSound, SomeDiesFirst, FirstDies, AllFine, StandsAt, DoneFrom, PointAt;
      PrefixDies(e, 0, cfg, now, o);
      RunFromDiesIff(e, e, cfg, now, o, n);
    }
  }

  lemma StandsAtStart(e: Env, cfg: Config, o: Oracle)
    requires e.lab.project.Some?
    ensures StandsAt(e, e, cfg, o, DoneFrom(e.records, 0))
  {
    assert e == e.(cloud := e.cloud, vault := e.vault);
  }

  lemma PointAtStart(e: Env, cfg: Config, o: Oracle)
    requires e.lab.project.Some?
    ensures var n := DoneFrom(e.records, 0);
      PointAt(e, cfg, o, n) == Point(e.cloud, e.vault, StateAfter(e.records, n), 1 + n)
        && StateAfter(e.records, 0) == START
  {
  }
}

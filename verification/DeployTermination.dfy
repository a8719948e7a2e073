// How many runs a deploy can take when neither the worker nor the database
// fails, whatever the provider does.

module DeployTermination {
  import opened Types
  import opened CloudDomain
  import opened LabDomain
  import opened DeployDomain
  import DO = DeployOutcomes

  predicate Affordable(r: Record, m: nat) {
    r.attempt <= m && (r.status != Succeeded ==> r.attempt < m)
  }

  // No step has used up the attempt budget m without succeeding.
  ghost predicate WithinBudget(records: Records, m: nat) {
    forall s :: Affordable(RecordOf(records, s), m)
  }

  ghost predicate AttemptsAtMost(records: Records, m: nat) {
    forall s :: RecordOf(records, s).attempt <= m
  }

  // The failures step s may still have without exhausting the budget.
  function Spare(records: Records, m: nat, s: Step): int {
    var r := RecordOf(records, s);
    if r.status == Succeeded then 0 else m - 1 - r.attempt
  }

  // The failures the four fallible steps may still have in all.
  function Slack(records: Records, m: nat): int {
    Spare(records, m, CreateKeypair) + Spare(records, m, ProvisionNetwork) + Spare(records, m, BootVm)
      + Spare(records, m, WaitSsh)
  }

  lemma SlackWith(records: Records, m: nat, s: Step, r: Record)
    ensures Slack(records[s := r], m) == Slack(records, m)
      + (if s == InitialCheck then 0
        else (if r.status == Succeeded then 0 else m - 1 - r.attempt) - Spare(records, m, s))
  {
  }

  lemma BudgetWith(records: Records, m: nat, s: Step, r: Record)
    requires WithinBudget(records, m) && r.attempt <= m
    ensures AttemptsAtMost(records, m) && AttemptsAtMost(records[s := r], m)
    ensures Affordable(r, m) ==> WithinBudget(records[s := r], m)
    ensures Affordable(RecordOf(records, s), m)
  {
    forall x
      ensures RecordOf(records, x).attempt <= m
    {
      assert Affordable(RecordOf(records, x), m);
    }
    var after := records[s := r];
    forall x
      ensures RecordOf(after, x).attempt <= m
      ensures Affordable(r, m) ==> Affordable(RecordOf(after, x), m)
    {
      assert Affordable(RecordOf(records, x), m);
      assert RecordOf(after, x) == if x == s then r else RecordOf(records, x);
    }
  }

  // A run either decides the lab or returns an error and leaves less slack.
  ghost predicate Progressed(slack: int, r: Outcome, lab: Lab, m: nat) {
    && AttemptsAtMost(r.env.records, m)
    && (|| (r.verdict == Ended && r.env.lab.state in {Ready, LabDomain.Failed})
        || (r.verdict == Retry && r.env.lab == lab && WithinBudget(r.env.records, m)
             && Slack(r.env.records, m) < slack))
  }

  lemma StepNeverDies(s: Step, e: Env, st: DeployState, cfg: Config, t: nat, o: Oracle)
    requires Steady(o) && e.lab.project.Some?
    ensures RunStep(s, e, st, cfg, t, o).fate != Death
    ensures s == InitialCheck ==> RunStep(s, e, st, cfg, t, o).fate == Fine
  {
    match s
    case BootVm => BootNeverDies(e.cloud, e.vault, st.(servers := []), e.lab.project.value, e.lab.id,
      cfg.topology.vms, t, o);
    case WaitSsh => AddressNeverDies(e.cloud, e.vault, st.(ips := []), t, o);
    case _ =>
  }

  lemma {:induction false} BootNeverDies(c: Cloud, v: Vault, st: DeployState, p: ProjectId, l: LabId,
                                         vms: seq<VmSpec>, t: nat, o: Oracle)
    requires Steady(o) && |st.servers| <= |vms|
    ensures BootRest(c, v, st, p, l, vms, t, o).fate != Death
    decreases |vms| - |st.servers|
  {
    if |st.servers| < |vms| {
      var r := c.BootServer(p, SpecFor(l, vms[|st.servers|], st.network, st.keypair), o.cloud(t) == Fault);
      if r.result.Ok? {
        BootNeverDies(r.cloud, v, st.(servers := st.servers + [r.result.value]), p, l, vms, t + 1, o);
      }
    }
  }

  lemma {:induction false} AddressNeverDies(c: Cloud, v: Vault, st: DeployState, t: nat, o: Oracle)
    requires Steady(o) && |st.ips| <= |st.servers|
    ensures AddressRest(c, v, st, t, o).fate != Death
    decreases |st.servers| - |st.ips|
  {
    if |st.ips| < |st.servers| {
      var r := c.AllocateFloatingIp(st.servers[|st.ips|], o.cloud(t + 1) == Fault);
      if r.result.Ok? {
        AddressNeverDies(r.cloud, v, st.(ips := st.ips + [r.result.value]), t + 2, o);
      }
    }
  }

  lemma {:induction false} RunFromProgresses(e: Env, k: nat, st: DeployState, cfg: Config, now: Time, t: nat, o: Oracle)
    requires Steady(o) && e.lab.project.Some? && e.lab.state == Deploying && k <= |STEPS|
    requires WithinBudget(e.records, cfg.Budget())
    ensures Progressed(Slack(e.records, cfg.Budget()), RunFrom(e, k, st, cfg, now, t, o), e.lab, cfg.Budget())
    decreases |STEPS| - k
  {
    hide Attempt, Slack, WithinBudget, Progressed;
    if k == |STEPS| {
      FinishProgresses(e, k, st, cfg, now, t, o);
    } else {
      var rec := RecordOf(e.records, STEPS[k]);
      if rec.status == Succeeded {
        RunFromProgresses(e, k + 1, Overlay(st, rec.result), cfg, now, t + 1, o);
      } else {
        AttemptProgresses(e, k, st, cfg, now, t + 2, o);
      }
    }
  }

  lemma FinishProgresses(e: Env, k: nat, st: DeployState, cfg: Config, now: Time, t: nat, o: Oracle)
    requires Steady(o) && e.lab.project.Some? && e.lab.state == Deploying && k == |STEPS|
    requires WithinBudget(e.records, cfg.Budget())
    ensures Progressed(Slack(e.records, cfg.Budget()), RunFrom(e, k, st, cfg, now, t, o), e.lab, cfg.Budget())
  {
    BudgetWith(e.records, cfg.Budget(), InitialCheck, Record(Pending, 0, None));
  }

  // Step k, found unfinished in e, is attempted once more.
  lemma {:induction false} AttemptProgresses(e: Env, k: nat, st: DeployState, cfg: Config, now: Time, t: nat, o: Oracle)
    requires Steady(o) && e.lab.project.Some? && e.lab.state == Deploying && k < |STEPS|
    requires WithinBudget(e.records, cfg.Budget()) && RecordOf(e.records, STEPS[k]).status != Succeeded
    ensures var begun := Put(e, STEPS[k], Begun(RecordOf(e.records, STEPS[k])));
      Progressed(Slack(e.records, cfg.Budget()), Attempt(begun, k, st, cfg, now, t, o), e.lab, cfg.Budget())
    decreases |STEPS| - k, 0
  {
    hide RunStep, Slack, WithinBudget, AttemptsAtMost, RunFrom;
    var s, rec, m := STEPS[k], RecordOf(e.records, STEPS[k]), cfg.Budget();
    BudgetWith(e.records, m, s, rec.(attempt := 0));
    var begun := Put(e, s, Begun(rec));
    var r := RunStep(s, begun, st, cfg, t, o);
    StepNeverDies(s, begun, st, cfg, t, o);
    var after := begun.(cloud := r.cloud, vault := r.vault);
    if r.fate == Fault {
      var failed := Begun(rec).(status := Status.Failed);
      assert begun.records[s := failed] == e.records[s := failed];
      SlackWith(e.records, m, s, failed);
      BudgetWith(e.records, m, s, failed);
    } else {
      var done := Begun(rec).(status := Succeeded, result := Some(r.st));
      assert begun.records[s := done] == e.records[s := done];
      SlackWith(e.records, m, s, done);
      BudgetWith(e.records, m, s, done);
      RunFromProgresses(Put(after, s, done), k + 1, r.st, cfg, now, r.t + 1, o);
    }
  }

  // One run with a sound worker and database either makes the lab ready or
  // failed, or spends one of the failures its budget allows.
  lemma RunProgresses(e: Env, cfg: Config, now: Time, o: Oracle)
    requires Steady(o) && e.lab.project.Some? && e.lab.state == Deploying
    requires WithinBudget(e.records, cfg.Budget())
    ensures Progressed(Slack(e.records, cfg.Budget()), Run(e, cfg, now, o), e.lab, cfg.Budget())
  {
    RunFromProgresses(e, 0, START, cfg, now, 1, o);
  }

  // One delivery of the deploy task. The cloud it finds is whatever the rest
  // of the system has made of it meanwhile.
  datatype Turn = Turn(cloud: Cloud, now: Time, o: Oracle)

  // The queue delivers a deploy task again only while it is answered with an error
  // or its worker dies; it drops it when a run answers Ended.
  ghost function Queue(e: Env, cfg: Config, turns: seq<Turn>): Outcome {
    if turns == [] then Outcome(e, Retry)
    else
      var last := turns[|turns| - 1];
      var d := Queue(e, cfg, turns[..|turns| - 1]);
      if d.verdict == Ended then d else Run(d.env.(cloud := last.cloud), cfg, last.now, last.o)
  }

  ghost function Deliver(e: Env, cfg: Config, turns: seq<Turn>): Env {
    Queue(e, cfg, turns).env
  }

  // A deploy task is dropped only once the lab is decided, whatever fails.
  lemma {:induction false} DroppedIsDecided(e: Env, cfg: Config, turns: seq<Turn>)
    ensures Queue(e, cfg, turns).verdict == Ended ==> Deliver(e, cfg, turns).lab.state != Deploying
  {
    hide Run;
    if turns != [] {
      var front, last := turns[..|turns| - 1], turns[|turns| - 1];
      DroppedIsDecided(e, cfg, front);
      DO.RunDecides(Deliver(e, cfg, front).(cloud := last.cloud), cfg, last.now, last.o);
    }
  }

  ghost predicate AllSteady(turns: seq<Turn>) {
    forall i :: 0 <= i < |turns| ==> Steady(turns[i].o)
  }

  lemma {:induction false} DeliveriesProgress(e: Env, cfg: Config, turns: seq<Turn>)
    requires AllSteady(turns) && e.lab.project.Some? && e.lab.state == Deploying
    requires WithinBudget(e.records, cfg.Budget())
    ensures var q := Queue(e, cfg, turns); var d, m := q.env, cfg.Budget();
      && AttemptsAtMost(d.records, m)
      && (|| (q.verdict == Ended && d.lab.state in {Ready, LabDomain.Failed})
          || (q.verdict == Retry && d.lab == e.lab && WithinBudget(d.records, m)
              && Slack(d.records, m) + |turns| <= Slack(e.records, m)))
  {
    if turns != [] {
      var front, last := turns[..|turns| - 1], turns[|turns| - 1];
      DeliveriesProgress(e, cfg, front);
      var q := Queue(e, cfg, front);
      if q.verdict != Ended {
        RunProgresses(q.env.(cloud := last.cloud), cfg, last.now, last.o);
      }
    }
  }

  // For a budget of m attempts, as configured or three, a new deploy is decided
  // and its task dropped after at most 4(m - 1) + 1 deliveries, for any provider
  // behaviour, and no step is attempted more than m times.
  lemma DeployTerminates(e: Env, cfg: Config, turns: seq<Turn>, m: nat)
    requires AllSteady(turns) && e.lab.project.Some? && e.lab.state == Deploying && e.records == map[]
    requires m == (if cfg.maxAttempts > 0 then cfg.maxAttempts else 3) && |turns| >= 4 * (m - 1) + 1
    ensures Queue(e, cfg, turns).verdict == Ended
    ensures Deliver(e, cfg, turns).lab.state in {Ready, LabDomain.Failed}
    ensures AttemptsAtMost(Deliver(e, cfg, turns).records, m)
  {
    DeliveriesProgress(e, cfg, turns);
    var d := Deliver(e, cfg, turns);
    assert d.lab.state == Deploying && WithinBudget(d.records, m) ==> Slack(d.records, m) >= 0;
  }
}

// The bound on the runs of a deploy is the best possible: some provider
// failures make every run but the last end in an error.

module DeployBound {
  import opened Types
  import opened CloudDomain
  import opened LabDomain
  import opened DeployDomain
  import opened DeployProofs
  import opened DeployTermination

  // The provider works for a while, then fails every call.
  ghost function FailFrom(first: nat): Oracle {
    Oracle((t: nat) => Fine, (t: nat) => if t < first then Fine else Fault)
  }

  // Every machine still fits, whatever its flavor.
  ghost predicate Room(c: Cloud, n: nat) {
    c.used.Plus(Amount(4 * n, 8192 * n, 80 * n)).Within(c.capacity)
  }

  // k steps are done, step k has failed f times and no later step was tried.
  ghost predicate Stuck(e: Env, top: Topology, k: nat, f: nat) {
    && e.lab.project.Some? && e.lab.state == Deploying && |top.vms| > 0
    && RecordsSound(e.records) && DoneFrom(e.records, 0) == k < 4
    && RecordOf(e.records, STEPS[k]).attempt == f
    && (forall j :: k < j < |STEPS| ==> RecordOf(e.records, STEPS[j]).attempt == 0)
    && (k <= 2 ==> Room(e.cloud, |top.vms|))
    && (k == 3 ==> |StateAfter(e.records, 3).servers| > 0)
  }

  lemma FirstCallFails(e: Env, k: nat, st: DeployState, cfg: Config, t: nat, o: Oracle)
    requires e.lab.project.Some? && k < 4 && |cfg.topology.vms| > 0 && (k == 3 ==> |st.servers| > 0)
    requires o.cloud(t) == Fault
    ensures var r := RunStep(STEPS[k], e, st, cfg, t, o);
      r.cloud == e.cloud && r.vault == e.vault && r.t == t + 1 && r.fate == Fault
  {
  }

  // The first call of step k fails and the budget has room: one more failure.
  lemma StallsAt(e: Env, k: nat, f: nat, cfg: Config, now: Time, t: nat, o: Oracle)
    requires Steady(o) && Stuck(e, cfg.topology, k, f) && f + 1 < cfg.Budget()
    requires o.cloud(t + 2) == Fault
    ensures var d := RunFrom(e, k, StateAfter(e.records, k), cfg, now, t, o);
      d.verdict == Retry && d.env.lab == e.lab && Stuck(d.env, cfg.topology, k, f + 1)
  {
    hide RunStep, DoneFrom, RecordsSound, StateAfter, RecordOf;
    var s, rec, st := STEPS[k], RecordOf(e.records, STEPS[k]), StateAfter(e.records, k);
    NotDone(e.records, k);
    var begun := Put(e, s, Begun(rec));
    RecordWith(e.records, k, Begun(rec), k);
    FirstCallFails(begun, k, st, cfg, t + 2, o);
    var failed := Begun(rec).(status := Status.Failed);
    assert begun.records[s := failed] == e.records[s := failed];
    PutKeepsRecords(e.records, k, failed);
    forall j | 0 <= j < |STEPS|
      ensures RecordOf(e.records[s := failed], STEPS[j]) == if j == k then failed else RecordOf(e.records, STEPS[j])
    {
      RecordWith(e.records, k, failed, j);
    }
  }

  lemma NotDone(records: Records, k: nat)
    requires RecordsSound(records) && DoneFrom(records, 0) == k < |STEPS|
    ensures RecordOf(records, STEPS[k]).status != Succeeded
  {
  }

  // The calls step k makes when none fails.
  function Calls(k: nat, top: Topology): nat {
    if k == 0 then 2 else if k == 1 then 1 else |top.vms|
  }

  lemma {:induction false} RoomyBoots(c: Cloud, v: Vault, st: DeployState, p: ProjectId, l: LabId,
                                      vms: seq<VmSpec>, t: nat, o: Oracle)
    requires |st.servers| <= |vms| && Room(c, |vms| - |st.servers|)
    requires forall i :: t <= i < t + |vms| - |st.servers| ==> o.cloud(i) == Fine
    ensures var r := BootRest(c, v, st, p, l, vms, t, o);
      && r.fate == Fine && r.t == t + |vms| - |st.servers|
      && |r.st.servers| == |vms| && r.st.check == st.check
    decreases |vms| - |st.servers|
  {
    if |st.servers| < |vms| {
      assert o.cloud(t) == Fine;
      var b := c.BootServer(p, SpecFor(l, vms[|st.servers|], st.network, st.keypair), false);
      RoomyBoots(b.cloud, v, st.(servers := st.servers + [b.result.value]), p, l, vms, t + 1, o);
    }
  }

  lemma StepPasses(e: Env, k: nat, st: DeployState, cfg: Config, t: nat, o: Oracle)
    requires e.lab.project.Some? && k < 3 && Room(e.cloud, |cfg.topology.vms|)
    requires forall i :: t <= i < t + Calls(k, cfg.topology) ==> o.cloud(i) == Fine
    ensures var r := RunStep(STEPS[k], e, st, cfg, t, o);
      && r.fate == Fine && r.t == t + Calls(k, cfg.topology) && r.st.check == st.check
      && (k < 2 ==> Room(r.cloud, |cfg.topology.vms|))
      && (k == 2 ==> |r.st.servers| == |cfg.topology.vms|)
  {
    if k == 0 {
      assert o.cloud(t) == Fine && o.cloud(t + 1) == Fine;
    } else if k == 1 {
      assert o.cloud(t) == Fine;
    } else {
      RoomyBoots(e.cloud, e.vault, st.(servers := []), e.lab.project.value, e.lab.id, cfg.topology.vms, t, o);
    }
  }

  // Step k done, with cloud c and state st, leaves step k + 1 untried.
  lemma DoneIsStuck(e: Env, next: Env, top: Topology, k: nat, f: nat, done: Record)
    requires Stuck(e, top, k, f) && k < 3 && next.lab == e.lab && next.records == e.records[STEPS[k] := done]
    requires done.status == Succeeded && done.result.Some? && done.result.value.check == ""
    requires k < 2 ==> Room(next.cloud, |top.vms|)
    requires k == 2 ==> |done.result.value.servers| == |top.vms|
    ensures Stuck(next, top, k + 1, 0) && StateAfter(next.records, k + 1) == done.result.value
  {
    hide DoneFrom, RecordsSound, StateAfter, RecordOf;
    PutKeepsRecords(e.records, k, done);
    forall j | 0 <= j < |STEPS|
      ensures RecordOf(next.records, STEPS[j]) == if j == k then done else RecordOf(e.records, STEPS[j])
    {
      RecordWith(e.records, k, done, j);
    }
  }

  // Step k passes on its last attempt, and the next one fails its first.
  lemma PassesThenStalls(e: Env, k: nat, f: nat, cfg: Config, now: Time, t: nat, o: Oracle)
    requires Steady(o) && Stuck(e, cfg.topology, k, f) && k < 3 && 1 < cfg.Budget()
    requires forall i :: t + 2 <= i < t + 2 + Calls(k, cfg.topology) ==> o.cloud(i) == Fine
    requires o.cloud(t + 2 + Calls(k, cfg.topology) + 3) == Fault
    ensures var d := RunFrom(e, k, StateAfter(e.records, k), cfg, now, t, o);
      d.verdict == Retry && d.env.lab == e.lab && Stuck(d.env, cfg.topology, k + 1, 1)
  {
    hide RunStep, DoneFrom, RecordsSound, StateAfter, RecordOf, Calls, RunFrom;
    var s, rec, st := STEPS[k], RecordOf(e.records, STEPS[k]), StateAfter(e.records, k);
    NotDone(e.records, k);
    NoCheckYet(e.records, k);
    var begun := Put(e, s, Begun(rec));
    StepPasses(begun, k, st, cfg, t + 2, o);
    GoesOn(e, k, st, cfg, now, t, o);
    var r := RunStep(s, begun, st, cfg, t + 2, o);
    var next := Put(e.(cloud := r.cloud, vault := r.vault), s, Completed(rec, r.st));
    DoneIsStuck(e, next, cfg.topology, k, f, Completed(rec, r.st));
    StallsAt(next, k + 1, 0, cfg, now, r.t + 1, o);
  }

  lemma NoCheckYet(records: Records, k: nat)
    requires RecordsSound(records) && DoneFrom(records, 0) == k < 4
    ensures StateAfter(records, k).check == ""
  {
  }

  lemma RunIsRunFrom(e: Env, top: Topology, k: nat, f: nat, cfg: Config, now: Time, o: Oracle)
    requires Steady(o) && Stuck(e, top, k, f)
    ensures Run(e, cfg, now, o) == RunFrom(e, k, StateAfter(e.records, k), cfg, now, 1 + k, o)
  {
    hide RunFrom, RecordsSound;
    RunReplays(e, 0, START, cfg, now, 1, o);
  }

  // The deliveries of a deploy task with nothing else going on.
  ghost predicate Alone(e: Env, cfg: Config, turns: seq<Turn>) {
    forall i :: 0 <= i < |turns| ==> turns[i].cloud == Deliver(e, cfg, turns[..i]).cloud
  }

  lemma DeliverNext(e: Env, cfg: Config, turns: seq<Turn>, now: Time, o: Oracle)
    requires Alone(e, cfg, turns) && AllSteady(turns) && Steady(o) && Deliver(e, cfg, turns).lab.state == Deploying
    ensures var d := Deliver(e, cfg, turns); var all := turns + [Turn(d.cloud, now, o)];
      Alone(e, cfg, all) && AllSteady(all) && Deliver(e, cfg, all) == Run(d, cfg, now, o).env
  {
    hide Run;
    DroppedIsDecided(e, cfg, turns);
    var d := Deliver(e, cfg, turns);
    var all := turns + [Turn(d.cloud, now, o)];
    assert all[..|turns|] == turns;
    assert d.(cloud := d.cloud) == d;
    forall i | 0 <= i < |turns|
      ensures all[..i] == turns[..i]
    {
    }
  }

  // One more delivery fails at step k, where the lab is stuck or arrives.
  lemma StallsAgain(e: Env, k: nat, f: nat, cfg: Config, now: Time) returns (o: Oracle)
    requires Stuck(e, cfg.topology, k, f) && k < 4 && f + 1 < cfg.Budget()
    ensures Steady(o)
    ensures var d := Run(e, cfg, now, o).env; d.lab == e.lab && Stuck(d, cfg.topology, k, f + 1)
  {
    hide Stuck, Run, RunFrom;
    o := FailFrom(1 + k + 2);
    RunIsRunFrom(e, cfg.topology, k, f, cfg, now, o);
    StallsAt(e, k, f, cfg, now, 1 + k, o);
  }

  lemma StallsAtNext(e: Env, k: nat, cfg: Config, now: Time) returns (o: Oracle)
    requires Stuck(e, cfg.topology, k, cfg.Budget() - 1) && k < 3 && 1 < cfg.Budget()
    ensures Steady(o)
    ensures var d := Run(e, cfg, now, o).env; d.lab == e.lab && Stuck(d, cfg.topology, k + 1, 1)
  {
    hide Stuck, Run, RunFrom;
    o := FailFrom(1 + k + 2 + Calls(k, cfg.topology) + 3);
    RunIsRunFrom(e, cfg.topology, k, cfg.Budget() - 1, cfg, now, o);
    PassesThenStalls(e, k, cfg.Budget() - 1, cfg, now, 1 + k, o);
  }

  lemma StuckNext(e: Env, cfg: Config, turns: seq<Turn>, now: Time, o: Oracle, k: nat, f: nat)
    requires Alone(e, cfg, turns) && AllSteady(turns) && Steady(o) && e.lab.state == Deploying
    requires Deliver(e, cfg, turns).lab == e.lab
    requires var d := Run(Deliver(e, cfg, turns), cfg, now, o).env; d.lab == e.lab && Stuck(d, cfg.topology, k, f)
    ensures StuckBy(e, cfg, turns + [Turn(Deliver(e, cfg, turns).cloud, now, o)], k, f)
  {
    hide Stuck, Run, Deliver, Alone, AllSteady;
    DeliverNext(e, cfg, turns, now, o);
  }

  // The deliveries leave the lab stuck at step k after f failures.
  ghost predicate StuckBy(e: Env, cfg: Config, turns: seq<Turn>, k: nat, f: nat) {
    && Alone(e, cfg, turns) && AllSteady(turns)
    && Deliver(e, cfg, turns).lab == e.lab && Stuck(Deliver(e, cfg, turns), cfg.topology, k, f)
  }

  // The failures of the first k steps, m each.
  function Spent(k: nat, m: int): int {
    k * m
  }

  lemma SpentNext(k: nat, m: int)
    ensures Spent(0, m) == 0 && (k > 0 ==> Spent(k, m) == Spent(k - 1, m) + m)
  {
  }

  lemma StuckIsDeploying(e: Env, top: Topology)
    requires Stuck(e, top, 0, 0)
    ensures e.lab.state == Deploying
  {
  }

  lemma StuckFirst(e: Env, cfg: Config, now: Time) returns (turns: seq<Turn>)
    requires Stuck(e, cfg.topology, 0, 0) && 1 < cfg.Budget()
    ensures |turns| == 1 && StuckBy(e, cfg, turns, 0, 1)
  {
    StuckIsDeploying(e, cfg.topology);
    NoDeliveries(e, cfg);
    hide Stuck, Run, Deliver, Alone, AllSteady, Config.Budget;
    var o := StallsAgain(e, 0, 0, cfg, now);
    StuckNext(e, cfg, [], now, o, 0, 1);
    turns := [] + [Turn(Deliver(e, cfg, []).cloud, now, o)];
  }

  lemma StuckMore(e: Env, cfg: Config, before: seq<Turn>, now: Time, k: nat, f: nat) returns (turns: seq<Turn>)
    requires e.lab.state == Deploying && StuckBy(e, cfg, before, k, f) && k < 4 && f + 1 < cfg.Budget()
    ensures |turns| == |before| + 1 && StuckBy(e, cfg, turns, k, f + 1)
  {
    hide Stuck, Run, Deliver, Alone, AllSteady, Config.Budget;
    var o := StallsAgain(Deliver(e, cfg, before), k, f, cfg, now);
    StuckNext(e, cfg, before, now, o, k, f + 1);
    turns := before + [Turn(Deliver(e, cfg, before).cloud, now, o)];
  }

  lemma StuckOver(e: Env, cfg: Config, before: seq<Turn>, now: Time, k: nat) returns (turns: seq<Turn>)
    requires e.lab.state == Deploying && StuckBy(e, cfg, before, k, cfg.Budget() - 1) && k < 3 && 1 < cfg.Budget()
    ensures |turns| == |before| + 1 && StuckBy(e, cfg, turns, k + 1, 1)
  {
    hide Stuck, Run, Deliver, Alone, AllSteady, Config.Budget;
    var o := StallsAtNext(Deliver(e, cfg, before), k, cfg, now);
    StuckNext(e, cfg, before, now, o, k + 1, 1);
    turns := before + [Turn(Deliver(e, cfg, before).cloud, now, o)];
  }

  lemma {:induction false} StuckAfter(e: Env, cfg: Config, now: Time, k: nat, f: nat) returns (turns: seq<Turn>)
    requires Stuck(e, cfg.topology, 0, 0) && k < 4 && 1 <= f < cfg.Budget()
    ensures |turns| == Spent(k, cfg.Budget() - 1) + f && StuckBy(e, cfg, turns, k, f)
    decreases k, f
  {
    hide Spent, Stuck, StuckBy, Config.Budget;
    StuckIsDeploying(e, cfg.topology);
    SpentNext(k, cfg.Budget() - 1);
    if f > 1 {
      turns := StuckAfter(e, cfg, now, k, f - 1);
      turns := StuckMore(e, cfg, turns, now, k, f - 1);
    } else if k > 0 {
      turns := StuckAfter(e, cfg, now, k - 1, cfg.Budget() - 1);
      turns := StuckOver(e, cfg, turns, now, k - 1);
    } else {
      turns := StuckFirst(e, cfg, now);
    }
  }

  lemma NoDeliveries(e: Env, cfg: Config)
    ensures Deliver(e, cfg, []) == e && Alone(e, cfg, []) && AllSteady([])
  {
  }

  // For every attempt budget there are provider failures that leave the lab
  // undecided after 4(m - 1) deliveries, one fewer than always suffice.
  lemma BoundIsReached(e: Env, cfg: Config, now: Time) returns (turns: seq<Turn>)
    requires e.lab.project.Some? && e.lab.state == Deploying && e.records == map[]
    requires |cfg.topology.vms| > 0 && Room(e.cloud, |cfg.topology.vms|)
    ensures var m := if cfg.maxAttempts > 0 then cfg.maxAttempts else 3; |turns| == 4 * (m - 1)
    ensures AllSteady(turns) && Alone(e, cfg, turns)
    ensures Deliver(e, cfg, turns).lab == e.lab
  {
    if cfg.Budget() == 1 {
      turns := [];
    } else {
      assert Stuck(e, cfg.topology, 0, 0);
      turns := StuckAfter(e, cfg, now, 3, cfg.Budget() - 1);
    }
  }

  // The stand the gateway deploys, on a new provider, with the default budget
  // of three attempts: eight deliveries may not be enough, nine always are.
  lemma StandThreeTakesNineRuns(e: Env, cfg: Config, now: Time) returns (turns: seq<Turn>)
    requires e.lab.project.Some? && e.lab.state == Deploying && e.records == map[] && e.cloud == NewCloud(NOTHING)
    requires cfg.topology == STAND_THREE && cfg.maxAttempts == 0
    ensures |turns| == 8 && AllSteady(turns) && Alone(e, cfg, turns) && Deliver(e, cfg, turns).lab == e.lab
    ensures forall more :: AllSteady(more) && |more| >= 9 ==>
      Deliver(e, cfg, more).lab.state in {Ready, LabDomain.Failed}
  {
    hide Deliver, Run;
    StandThreeIsDistinct();
    turns := BoundIsReached(e, cfg, now);
    forall more | AllSteady(more) && |more| >= 9
      ensures Deliver(e, cfg, more).lab.state in {Ready, LabDomain.Failed}
    {
      DeployTerminates(e, cfg, more, 3);
    }
  }
}

// Crash-resume equivalence: however often a deploy fails, crashes and is run
// again, a lab that becomes ready is the lab one uninterrupted run would have
// made, and the cloud is the cloud it would have left.

module Resume {
  import opened Types
  import opened CloudDomain
  import opened LabDomain
  import opened DeployDomain
  import opened DeployProofs

  // A finished deploy: the cloud it leaves and the handles it reports.
  datatype Stand = Stand(cloud: Cloud, resources: Resources)

  // The provider calls of the machines from number |r.servers| on, with no
  // failures, no records and no resumption.
  ghost function Boots(c: Cloud, p: ProjectId, l: LabId, vms: seq<VmSpec>, r: Resources): Option<Stand>
    requires |r.servers| <= |vms|
    decreases |vms| - |r.servers|
  {
    if |r.servers| == |vms| then Some(Stand(c, r))
    else
      var b := c.BootServer(p, SpecFor(l, vms[|r.servers|], r.network, r.keypair), false);
      if b.result.Err? then None else Boots(b.cloud, p, l, vms, r.(servers := r.servers + [b.result.value]))
  }

  ghost function Addresses(c: Cloud, r: Resources): Option<Stand>
    requires |r.ips| <= |r.servers|
    decreases |r.servers| - |r.ips|
  {
    if |r.ips| == |r.servers| then Some(Stand(c, r))
    else
      var a := c.AllocateFloatingIp(r.servers[|r.ips|], false);
      if a.result.Err? then None else Addresses(a.cloud, r.(ips := r.ips + [a.result.value]))
  }

  // What is still to be built once the first k steps are done. Of r only what
  // those steps made is used.
  ghost function Remaining(c: Cloud, p: ProjectId, l: LabId, top: Topology, r: Resources, k: nat): Option<Stand>
    decreases 5 - k
  {
    if k == 0 then
      Remaining(c.CreateKeypair(p, KeyName(l), false).cloud, p, l, top, Resources([], None, [], Some(KeyName(l))), 1)
    else if k == 1 then
      var n := c.CreateNetwork(p, NetName(l), top.cidr, false);
      Remaining(n.cloud, p, l, top, Resources([], Some(n.result.value), [], r.keypair), 2)
    else if k == 2 then
      var b := Boots(c, p, l, top.vms, Resources([], r.network, [], r.keypair));
      if b.None? then None else Remaining(b.value.cloud, p, l, top, b.value.resources, 3)
    else if k == 3 then Addresses(c, Resources(r.servers, r.network, [], r.keypair))
    else Some(Stand(c, r))
  }

  // The whole stand of lab l in project p, built from cloud c on.
  ghost function Built(c: Cloud, p: ProjectId, l: LabId, top: Topology): Option<Stand> {
    Remaining(c, p, l, top, NO_RESOURCES, 0)
  }

  function Handles(st: DeployState): Resources {
    Resources(st.servers, st.network, st.ips, st.keypair)
  }

  // ---------------------------------------------------------------------
  // Work already done is not done again.

  lemma {:induction false} BootsSkip(c: Cloud, p: ProjectId, l: LabId, top: Topology, r: Resources, n: nat)
    requires c.Valid() && n <= |r.servers| <= |top.vms|
    requires forall i :: 0 <= i < |r.servers| ==> c.IsServer(r.servers[i], p, VmName(l, top.vms[i].name))
    ensures Boots(c, p, l, top.vms, r.(servers := r.servers[..n])) == Boots(c, p, l, top.vms, r)
    decreases |r.servers| - n
  {
    if n < |r.servers| {
      RecreateReturnsSame(c, p, r.servers[n]);
      assert c.IsServer(r.servers[n], p, VmName(l, top.vms[n].name));
      assert r.servers[..n] + [r.servers[n]] == r.servers[..n + 1];
      BootsSkip(c, p, l, top, r, n + 1);
    } else {
      assert r.servers[..n] == r.servers;
    }
  }

  lemma {:induction false} AddressesSkip(c: Cloud, r: Resources, n: nat)
    requires c.Valid() && n <= |r.ips| <= |r.servers|
    requires forall i :: 0 <= i < |r.ips| ==> c.IsAddress(r.ips[i], r.servers[i])
    ensures Addresses(c, r.(ips := r.ips[..n])) == Addresses(c, r)
    decreases |r.ips| - n
  {
    if n < |r.ips| {
      AddressAgain(c, r.ips[n], r.servers[n]);
      assert r.ips[..n] + [r.ips[n]] == r.ips[..n + 1];
      AddressesSkip(c, r, n + 1);
    } else {
      assert r.ips[..n] == r.ips;
    }
  }

  // While step k's work is held, doing it again changes nothing.
  lemma StepSkips(c: Cloud, p: ProjectId, l: LabId, top: Topology, st: DeployState, k: nat)
    requires c.Valid() && 0 < k <= 4 && Holds(c, p, l, top, st, k)
    requires k == 4 ==> c.issued <= ADDRESSES
    ensures Remaining(c, p, l, top, Handles(st), k - 1) == Remaining(c, p, l, top, Handles(st), k)
  {
    hide Cloud.Valid;
    if k == 1 {
      assert c.keypairs + {(p, KeyName(l))} == c.keypairs;
      assert c.CreateKeypair(p, KeyName(l), false).cloud == c;
    } else if k == 2 {
      RecreateReturnsSame(c, p, st.network.value);
      assert c.CreateNetwork(p, NetName(l), top.cidr, false) == Reply(c, Ok(st.network.value));
    } else if k == 3 {
      var r := Resources(st.servers, st.network, [], st.keypair);
      BootsSkip(c, p, l, top, r, 0);
      assert r.(servers := r.servers[..0]) == Resources([], st.network, [], st.keypair);
    } else {
      var r := Handles(st);
      AddressesSkip(c, r, 0);
      assert r.(ips := r.ips[..0]) == Resources(st.servers, st.network, [], st.keypair);
    }
  }

  lemma {:induction false} HeldLeadsToBuilt(c: Cloud, p: ProjectId, l: LabId, top: Topology, st: DeployState, k: nat)
    requires c.Valid() && k <= 4 && Holds(c, p, l, top, st, k)
    requires k == 4 ==> c.issued <= ADDRESSES
    ensures Remaining(c, p, l, top, Handles(st), k) == Built(c, p, l, top)
  {
    if k > 0 {
      hide Cloud.Valid, Remaining;
      StepSkips(c, p, l, top, st, k);
      assert Holds(c, p, l, top, st, k - 1);
      HeldLeadsToBuilt(c, p, l, top, st, k - 1);
    } else {
      assert Remaining(c, p, l, top, Handles(st), 0) == Remaining(c, p, l, top, NO_RESOURCES, 0);
    }
  }

  // ---------------------------------------------------------------------
  // No call of a step, whatever becomes of it, changes what will be built.

  lemma KeypairKeepsBuilt(c: Cloud, p: ProjectId, l: LabId, top: Topology, fault: bool)
    ensures Built(c.CreateKeypair(p, KeyName(l), fault).cloud, p, l, top) == Built(c, p, l, top)
  {
    var d := c.CreateKeypair(p, KeyName(l), false).cloud;
    assert d.keypairs + {(p, KeyName(l))} == d.keypairs;
    assert d.CreateKeypair(p, KeyName(l), false).cloud == d;
  }

  lemma NetworkKeepsBuilt(c: Cloud, p: ProjectId, l: LabId, top: Topology, st: DeployState, fault: bool)
    requires c.Valid() && HoldsKeypair(c, p, l, st) && StandAsSpecified(c, p, l, top)
    ensures Built(c.CreateNetwork(p, NetName(l), top.cidr, fault).cloud, p, l, top) == Built(c, p, l, top)
  {
    hide Cloud.Valid, StandAsSpecified, Built, Grows;
    NetworkGrows(c, p, l, top, fault);
    var n := c.CreateNetwork(p, NetName(l), top.cidr, fault);
    if n.result.Ok? {
      HoldingSurvivesGrowth(c, n.cloud, p, l, top, st, 1);
      var after := st.(network := Some(n.result.value));
      HeldLeadsToBuilt(c, p, l, top, st, 1);
      HeldLeadsToBuilt(n.cloud, p, l, top, after, 2);
      assert Remaining(c, p, l, top, Handles(st), 1) == Remaining(n.cloud, p, l, top, Handles(after), 2);
    }
  }

  // Built depends on the machines only through the rest of the boots.
  lemma BuiltByBoots(c: Cloud, p: ProjectId, l: LabId, top: Topology, st: DeployState)
    requires c.Valid() && HoldsKeypair(c, p, l, st) && HoldsNetwork(c, p, l, st)
    requires HoldsServers(c, p, l, top, st, |st.servers|)
    ensures var b := Boots(c, p, l, top.vms, Resources(st.servers, st.network, [], st.keypair));
      Built(c, p, l, top) == if b.None? then None else Remaining(b.value.cloud, p, l, top, b.value.resources, 3)
  {
    hide Cloud.Valid, Built;
    var r := Resources(st.servers, st.network, [], st.keypair);
    HeldLeadsToBuilt(c, p, l, top, st, 2);
    BootsSkip(c, p, l, top, r, 0);
    assert r.(servers := r.servers[..0]) == Resources([], st.network, [], st.keypair);
  }

  lemma {:induction false} BootRestKeepsBuilt(c: Cloud, v: Vault, st: DeployState, p: ProjectId, l: LabId,
                                              top: Topology, t: nat, o: Oracle)
    requires c.Valid() && StandAsSpecified(c, p, l, top) && HoldsServers(c, p, l, top, st, |st.servers|)
    requires HoldsKeypair(c, p, l, st) && HoldsNetwork(c, p, l, st)
    ensures Built(BootRest(c, v, st, p, l, top.vms, t, o).cloud, p, l, top) == Built(c, p, l, top)
    decreases |top.vms| - |st.servers|
  {
    hide Cloud.Valid, Grows, StandAsSpecified, Built, Remaining;
    if |st.servers| < |top.vms| && o.cloud(t) == Fine {
      var i := |st.servers|;
      BootGrows(c, p, l, top, i, st, false);
      var b := c.BootServer(p, SpecFor(l, top.vms[i], st.network, st.keypair), false);
      if b.result.Ok? {
        var next := st.(servers := st.servers + [b.result.value]);
        ServersSurviveGrowth(c, b.cloud, p, l, top, st, i);
        HoldingSurvivesGrowth(c, b.cloud, p, l, top, st, 2);
        BuiltByBoots(c, p, l, top, st);
        BuiltByBoots(b.cloud, p, l, top, next);
        BootRestKeepsBuilt(b.cloud, v, next, p, l, top, t + 1, o);
      }
    }
  }

  // And on the addresses only through the rest of the allocations.
  lemma BuiltByAddresses(c: Cloud, p: ProjectId, l: LabId, top: Topology, st: DeployState)
    requires c.Valid() && Holds(c, p, l, top, st, 3) && HoldsAddresses(c, st, |st.ips|) && c.issued <= ADDRESSES
    ensures Built(c, p, l, top) == Addresses(c, Handles(st))
  {
    hide Cloud.Valid, Built;
    HeldLeadsToBuilt(c, p, l, top, st, 3);
    AddressesSkip(c, Handles(st), 0);
    assert Handles(st).(ips := st.ips[..0]) == Resources(st.servers, st.network, [], st.keypair);
  }

  lemma {:induction false} AddressRestKeepsBuilt(c: Cloud, v: Vault, st: DeployState, p: ProjectId, l: LabId,
                                                 top: Topology, t: nat, o: Oracle)
    requires c.Valid() && StandAsSpecified(c, p, l, top)
    requires Holds(c, p, l, top, st, 3) && HoldsAddresses(c, st, |st.ips|)
    requires AddressRest(c, v, st, t, o).cloud.issued <= ADDRESSES
    ensures Built(AddressRest(c, v, st, t, o).cloud, p, l, top) == Built(c, p, l, top)
    decreases |st.servers| - |st.ips|
  {
    hide Cloud.Valid, Grows, StandAsSpecified, Built, Remaining;
    if |st.ips| < |st.servers| && o.cloud(t) == Fine && o.cloud(t + 1) == Fine {
      var id := st.servers[|st.ips|];
      AddressGrows(c, p, l, top, id, false);
      var a := c.AllocateFloatingIp(id, false);
      if a.result.Ok? {
        var next := st.(ips := st.ips + [a.result.value]);
        AddressesSurviveGrowth(c, a.cloud, p, l, st, |st.ips|);
        HoldingSurvivesGrowth(c, a.cloud, p, l, top, st, 3);
        AddressRestKeepsBuilt(a.cloud, v, next, p, l, top, t + 2, o);
        AddressRestGrows(a.cloud, v, next, p, l, top, t + 2, o);
        IssuedGrows(c, a.cloud, p, l);
        IssuedGrows(a.cloud, AddressRest(a.cloud, v, next, t + 2, o).cloud, p, l);
        BuiltByAddresses(c, p, l, top, st);
        BuiltByAddresses(a.cloud, p, l, top, next);
      }
    }
  }

  lemma IssuedGrows(c: Cloud, d: Cloud, p: ProjectId, l: LabId)
    requires Grows(c, d, p, l)
    ensures c.issued <= d.issued
  {
  }

  lemma StepKeepsBuilt(e: Env, k: nat, st: DeployState, cfg: Config, t: nat, o: Oracle)
    requires k < |STEPS| && e.cloud.Valid() && e.lab.project.Some?
    requires StandAsSpecified(e.cloud, e.lab.project.value, e.lab.id, cfg.topology)
    requires Holds(e.cloud, e.lab.project.value, e.lab.id, cfg.topology, st, k)
    requires RunStep(STEPS[k], e, st, cfg, t, o).cloud.issued <= ADDRESSES
    ensures var p, l := e.lab.project.value, e.lab.id;
      Built(RunStep(STEPS[k], e, st, cfg, t, o).cloud, p, l, cfg.topology) == Built(e.cloud, p, l, cfg.topology)
  {
    hide Cloud.Valid, StandAsSpecified, Built;
    var c, v, p, l, top := e.cloud, e.vault, e.lab.project.value, e.lab.id, cfg.topology;
    if k == 0 {
      KeypairKeepsBuilt(c, p, l, top, o.cloud(t) == Fault);
    } else if k == 1 {
      NetworkKeepsBuilt(c, p, l, top, st, o.cloud(t) == Fault);
    } else if k == 2 {
      BootRestKeepsBuilt(c, v, st.(servers := []), p, l, top, t, o);
    } else if k == 3 {
      AddressRestKeepsBuilt(c, v, st.(ips := []), p, l, top, t, o);
    }
  }

  // ---------------------------------------------------------------------
  // Nor does any run, however it ends.

  ghost predicate KeepsBuilt(before: Env, after: Env, top: Topology) {
    && before.lab.project.Some?
    && Built(after.cloud, before.lab.project.value, before.lab.id, top)
         == Built(before.cloud, before.lab.project.value, before.lab.id, top)
  }

  lemma KeptIssues(a: Env, b: Env, top: Topology)
    requires Kept(a, b, top)
    ensures a.cloud.issued <= b.cloud.issued
  {
  }

  lemma {:induction false} RunFromKeepsBuilt(e: Env, k: nat, st: DeployState, cfg: Config, now: Time, t: nat, o: Oracle)
    requires Resumable(e, cfg.topology) && e.lab.state == Deploying && cfg.topology.NamesDistinct()
    requires k <= DoneFrom(e.records, 0) && st == StateAfter(e.records, k)
    requires RunFrom(e, k, st, cfg, now, t, o).env.cloud.issued <= ADDRESSES
    ensures KeepsBuilt(e, RunFrom(e, k, st, cfg, now, t, o).env, cfg.topology)
    decreases |STEPS| - k
  {
    hide Cloud.Valid, StandAsSpecified, Holds, Built;
    if k < |STEPS| && o.store(t) == Fine {
      var s, rec := STEPS[k], RecordOf(e.records, STEPS[k]);
      if rec.status == Succeeded {
        RunFromKeepsBuilt(e, k + 1, Overlay(st, rec.result), cfg, now, t + 1, o);
      } else if o.store(t + 1) == Fine {
        PutKeepsRecords(e.records, k, Begun(rec));
        AttemptKeepsBuilt(Put(e, s, Begun(rec)), k, st, cfg, now, t + 2, o);
      }
    }
  }

  lemma {:induction false} AttemptKeepsBuilt(e: Env, k: nat, st: DeployState, cfg: Config, now: Time, t: nat, o: Oracle)
    requires Resumable(e, cfg.topology) && e.lab.state == Deploying && cfg.topology.NamesDistinct()
    requires k < |STEPS| && k == DoneFrom(e.records, 0) && st == StateAfter(e.records, k)
    requires Attempt(e, k, st, cfg, now, t, o).env.cloud.issued <= ADDRESSES
    ensures KeepsBuilt(e, Attempt(e, k, st, cfg, now, t, o).env, cfg.topology)
    decreases |STEPS| - k, 0
  {
    hide Cloud.Valid, StandAsSpecified, Holds, Built, RunStep, DoneFrom, StateAfter, After, RunFrom, RecordsSound;
    var s, rec := STEPS[k], RecordOf(e.records, STEPS[k]);
    var r := RunStep(s, e, st, cfg, t, o);
    if r.fate == Fine && o.store(r.t) == Fine {
      var done := rec.(status := Succeeded, result := Some(r.st));
      var next := Put(e.(cloud := r.cloud, vault := r.vault), s, done);
      StepIsAfter(e, k, st, cfg, t, o, next, done);
      DoneLeadsOn(e, next, k, done, cfg);
      RunFromKeepsBuilt(next, k + 1, r.st, cfg, now, r.t + 1, o);
      RunFromIssues(next, k + 1, r.st, cfg, now, r.t + 1, o);
    }
    assert Attempt(e, k, st, cfg, now, t, o).env.cloud.issued >= r.cloud.issued;
    StepKeepsBuilt(e, k, st, cfg, t, o);
  }

  lemma DoneLeadsOn(e: Env, next: Env, k: nat, done: Record, cfg: Config)
    requires After(e, next, cfg.topology, k + 1) && k < |STEPS|
    requires done.result.Some? && next.records == e.records[STEPS[k] := done]
    ensures Resumable(next, cfg.topology) && next.lab == e.lab && DoneFrom(next.records, 0) == k + 1
    ensures StateAfter(next.records, k + 1) == done.result.value
  {
    hide Kept, Resumable, StateAfter;
    AfterIsKept(e, next, cfg.topology, k + 1);
    StateJustRecorded(e.records, k, done);
  }

  lemma RunFromIssues(e: Env, k: nat, st: DeployState, cfg: Config, now: Time, t: nat, o: Oracle)
    requires Resumable(e, cfg.topology) && e.lab.state == Deploying && cfg.topology.NamesDistinct()
    requires k <= DoneFrom(e.records, 0) && st == StateAfter(e.records, k)
    ensures e.cloud.issued <= RunFrom(e, k, st, cfg, now, t, o).env.cloud.issued
  {
    hide Kept, RunFrom, StateAfter, DoneFrom;
    RunFromKeeps(e, k, st, cfg, now, t, o);
    KeptIssues(e, RunFrom(e, k, st, cfg, now, t, o).env, cfg.topology);
  }

  // A lab's deploy task delivered again and again, its cloud otherwise quiet.
  ghost function Retried(e: Env, cfg: Config, runs: seq<(Time, Oracle)>): Env {
    if runs == [] then e
    else
      var last := runs[|runs| - 1];
      Run(Retried(e, cfg, runs[..|runs| - 1]), cfg, last.0, last.1).env
  }

  // Where the runs have led: still resumable, or given up, or provisioned.
  ghost predicate Led(e: Env, d: Env, top: Topology) {
    && e.lab.project.Some? && d.lab.project == e.lab.project && d.lab.id == e.lab.id
    && d.cloud.Valid() && e.cloud.issued <= d.cloud.issued
    && (|| (d.lab == e.lab && Resumable(d, top))
        || d.lab.state == LabDomain.Failed
        || (d.lab.state == Ready && Provisioned(d.cloud, e.lab.project.value, e.lab.id, top, d.lab.resources)))
  }

  lemma RunLeads(e: Env, cfg: Config, now: Time, o: Oracle)
    requires Resumable(e, cfg.topology) && e.lab.state == Deploying && cfg.topology.NamesDistinct()
    ensures var d := Run(e, cfg, now, o).env;
      Led(e, d, cfg.topology) && (d.cloud.issued <= ADDRESSES ==> KeepsBuilt(e, d, cfg.topology))
  {
    hide Cloud.Valid, StandAsSpecified, Provisioned, Holds, RunFrom, Built;
    RunKeeps(e, cfg, now, o);
    if o.store(0) == Fine && Run(e, cfg, now, o).env.cloud.issued <= ADDRESSES {
      RunFromKeepsBuilt(e, 0, START, cfg, now, 1, o);
    }
  }

  lemma {:induction false} RetriesLead(e: Env, cfg: Config, runs: seq<(Time, Oracle)>)
    requires Resumable(e, cfg.topology) && e.lab.state == Deploying && cfg.topology.NamesDistinct()
    ensures var d := Retried(e, cfg, runs);
      Led(e, d, cfg.topology) && (d.cloud.issued <= ADDRESSES ==> KeepsBuilt(e, d, cfg.topology))
  {
    hide Cloud.Valid, Resumable, Provisioned, RunFrom, Built;
    if runs == [] {
      ResumableIsValid(e, cfg.topology);
    } else {
      var front, last := runs[..|runs| - 1], runs[|runs| - 1];
      RetriesLead(e, cfg, front);
      var d := Retried(e, cfg, front);
      if d.lab.state == Deploying {
        RunLeads(d, cfg, last.0, last.1);
      }
    }
  }

  lemma ResumableIsValid(e: Env, top: Topology)
    requires Resumable(e, top)
    ensures e.cloud.Valid() && e.lab.project.Some?
  {
  }

  // A provisioned lab has nothing left to build.
  lemma ProvisionedIsBuilt(c: Cloud, p: ProjectId, l: LabId, top: Topology, r: Resources)
    requires c.Valid() && Provisioned(c, p, l, top, r) && c.issued <= ADDRESSES
    ensures Built(c, p, l, top) == Some(Stand(c, r))
  {
    hide Cloud.Valid, Built;
    HeldLeadsToBuilt(c, p, l, top, DeployState(r.keypair, Some(0), r.network, r.servers, r.ips, ""), 4);
  }

  // ---------------------------------------------------------------------
  // One uninterrupted run.

  lemma {:induction false} FaultlessBoots(c: Cloud, v: Vault, st: DeployState, p: ProjectId, l: LabId,
                                          vms: seq<VmSpec>, t: nat, o: Oracle)
    requires Faultless(o) && |st.servers| <= |vms|
    ensures var b := Boots(c, p, l, vms, Resources(st.servers, st.network, [], st.keypair));
      var r := BootRest(c, v, st, p, l, vms, t, o);
      && (r.fate == Fine <==> b.Some?) && r.fate != Death && r.vault == v && r.st == st.(servers := r.st.servers)
      && (b.Some? ==> b.value == Stand(r.cloud, Resources(r.st.servers, st.network, [], st.keypair)))
    decreases |vms| - |st.servers|
  {
    if |st.servers| < |vms| {
      var b := c.BootServer(p, SpecFor(l, vms[|st.servers|], st.network, st.keypair), false);
      if b.result.Ok? {
        FaultlessBoots(b.cloud, v, st.(servers := st.servers + [b.result.value]), p, l, vms, t + 1, o);
      }
    }
  }

  lemma {:induction false} FaultlessAddresses(c: Cloud, v: Vault, st: DeployState, t: nat, o: Oracle)
    requires Faultless(o) && |st.ips| <= |st.servers|
    ensures var a := Addresses(c, Handles(st)); var r := AddressRest(c, v, st, t, o);
      && (r.fate == Fine <==> a.Some?) && r.fate != Death && r.vault == v && r.st == st.(ips := r.st.ips)
      && (a.Some? ==> a.value == Stand(r.cloud, Handles(r.st)))
    decreases |st.servers| - |st.ips|
  {
    if |st.ips| < |st.servers| {
      var a := c.AllocateFloatingIp(st.servers[|st.ips|], false);
      if a.result.Ok? {
        FaultlessAddresses(a.cloud, v, st.(ips := st.ips + [a.result.value]), t + 2, o);
      }
    }
  }

  lemma FaultlessStep(e: Env, k: nat, st: DeployState, cfg: Config, t: nat, o: Oracle)
    requires Faultless(o) && k < |STEPS| && e.lab.project.Some?
    requires Remaining(e.cloud, e.lab.project.value, e.lab.id, cfg.topology, Handles(st), k).Some?
    ensures var r := RunStep(STEPS[k], e, st, cfg, t, o); var p, l, top := e.lab.project.value, e.lab.id, cfg.topology;
      r.fate == Fine
        && Remaining(r.cloud, p, l, top, Handles(r.st), k + 1) == Remaining(e.cloud, p, l, top, Handles(st), k)
  {
    if k == 2 {
      FaultlessBoots(e.cloud, e.vault, st.(servers := []), e.lab.project.value, e.lab.id, cfg.topology.vms, t, o);
    } else if k == 3 {
      FaultlessAddresses(e.cloud, e.vault, st.(ips := []), t, o);
    }
  }

  ghost predicate NoneDoneFrom(records: Records, k: nat) {
    forall j :: k <= j < |STEPS| ==> RecordOf(records, STEPS[j]).status != Succeeded
  }

  lemma NoneDoneAfter(records: Records, k: nat, r: Record)
    requires NoneDoneFrom(records, k) && k < |STEPS|
    ensures NoneDoneFrom(records[STEPS[k] := r], k + 1) && RecordOf(records, STEPS[k]).status != Succeeded
  {
    forall j | k + 1 <= j < |STEPS|
      ensures RecordOf(records[STEPS[k] := r], STEPS[j]) == RecordOf(records, STEPS[j])
    {
      RecordWith(records, k, r, j);
    }
  }

  // The run ended well and left the stand expected of it.
  ghost predicate Delivers(d: Outcome, stand: Option<Stand>) {
    d.verdict == Ended && d.env.lab.state == Ready && stand == Some(Stand(d.env.cloud, d.env.lab.resources))
  }

  lemma FaultlessEnd(e: Env, st: DeployState, cfg: Config, now: Time, t: nat, o: Oracle)
    requires Faultless(o) && e.lab.project.Some? && e.lab.state == Deploying
    ensures Delivers(RunFrom(e, |STEPS|, st, cfg, now, t, o), Some(Stand(e.cloud, Handles(st))))
  {
  }

  lemma {:induction false} FaultlessRunFrom(e: Env, k: nat, st: DeployState, cfg: Config, now: Time, t: nat, o: Oracle)
    requires Faultless(o) && e.lab.project.Some? && e.lab.state == Deploying && k <= |STEPS|
    requires NoneDoneFrom(e.records, k)
    requires Remaining(e.cloud, e.lab.project.value, e.lab.id, cfg.topology, Handles(st), k).Some?
    ensures Delivers(RunFrom(e, k, st, cfg, now, t, o),
                     Remaining(e.cloud, e.lab.project.value, e.lab.id, cfg.topology, Handles(st), k))
    decreases |STEPS| - k
  {
    hide RunStep, RunFrom, Delivers, NoneDoneFrom;
    if k == |STEPS| {
      FaultlessEnd(e, st, cfg, now, t, o);
    } else {
      hide Remaining;
      var s, rec := STEPS[k], RecordOf(e.records, STEPS[k]);
      var begun := Put(e, s, Begun(rec));
      FaultlessStep(begun, k, st, cfg, t + 2, o);
      var r := RunStep(s, begun, st, cfg, t + 2, o);
      NoneDoneAfter(e.records, k, Completed(rec, r.st));
      GoesOn(e, k, st, cfg, now, t, o);
      var next := Put(e.(cloud := r.cloud, vault := r.vault), s, Completed(rec, r.st));
      FaultlessRunFrom(next, k + 1, r.st, cfg, now, r.t + 1, o);
    }
  }

  // A run without failures makes the lab ready whenever the stand can be built
  // at all, and makes exactly that stand.
  lemma FaultlessRunBuilds(e: Env, cfg: Config, now: Time, o: Oracle)
    requires Faultless(o) && Resumable(e, cfg.topology) && e.lab.state == Deploying
    requires e.cloud.issued <= ADDRESSES
    requires Built(e.cloud, e.lab.project.value, e.lab.id, cfg.topology).Some?
    ensures var d := Run(e, cfg, now, o);
      && d.verdict == Ended && d.env.lab.state == Ready
      && Some(Stand(d.env.cloud, d.env.lab.resources)) == Built(e.cloud, e.lab.project.value, e.lab.id, cfg.topology)
  {
    hide Cloud.Valid, Built, RunFrom, StandAsSpecified;
    var n := DoneFrom(e.records, 0);
    var st := StateAfter(e.records, n);
    RunReplays(e, 0, START, cfg, now, 1, o);
    var p, l, top := e.lab.project.value, e.lab.id, cfg.topology;
    if n <= 4 {
      HeldLeadsToBuilt(e.cloud, p, l, top, st, n);
    } else {
      HeldLeadsToBuilt(e.cloud, p, l, top, st, 4);
      assert Remaining(e.cloud, p, l, top, Handles(st), 4) == Remaining(e.cloud, p, l, top, Handles(st), 5);
    }
    FaultlessRunFrom(e, n, st, cfg, now, 1 + n, o);
  }

  // Crash-resume equivalence: a lab made ready by any runs, failing and
  // crashing anywhere, has the handles, and leaves the cloud, that a single
  // uninterrupted run in their place would have. (The secret's id may differ;
  // and the numbers of the addresses must not wrap.)
  lemma InterruptionsDoNotMatter(e: Env, cfg: Config, runs: seq<(Time, Oracle)>, now: Time, o: Oracle)
    requires Resumable(e, cfg.topology) && e.lab.state == Deploying && cfg.topology.NamesDistinct()
    requires Faultless(o)
    requires Retried(e, cfg, runs).lab.state == Ready && Retried(e, cfg, runs).cloud.issued <= ADDRESSES
    ensures var interrupted, smooth := Retried(e, cfg, runs), Run(e, cfg, now, o).env;
      && Built(e.cloud, e.lab.project.value, e.lab.id, cfg.topology)
           == Some(Stand(interrupted.cloud, interrupted.lab.resources))
      && smooth.lab.state == Ready
      && smooth.cloud == interrupted.cloud
      && smooth.lab.resources == interrupted.lab.resources
  {
    hide Cloud.Valid, Provisioned, Run, Built;
    var d := Retried(e, cfg, runs);
    RetriesLead(e, cfg, runs);
    ProvisionedIsBuilt(d.cloud, e.lab.project.value, e.lab.id, cfg.topology, d.lab.resources);
    FaultlessRunBuilds(e, cfg, now, o);
  }

  // The secret's id does differ: a worker that dies between storing a key and
  // recording the step leaves a secret that no record and no lab names.
  lemma CrashOrphansSecret(e: Env, cfg: Config, now: Time)
    requires e.lab.project.Some? && e.lab.state == Deploying && e.records == map[]
    ensures exists o: Oracle :: (forall t :: o.cloud(t) == Fine) && Orphans(e, Run(e, cfg, now, o))
  {
    var o := Oracle((t: nat) => if t == 5 then Death else Fine, (t: nat) => Fine);
    hide RunFrom, Attempt;
    assert Run(e, cfg, now, o) == RunFrom(e, 0, START, cfg, now, 1, o);
    CrashAfterPut(e, cfg, now, 1, o);
    assert (forall t :: o.cloud(t) == Fine) && Orphans(e, Run(e, cfg, now, o));
  }

  // A secret was stored that neither the lab nor any record refers to.
  ghost predicate Orphans(e: Env, d: Outcome) {
    && d.verdict == Died && d.env.lab == e.lab
    && d.env.vault == Vault(e.vault.live + {e.vault.next}, e.vault.next + 1)
    && forall s :: RecordOf(d.env.records, s).result == None
  }

  lemma CrashAfterPut(e: Env, cfg: Config, now: Time, t: nat, o: Oracle)
    requires e.lab.project.Some? && e.records == map[]
    requires o.store(t) == Fine && o.store(t + 1) == Fine && o.store(t + 4) == Death && forall i :: o.cloud(i) == Fine
    ensures Orphans(e, RunFrom(e, 0, START, cfg, now, t, o))
  {
    var begun := Put(e, CreateKeypair, Begun(Record(Pending, 0, None)));
    assert o.cloud(t + 2) == Fine && o.cloud(t + 3) == Fine;
    assert RunFrom(e, 0, START, cfg, now, t, o) == Attempt(begun, 0, START, cfg, now, t + 2, o);
  }
}

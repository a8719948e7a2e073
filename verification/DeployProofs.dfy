// What every run of the deploy saga keeps, wherever its calls fail or its
// worker dies, and what it has built when it succeeds.

module DeployProofs {
  import opened Types
  import opened CloudDomain
  import opened LabDomain
  import opened DeployDomain

  // The cloud only gains resources, and only for lab l in project p. Addresses
  // are safe from being reused until the numbers wrap.
  ghost predicate Grows(c: Cloud, d: Cloud, p: ProjectId, l: LabId) {
    && c.issued <= d.issued && c.capacity == d.capacity
    && (forall id :: id in c.servers ==> id in d.servers && d.servers[id] == c.servers[id])
    && (forall id :: id in c.networks ==> id in d.networks && d.networks[id] == c.networks[id])
    && c.keypairs <= d.keypairs
    && (d.issued <= ADDRESSES ==> forall ip :: ip in c.floating ==>
         ip in d.floating && d.floating[ip] == c.floating[ip])
    && (forall id :: id in d.servers && id !in c.servers ==>
          id > c.issued && d.servers[id].project == p && d.servers[id].spec.name.VmName?
            && d.servers[id].spec.name.lab == l)
    && (forall id :: id in d.networks && id !in c.networks ==>
          id > c.issued && d.networks[id].project == p && d.networks[id].name == NetName(l))
    && d.keypairs <= c.keypairs + {(p, KeyName(l))}
  }

  lemma GrowsTransitively(b: Cloud, c: Cloud, d: Cloud, p: ProjectId, l: LabId)
    requires Grows(b, c, p, l) && Grows(c, d, p, l)
    ensures Grows(b, d, p, l)
  {
  }

  lemma GrowsReflexively(c: Cloud, p: ProjectId, l: LabId)
    ensures Grows(c, c, p, l)
  {
  }

  // The request is for this machine of the topology, in every field.
  predicate IsMachine(spec: ServerSpec, l: LabId, vm: VmSpec, network: Option<NetworkId>, keypair: Option<Name>) {
    && spec.name == VmName(l, vm.name)
    && spec.image == vm.image
    && spec.flavor == vm.flavor
    && spec.role == vm.role
    && spec.fixedIp == vm.ip
    && spec.network == network
    && spec.keypair == keypair
  }

  // What the saga asks for is the machine.
  lemma SpecForIsMachine(l: LabId, vm: VmSpec, network: Option<NetworkId>, keypair: Option<Name>, spec: ServerSpec)
    ensures spec == SpecFor(l, vm, network, keypair) <==> IsMachine(spec, l, vm, network, keypair)
  {
  }

  // A server of lab l in project p is some machine of the topology, in the
  // lab's network and with its keypair.
  ghost predicate AsSpecified(c: Cloud, p: ProjectId, l: LabId, top: Topology, spec: ServerSpec) {
    && spec.network.Some? && c.IsNetwork(spec.network.value, p, NetName(l))
    && exists i :: 0 <= i < |top.vms| && IsMachine(spec, l, top.vms[i], spec.network, Some(KeyName(l)))
  }

  // The lab's servers and its network are as the topology specifies them.
  ghost predicate StandAsSpecified(c: Cloud, p: ProjectId, l: LabId, top: Topology) {
    && (forall id :: id in c.servers && c.servers[id].project == p
          && c.servers[id].spec.name.VmName? && c.servers[id].spec.name.lab == l
          ==> AsSpecified(c, p, l, top, c.servers[id].spec))
    && (forall id :: c.IsNetwork(id, p, NetName(l)) ==> c.networks[id].cidr == top.cidr)
  }

  // The state holds what its first k steps have built.
  ghost predicate HoldsKeypair(c: Cloud, p: ProjectId, l: LabId, st: DeployState) {
    st.keypair == Some(KeyName(l)) && (p, KeyName(l)) in c.keypairs && st.secret.Some?
  }

  ghost predicate HoldsNetwork(c: Cloud, p: ProjectId, l: LabId, st: DeployState) {
    st.network.Some? && c.IsNetwork(st.network.value, p, NetName(l))
  }

  // The first n machines, in topology order.
  ghost predicate HoldsServers(c: Cloud, p: ProjectId, l: LabId, top: Topology, st: DeployState, n: nat) {
    && |st.servers| == n <= |top.vms|
    && forall i :: 0 <= i < n ==> c.IsServer(st.servers[i], p, VmName(l, top.vms[i].name))
  }

  // The first n servers have their own addresses, while numbers do not wrap.
  ghost predicate HoldsAddresses(c: Cloud, st: DeployState, n: nat) {
    && |st.ips| == n <= |st.servers|
    && (c.issued <= ADDRESSES ==> forall i :: 0 <= i < n ==> c.IsAddress(st.ips[i], st.servers[i]))
  }

  ghost predicate Holds(c: Cloud, p: ProjectId, l: LabId, top: Topology, st: DeployState, k: nat) {
    && (k >= 1 ==> HoldsKeypair(c, p, l, st))
    && (k >= 2 ==> HoldsNetwork(c, p, l, st))
    && (k >= 3 ==> HoldsServers(c, p, l, top, st, |top.vms|))
    && (k >= 4 ==> HoldsAddresses(c, st, |top.vms|))
  }

  lemma HoldingSurvivesGrowth(c: Cloud, d: Cloud, p: ProjectId, l: LabId, top: Topology, st: DeployState, k: nat)
    requires Grows(c, d, p, l) && Holds(c, p, l, top, st, k)
    ensures Holds(d, p, l, top, st, k)
  {
  }

  lemma ServersSurviveGrowth(c: Cloud, d: Cloud, p: ProjectId, l: LabId, top: Topology, st: DeployState, n: nat)
    requires Grows(c, d, p, l) && HoldsServers(c, p, l, top, st, n)
    ensures HoldsServers(d, p, l, top, st, n)
  {
  }

  lemma AddressesSurviveGrowth(c: Cloud, d: Cloud, p: ProjectId, l: LabId, st: DeployState, n: nat)
    requires Grows(c, d, p, l) && HoldsAddresses(c, st, n)
    ensures HoldsAddresses(d, st, n)
  {
  }

  // Steps already recorded as succeeded, counted from step k.
  function DoneFrom(records: Records, k: nat): (n: nat)
    requires k <= |STEPS|
    ensures k <= n <= |STEPS|
    decreases |STEPS| - k
  {
    if k < |STEPS| && RecordOf(records, STEPS[k]).status == Succeeded then DoneFrom(records, k + 1) else k
  }

  function StateAfter(records: Records, k: nat): DeployState
    requires k <= |STEPS|
  {
    if k == 0 then START
    else
      match RecordOf(records, STEPS[k - 1]).result
      case None => START
      case Some(st) => st
  }

  // The succeeded records form a prefix of the steps, and each holds a result.
  ghost predicate RecordsSound(records: Records) {
    var done := DoneFrom(records, 0);
    && (forall k :: 0 <= k < |STEPS| ==> (RecordOf(records, STEPS[k]).status == Succeeded <==> k < done))
    && (forall k :: 0 <= k < done ==> RecordOf(records, STEPS[k]).result.Some?)
    && (forall k :: 0 < k <= done && k <= 4 ==> StateAfter(records, k).check == "")
  }

  // What holds of a deploying lab between runs and between calls.
  ghost predicate Resumable(e: Env, top: Topology) {
    && e.cloud.Valid()
    && e.lab.project.Some?
    && RecordsSound(e.records)
    && StandAsSpecified(e.cloud, e.lab.project.value, e.lab.id, top)
    && Holds(e.cloud, e.lab.project.value, e.lab.id, top, StateAfter(e.records, DoneFrom(e.records, 0)),
         DoneFrom(e.records, 0))
  }

  // The lab's handles name its unique network and keypair and one server per
  // machine, in topology order and as specified, each with its own address.
  ghost predicate Provisioned(c: Cloud, p: ProjectId, l: LabId, top: Topology, res: Resources) {
    && res.keypair == Some(KeyName(l)) && (p, KeyName(l)) in c.keypairs
    && res.network.Some? && c.IsNetwork(res.network.value, p, NetName(l))
    && c.networks[res.network.value].cidr == top.cidr
    && |res.servers| == |top.vms| == |res.ips|
    && (forall i :: 0 <= i < |top.vms| ==>
          && res.servers[i] in c.servers
          && c.servers[res.servers[i]].project == p
          && c.servers[res.servers[i]].resources == RequestFromFlavor(top.vms[i].flavor)
          && IsMachine(c.servers[res.servers[i]].spec, l, top.vms[i], res.network, res.keypair))
    && (c.issued <= ADDRESSES ==> forall i :: 0 <= i < |top.vms| ==> c.IsAddress(res.ips[i], res.servers[i]))
  }

  // ---------------------------------------------------------------------
  // Single calls.

  lemma KeypairGrows(c: Cloud, p: ProjectId, l: LabId, top: Topology, fault: bool)
    requires c.Valid() && StandAsSpecified(c, p, l, top)
    ensures var d := c.CreateKeypair(p, KeyName(l), fault).cloud;
      d.Valid() && Grows(c, d, p, l) && StandAsSpecified(d, p, l, top)
  {
    CallKeepsValid(c, CallCreateKeypair(p, KeyName(l), fault));
    var d := c.CreateKeypair(p, KeyName(l), fault).cloud;
    SpecsSurvive(c, d, p, l, top);
  }

  // A specified stand stays so while only such networks are added.
  lemma SpecsSurvive(c: Cloud, d: Cloud, p: ProjectId, l: LabId, top: Topology)
    requires StandAsSpecified(c, p, l, top)
    requires forall id :: id in c.networks ==> id in d.networks && d.networks[id] == c.networks[id]
    requires forall id :: d.IsNetwork(id, p, NetName(l)) && id !in c.networks ==> d.networks[id].cidr == top.cidr
    requires d.servers == c.servers
    ensures StandAsSpecified(d, p, l, top)
  {
    forall id | id in d.servers && d.servers[id].project == p
      && d.servers[id].spec.name.VmName? && d.servers[id].spec.name.lab == l
      ensures AsSpecified(d, p, l, top, d.servers[id].spec)
    {
      assert AsSpecified(c, p, l, top, d.servers[id].spec);
    }
    forall id | d.IsNetwork(id, p, NetName(l))
      ensures d.networks[id].cidr == top.cidr
    {
      assert id in c.networks ==> c.IsNetwork(id, p, NetName(l));
    }
  }

  lemma NetworkGrows(c: Cloud, p: ProjectId, l: LabId, top: Topology, fault: bool)
    requires c.Valid() && StandAsSpecified(c, p, l, top)
    ensures var r := c.CreateNetwork(p, NetName(l), top.cidr, fault);
      && r.cloud.Valid() && Grows(c, r.cloud, p, l) && StandAsSpecified(r.cloud, p, l, top)
      && (r.result.Ok? ==> r.cloud.IsNetwork(r.result.value, p, NetName(l)))
  {
    NetworkKeepsValid(c, p, NetName(l), top.cidr, fault);
    SpecsSurvive(c, c.CreateNetwork(p, NetName(l), top.cidr, fault).cloud, p, l, top);
  }

  lemma BootAddsOne(c: Cloud, p: ProjectId, l: LabId, top: Topology, i: nat, st: DeployState, fault: bool)
    requires c.Valid() && i < |top.vms|
    ensures var r := c.BootServer(p, SpecFor(l, top.vms[i], st.network, st.keypair), fault);
      && r.cloud.Valid() && Grows(c, r.cloud, p, l)
      && (r.result.Ok? ==> r.cloud.IsServer(r.result.value, p, VmName(l, top.vms[i].name)))
  {
    hide Cloud.CountersExact, Cloud.NamesUnique, Cloud.AddressesSound;
    assert c.IdsIssued();
    hide Cloud.Valid;
    BootKeepsValid(c, p, SpecFor(l, top.vms[i], st.network, st.keypair), fault);
  }

  lemma BootGrows(c: Cloud, p: ProjectId, l: LabId, top: Topology, i: nat, st: DeployState, fault: bool)
    requires c.Valid() && StandAsSpecified(c, p, l, top) && i < |top.vms|
    requires HoldsKeypair(c, p, l, st) && HoldsNetwork(c, p, l, st)
    ensures var r := c.BootServer(p, SpecFor(l, top.vms[i], st.network, st.keypair), fault);
      && r.cloud.Valid() && Grows(c, r.cloud, p, l) && StandAsSpecified(r.cloud, p, l, top)
      && (r.result.Ok? ==> r.cloud.IsServer(r.result.value, p, VmName(l, top.vms[i].name)))
  {
    hide Cloud.Valid, Grows;
    var spec := SpecFor(l, top.vms[i], st.network, st.keypair);
    BootAddsOne(c, p, l, top, i, st, fault);
    var d := c.BootServer(p, spec, fault).cloud;
    SpecForIsMachine(l, top.vms[i], st.network, st.keypair, spec);
    assert AsSpecified(c, p, l, top, spec);
    forall id | id in d.servers && d.servers[id].project == p
      && d.servers[id].spec.name.VmName? && d.servers[id].spec.name.lab == l
      ensures AsSpecified(d, p, l, top, d.servers[id].spec)
    {
      assert AsSpecified(c, p, l, top, d.servers[id].spec);
    }
  }

  lemma AddressGrows(c: Cloud, p: ProjectId, l: LabId, top: Topology, id: ServerId, fault: bool)
    requires c.Valid() && StandAsSpecified(c, p, l, top)
    ensures var r := c.AllocateFloatingIp(id, fault);
      && r.cloud.Valid() && Grows(c, r.cloud, p, l) && StandAsSpecified(r.cloud, p, l, top)
      && (r.result.Ok? ==> r.cloud.IsAddress(r.result.value, id))
  {
    AddressKeepsValid(c, id, fault);
    if id in c.servers && !fault && !c.HasAddress(id) {
      FreshAddressStealsOnlyOnWrap(c, id);
    }
    SpecsSurvive(c, c.AllocateFloatingIp(id, fault).cloud, p, l, top);
  }

  // ---------------------------------------------------------------------
  // The steps.

  lemma {:induction false} BootRestGrows(c: Cloud, v: Vault, st: DeployState, p: ProjectId, l: LabId,
                                         top: Topology, t: nat, o: Oracle)
    requires c.Valid() && StandAsSpecified(c, p, l, top) && HoldsServers(c, p, l, top, st, |st.servers|)
    requires HoldsKeypair(c, p, l, st) && HoldsNetwork(c, p, l, st)
    ensures var r := BootRest(c, v, st, p, l, top.vms, t, o);
      && r.cloud.Valid() && Grows(c, r.cloud, p, l) && StandAsSpecified(r.cloud, p, l, top)
      && r.vault == v && r.st == st.(servers := r.st.servers)
      && (r.fate == Fine ==> HoldsServers(r.cloud, p, l, top, r.st, |top.vms|))
    decreases |top.vms| - |st.servers|
  {
    hide Cloud.Valid, Grows, StandAsSpecified;
    GrowsReflexively(c, p, l);
    if |st.servers| < |top.vms| && o.cloud(t) != Death {
      var i := |st.servers|;
      BootGrows(c, p, l, top, i, st, o.cloud(t) == Fault);
      var r := c.BootServer(p, SpecFor(l, top.vms[i], st.network, st.keypair), o.cloud(t) == Fault);
      if r.result.Ok? {
        var next := st.(servers := st.servers + [r.result.value]);
        ServersSurviveGrowth(c, r.cloud, p, l, top, st, i);
        HoldingSurvivesGrowth(c, r.cloud, p, l, top, st, 2);
        BootRestGrows(r.cloud, v, next, p, l, top, t + 1, o);
        GrowsTransitively(c, r.cloud, BootRest(r.cloud, v, next, p, l, top.vms, t + 1, o).cloud, p, l);
      }
    }
  }

  lemma {:induction false} AddressRestGrows(c: Cloud, v: Vault, st: DeployState, p: ProjectId, l: LabId,
                                            top: Topology, t: nat, o: Oracle)
    requires c.Valid() && StandAsSpecified(c, p, l, top) && HoldsAddresses(c, st, |st.ips|)
    ensures var r := AddressRest(c, v, st, t, o);
      && r.cloud.Valid() && Grows(c, r.cloud, p, l) && StandAsSpecified(r.cloud, p, l, top)
      && r.vault == v && r.st == st.(ips := r.st.ips)
      && (r.fate == Fine ==> HoldsAddresses(r.cloud, r.st, |st.servers|))
    decreases |st.servers| - |st.ips|
  {
    hide Cloud.Valid, Grows, StandAsSpecified;
    GrowsReflexively(c, p, l);
    if |st.ips| < |st.servers| && o.cloud(t) != Death {
      var id := st.servers[|st.ips|];
      if c.WaitForActive(id, o.cloud(t) == Fault).Ok? && o.cloud(t + 1) != Death {
        AddressGrows(c, p, l, top, id, o.cloud(t + 1) == Fault);
        var r := c.AllocateFloatingIp(id, o.cloud(t + 1) == Fault);
        if r.result.Ok? {
          var next := st.(ips := st.ips + [r.result.value]);
          AddressesSurviveGrowth(c, r.cloud, p, l, st, |st.ips|);
          AddressRestGrows(r.cloud, v, next, p, l, top, t + 2, o);
          GrowsTransitively(c, r.cloud, AddressRest(r.cloud, v, next, t + 2, o).cloud, p, l);
        }
      }
    }
  }

  lemma StepGrows(e: Env, k: nat, st: DeployState, cfg: Config, t: nat, o: Oracle)
    requires k < |STEPS| && e.cloud.Valid() && e.lab.project.Some?
    requires StandAsSpecified(e.cloud, e.lab.project.value, e.lab.id, cfg.topology)
    requires Holds(e.cloud, e.lab.project.value, e.lab.id, cfg.topology, st, k)
    requires st.check == ""
    ensures var r := RunStep(STEPS[k], e, st, cfg, t, o); var p, l := e.lab.project.value, e.lab.id;
      && r.cloud.Valid() && Grows(e.cloud, r.cloud, p, l) && StandAsSpecified(r.cloud, p, l, cfg.topology)
      && (r.fate == Fine ==> Holds(r.cloud, p, l, cfg.topology, r.st, k + 1) && (k < 4 ==> r.st.check == ""))
  {
    hide Cloud.Valid, Grows, StandAsSpecified;
    var c, v, p, l, top := e.cloud, e.vault, e.lab.project.value, e.lab.id, cfg.topology;
    GrowsReflexively(c, p, l);
    if k == 0 {
      KeypairGrows(c, p, l, top, o.cloud(t) == Fault);
    } else if k == 1 {
      NetworkGrows(c, p, l, top, o.cloud(t) == Fault);
    } else if k == 2 {
      BootRestGrows(c, v, st.(servers := []), p, l, top, t, o);
    } else if k == 3 {
      AddressRestGrows(c, v, st.(ips := []), p, l, top, t, o);
    }
    if k < 4 {
      var d := RunStep(STEPS[k], e, st, cfg, t, o).cloud;
      HoldingSurvivesGrowth(c, d, p, l, top, st, k);
    }
  }

  // ---------------------------------------------------------------------
  // The records.

  lemma {:induction false} DoneFromIs(records: Records, j: nat, k: nat)
    requires j <= k <= |STEPS|
    requires forall i :: j <= i < k ==> RecordOf(records, STEPS[i]).status == Succeeded
    requires k < |STEPS| ==> RecordOf(records, STEPS[k]).status != Succeeded
    ensures DoneFrom(records, j) == k
    decreases k - j
  {
    if j < k {
      DoneFromIs(records, j + 1, k);
    }
  }

  lemma StepsDistinct(i: nat, j: nat)
    requires i < |STEPS| && j < |STEPS| && STEPS[i] == STEPS[j]
    ensures i == j
  {
  }

  // Recording the first unfinished step leaves the earlier records alone, and
  // extends the prefix by one when the step succeeded.
  lemma PutKeepsRecords(records: Records, k: nat, r: Record)
    requires RecordsSound(records) && DoneFrom(records, 0) == k < |STEPS|
    requires r.status == Succeeded ==> r.result.Some? && (k < 4 ==> r.result.value.check == "")
    ensures var after := records[STEPS[k] := r];
      && RecordsSound(after)
      && DoneFrom(after, 0) == (if r.status == Succeeded then k + 1 else k)
      && (forall j :: 0 <= j <= k ==> StateAfter(after, j) == StateAfter(records, j))
      && (r.status == Succeeded ==> StateAfter(after, k + 1) == r.result.value)
  {
    var after := records[STEPS[k] := r];
    forall j | 0 <= j < |STEPS| && j != k
      ensures RecordOf(after, STEPS[j]) == RecordOf(records, STEPS[j])
    {
      if STEPS[j] == STEPS[k] {
        StepsDistinct(j, k);
      }
    }
    DoneFromIs(after, 0, if r.status == Succeeded then k + 1 else k);
    forall j | 0 < j <= DoneFrom(after, 0) && j <= 4
      ensures StateAfter(after, j).check == ""
    {
      assert j <= k ==> StateAfter(after, j) == StateAfter(records, j);
    }
  }

  // Records of succeeded steps are never rewritten.
  ghost predicate SuccessesKept(before: Records, after: Records) {
    forall s :: RecordOf(before, s).status == Succeeded ==> RecordOf(after, s) == RecordOf(before, s)
  }

  // The state rebuilt by replaying the first k records onto an empty one.
  function Replayed(records: Records, k: nat): DeployState
    requires k <= |STEPS|
  {
    if k == 0 then START else Overlay(Replayed(records, k - 1), RecordOf(records, STEPS[k - 1]).result)
  }

  // Replaying the succeeded records rebuilds exactly the state that was held
  // after the last of them.
  lemma {:induction false} ReplayRebuilds(records: Records, k: nat)
    requires RecordsSound(records) && k <= DoneFrom(records, 0)
    ensures Replayed(records, k) == StateAfter(records, k)
  {
    if k > 0 {
      ReplayRebuilds(records, k - 1);
    }
  }

  lemma ReplayOnce(records: Records, k: nat, st: DeployState)
    requires RecordsSound(records) && k < DoneFrom(records, 0) && st == StateAfter(records, k)
    ensures RecordOf(records, STEPS[k]).status == Succeeded
    ensures Overlay(st, RecordOf(records, STEPS[k]).result) == StateAfter(records, k + 1)
  {
  }

  // The loop skips the steps recorded as succeeded, rebuilding the state.
  lemma {:induction false} RunReplays(e: Env, k: nat, st: DeployState, cfg: Config, now: Time, t: nat, o: Oracle)
    requires Steady(o) && RecordsSound(e.records) && e.lab.project.Some?
    requires k <= DoneFrom(e.records, 0) && st == StateAfter(e.records, k)
    ensures var n := DoneFrom(e.records, 0);
      RunFrom(e, k, st, cfg, now, t, o) == RunFrom(e, n, StateAfter(e.records, n), cfg, now, t + n - k, o)
    decreases |STEPS| - k
  {
    hide Attempt, Succeed, StateAfter, DoneFrom, RecordsSound;
    if k < DoneFrom(e.records, 0) {
      ReplayOnce(e.records, k, st);
      RunReplays(e, k + 1, Overlay(st, RecordOf(e.records, STEPS[k]).result), cfg, now, t + 1, o);
    }
  }

  lemma RecordWith(records: Records, k: nat, r: Record, j: nat)
    requires k < |STEPS| && j < |STEPS|
    ensures RecordOf(records[STEPS[k] := r], STEPS[j]) == if j == k then r else RecordOf(records, STEPS[j])
  {
    if STEPS[j] == STEPS[k] {
      StepsDistinct(j, k);
    }
  }

  // The loop goes on after a step that passed.
  lemma GoesOn(e: Env, k: nat, st: DeployState, cfg: Config, now: Time, t: nat, o: Oracle)
    requires e.lab.project.Some? && k < |STEPS| && RecordOf(e.records, STEPS[k]).status != Succeeded
    requires var r := RunStep(STEPS[k], Put(e, STEPS[k], Begun(RecordOf(e.records, STEPS[k]))), st, cfg, t + 2, o);
      o.store(t) == Fine && o.store(t + 1) == Fine && r.fate == Fine && o.store(r.t) == Fine
    ensures var s, rec := STEPS[k], RecordOf(e.records, STEPS[k]);
      var r := RunStep(s, Put(e, s, Begun(rec)), st, cfg, t + 2, o);
      RunFrom(e, k, st, cfg, now, t, o)
      == RunFrom(Put(e.(cloud := r.cloud, vault := r.vault), s, Completed(rec, r.st)), k + 1, r.st,
        cfg, now, r.t + 1, o)
  {
    hide RunStep, RecordOf;
    var s, rec := STEPS[k], RecordOf(e.records, STEPS[k]);
    var begun := Put(e, s, Begun(rec));
    assert RunFrom(e, k, st, cfg, now, t, o) == Attempt(begun, k, st, cfg, now, t + 2, o);
    hide RunFrom;
    RecordWith(e.records, k, Begun(rec), k);
    var r := RunStep(s, begun, st, cfg, t + 2, o);
    assert begun.records[s := Completed(rec, r.st)] == e.records[s := Completed(rec, r.st)];
  }

  // ---------------------------------------------------------------------
  // Whole runs.

  predicate SameIdentity(a: Lab, b: Lab) {
    && a.id == b.id && a.student == b.student && a.course == b.course && a.template == b.template
    && a.project == b.project && a.createdAt == b.createdAt
  }

  // A run leaves the lab deploying and resumable, or failed with the handles
  // it had, or ready with everything provisioned.
  ghost predicate LabMoved(before: Env, after: Env, top: Topology) {
    || (after.lab == before.lab && Resumable(after, top))
    || (after.lab.state == LabDomain.Failed
        && after.lab.(state := Deploying, reason := before.lab.reason, updatedAt := before.lab.updatedAt)
             == before.lab.Saved())
    || (after.lab.state == Ready && after.lab.project.Some? && SameIdentity(before.lab, after.lab)
        && after.lab.cleanupAt.Some? && after.lab.pending == []
        && after.lab.unfreezeAt == before.lab.unfreezeAt && after.lab.frozenBy == before.lab.frozenBy
        && Provisioned(after.cloud, after.lab.project.value, after.lab.id, top, after.lab.resources))
  }

  ghost predicate Kept(before: Env, after: Env, top: Topology) {
    && before.lab.project.Some? && after.lab.project == before.lab.project
    && after.cloud.Valid()
    && Grows(before.cloud, after.cloud, before.lab.project.value, before.lab.id)
    && StandAsSpecified(after.cloud, before.lab.project.value, before.lab.id, top)
    && SuccessesKept(before.records, after.records)
    && LabMoved(before, after, top)
  }

  lemma KeptTransitively(a: Env, b: Env, c: Env, top: Topology)
    requires a.lab == b.lab && a.lab.project.Some?
    requires Grows(a.cloud, b.cloud, a.lab.project.value, a.lab.id)
    requires SuccessesKept(a.records, b.records)
    requires Kept(b, c, top)
    ensures Kept(a, c, top)
  {
    hide Resumable, Provisioned, StandAsSpecified, Cloud.Valid, Grows;
    GrowsTransitively(a.cloud, b.cloud, c.cloud, a.lab.project.value, a.lab.id);
  }

  // What the five steps hold amounts to a provisioned lab.
  lemma HeldIsProvisioned(c: Cloud, p: ProjectId, l: LabId, top: Topology, st: DeployState)
    requires top.NamesDistinct() && c.Valid()
    requires StandAsSpecified(c, p, l, top) && Holds(c, p, l, top, st, |STEPS|)
    ensures Provisioned(c, p, l, top, Resources(st.servers, st.network, st.ips, st.keypair))
  {
    forall i | 0 <= i < |top.vms|
      ensures IsMachine(c.servers[st.servers[i]].spec, l, top.vms[i], st.network, st.keypair)
    {
      assert c.IsServer(st.servers[i], p, VmName(l, top.vms[i].name));
      var spec := c.servers[st.servers[i]].spec;
      assert AsSpecified(c, p, l, top, spec);
      var j :| 0 <= j < |top.vms| && IsMachine(spec, l, top.vms[j], spec.network, Some(KeyName(l)));
      assert i == j;
      assert spec.network == st.network;
    }
  }

  lemma SucceedKeeps(e: Env, st: DeployState, cfg: Config, now: Time, t: nat, o: Oracle)
    requires Resumable(e, cfg.topology) && e.lab.state == Deploying && cfg.topology.NamesDistinct()
    requires DoneFrom(e.records, 0) == |STEPS| && st == StateAfter(e.records, |STEPS|)
    ensures Kept(e, Succeed(e, st, cfg, now, t, o).env, cfg.topology)
  {
    GrowsReflexively(e.cloud, e.lab.project.value, e.lab.id);
    HeldIsProvisioned(e.cloud, e.lab.project.value, e.lab.id, cfg.topology, st);
  }

  lemma GiveUpKeeps(e: Env, top: Topology, now: Time, t: nat, o: Oracle)
    requires Resumable(e, top) && e.lab.state == Deploying
    ensures Kept(e, GiveUp(e, now, t, o).env, top)
  {
    GrowsReflexively(e.cloud, e.lab.project.value, e.lab.id);
  }

  lemma {:induction false} RunFromKeeps(e: Env, k: nat, st: DeployState, cfg: Config, now: Time, t: nat, o: Oracle)
    requires Resumable(e, cfg.topology) && e.lab.state == Deploying && cfg.topology.NamesDistinct()
    requires k <= DoneFrom(e.records, 0) && st == StateAfter(e.records, k)
    ensures Kept(e, RunFrom(e, k, st, cfg, now, t, o).env, cfg.topology)
    decreases |STEPS| - k
  {
    hide Cloud.Valid, Grows, StandAsSpecified, Holds, Provisioned, Succeed;
    GrowsReflexively(e.cloud, e.lab.project.value, e.lab.id);
    if k == |STEPS| {
      SucceedKeeps(e, st, cfg, now, t, o);
    } else if o.store(t) == Fine {
      var s, rec := STEPS[k], RecordOf(e.records, STEPS[k]);
      if rec.status == Succeeded {
        assert Overlay(st, rec.result) == StateAfter(e.records, k + 1);
        RunFromKeeps(e, k + 1, Overlay(st, rec.result), cfg, now, t + 1, o);
      } else if o.store(t + 1) == Fine {
        var begun := Put(e, s, Begun(rec));
        PutKeepsRecords(e.records, k, Begun(rec));
        AttemptKeeps(begun, k, st, cfg, now, t + 2, o);
        KeptTransitively(e, begun, Attempt(begun, k, st, cfg, now, t + 2, o).env, cfg.topology);
      }
    }
  }

  lemma StateJustRecorded(records: Records, k: nat, r: Record)
    requires k < |STEPS| && r.result.Some?
    ensures StateAfter(records[STEPS[k] := r], k + 1) == r.result.value
  {
  }

  // A step left after e, with the records showing k finished steps.
  ghost predicate After(e: Env, next: Env, top: Topology, k: nat) {
    && next.lab == e.lab && e.lab.project.Some? && e.lab.state == Deploying
    && next.cloud.Valid() && StandAsSpecified(next.cloud, e.lab.project.value, e.lab.id, top)
    && Grows(e.cloud, next.cloud, e.lab.project.value, e.lab.id)
    && RecordsSound(next.records) && DoneFrom(next.records, 0) == k
    && SuccessesKept(e.records, next.records)
    && Holds(next.cloud, e.lab.project.value, e.lab.id, top, StateAfter(next.records, k), k)
  }

  lemma AfterIsKept(e: Env, next: Env, top: Topology, k: nat)
    requires After(e, next, top, k)
    ensures Kept(e, next, top) && Resumable(next, top)
  {
    hide Cloud.Valid, Grows, StandAsSpecified, Holds, RecordsSound, SuccessesKept, DoneFrom, StateAfter;
  }

  lemma StepIsAfter(e: Env, k: nat, st: DeployState, cfg: Config, t: nat, o: Oracle, next: Env, noted: Record)
    requires Resumable(e, cfg.topology) && e.lab.state == Deploying
    requires k < |STEPS| && k == DoneFrom(e.records, 0) && st == StateAfter(e.records, k)
    requires var r := RunStep(STEPS[k], e, st, cfg, t, o);
      && next.lab == e.lab && next.cloud == r.cloud
      && (next.records == e.records || next.records == e.records[STEPS[k] := noted])
      && (noted.status == Succeeded ==>
           r.fate == Fine && noted.result == Some(r.st) && next.records == e.records[STEPS[k] := noted])
    ensures After(e, next, cfg.topology, if noted.status == Succeeded then k + 1 else k)
  {
    hide Cloud.Valid, Grows, StandAsSpecified, Holds, RunStep;
    StepGrows(e, k, st, cfg, t, o);
    HoldingSurvivesGrowth(e.cloud, next.cloud, e.lab.project.value, e.lab.id, cfg.topology, st, k);
    PutKeepsRecords(e.records, k, noted);
  }

  lemma {:induction false} AttemptKeeps(e: Env, k: nat, st: DeployState, cfg: Config, now: Time, t: nat, o: Oracle)
    requires Resumable(e, cfg.topology) && e.lab.state == Deploying && cfg.topology.NamesDistinct()
    requires e.lab.project.Some?
    requires k < |STEPS| && k == DoneFrom(e.records, 0) && st == StateAfter(e.records, k)
    ensures Kept(e, Attempt(e, k, st, cfg, now, t, o).env, cfg.topology)
    decreases |STEPS| - k, 0
  {
    hide Kept, Resumable, GiveUp, RunStep, DoneFrom, StateAfter;
    var s, rec := STEPS[k], RecordOf(e.records, STEPS[k]);
    var r := RunStep(s, e, st, cfg, t, o);
    var after := e.(cloud := r.cloud, vault := r.vault);
    var failed, done := rec.(status := Status.Failed), rec.(status := Succeeded, result := Some(r.st));
    StepIsAfter(e, k, st, cfg, t, o, after, failed);
    AfterIsKept(e, after, cfg.topology, k);
    match r.fate
    case Death =>
    case Fault =>
      var noted := if o.store(r.t) == Fine then Put(after, s, failed) else after;
      StepIsAfter(e, k, st, cfg, t, o, noted, failed);
      AfterIsKept(e, noted, cfg.topology, k);
      GiveUpKeeps(noted, cfg.topology, now, r.t + 1, o);
      KeptTransitively(e, noted, GiveUp(noted, now, r.t + 1, o).env, cfg.topology);
    case Fine =>
      var next := Put(after, s, done);
      StepIsAfter(e, k, st, cfg, t, o, next, done);
      AfterIsKept(e, next, cfg.topology, k + 1);
      StateJustRecorded(e.records, k, done);
      RunFromKeeps(next, k + 1, r.st, cfg, now, r.t + 1, o);
      KeptTransitively(e, next, RunFrom(next, k + 1, r.st, cfg, now, r.t + 1, o).env, cfg.topology);
  }

  // Whatever fails and wherever the worker dies, a run of the deploy saga
  // leaves its lab resumable, failed, or ready and fully provisioned; it
  // rewrites no succeeded record and touches no other project.
  lemma RunKeeps(e: Env, cfg: Config, now: Time, o: Oracle)
    requires Resumable(e, cfg.topology) && e.lab.state == Deploying && cfg.topology.NamesDistinct()
    ensures Kept(e, Run(e, cfg, now, o).env, cfg.topology)
  {
    hide Cloud.Valid, StandAsSpecified, Holds, Provisioned, RunFrom;
    GrowsReflexively(e.cloud, e.lab.project.value, e.lab.id);
    RunFromKeeps(e, 0, START, cfg, now, 1, o);
  }
}

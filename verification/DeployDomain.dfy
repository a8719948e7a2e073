// What one run of the deploy saga computes: the resumable loop over the steps,
// with a failure or a crash possible at every external call.

module DeployDomain {
  import opened Types
  import opened CloudDomain
  import opened LabDomain

  datatype VmSpec = VmSpec(name: string, image: string, flavor: string, ip: string, role: string)

  datatype Topology = Topology(cidr: string, vms: seq<VmSpec>) {
    ghost predicate NamesDistinct() {
      forall i, j :: 0 <= i < j < |vms| ==> vms[i].name != vms[j].name
    }
  }

  // The one stand the source deploys for every template. The theorems hold
  // for any topology whose machine names are distinct.
  const STAND_THREE := Topology("10.0.0.0/24", [
    VmSpec("L-MS", "LAB2_TMP_L-MS", "small", "10.0.0.10", "Кибер Бэкап — сервер управления"),
    VmSpec("L-NFS", "LAB2_TMP_L-NFS", "start", "10.0.0.70", "файловый сервер, хранилище ВМ"),
    VmSpec("L-PGSQL", "LAB2_TMP_L-PGSQL", "start", "10.0.0.55", "сервер БД PostgreSQL"),
    VmSpec("W-DC", "LAB2_TMP_W-DC", "medium", "10.0.0.5", "контроллер домена, DNS, SMB"),
    VmSpec("V-HYPERV", "LAB2_TMP_V-HYPERV", "large", "10.0.0.65", "гипервизор Microsoft Hyper-V")
  ])

  lemma StandThreeIsDistinct()
    ensures STAND_THREE.NamesDistinct() && |STAND_THREE.vms| == 5
  {
  }

  datatype Step = CreateKeypair | ProvisionNetwork | BootVm | WaitSsh | InitialCheck

  const STEPS := [CreateKeypair, ProvisionNetwork, BootVm, WaitSsh, InitialCheck]

  datatype Status = Pending | InProgress | Succeeded | Failed

  // The handles threaded through the steps; every record of a succeeded step
  // holds the whole state after it.
  datatype DeployState = DeployState(
    keypair: Option<Name>,
    secret: Option<SecretId>,
    network: Option<NetworkId>,
    servers: seq<ServerId>,
    ips: seq<Ip>,
    check: string)

  const START := DeployState(None, None, None, [], [], "")

  datatype Record = Record(status: Status, attempt: nat, result: Option<DeployState>)

  type Records = map<Step, Record>

  function RecordOf(records: Records, s: Step): Record {
    if s in records then records[s] else Record(Pending, 0, None)
  }

  // The secret store: ids are never reused.
  datatype Vault = Vault(live: set<SecretId>, next: SecretId)

  datatype Config = Config(topology: Topology, maxAttempts: nat, cleanupAfter: Time, checks: bool) {
    function Budget(): nat { if maxAttempts > 0 then maxAttempts else 3 }
    function Lifetime(): Time { if cleanupAfter > 0 then cleanupAfter else 7200 }
  }

  // Everything a run reads or writes.
  datatype Env = Env(lab: Lab, records: Records, vault: Vault, cloud: Cloud)

  datatype Outcome = Outcome(env: Env, verdict: Verdict)

  // A step stopped after t external calls: Fine when it succeeded, Fault when
  // it returned an error, Death when the worker died inside it.
  datatype StepResult = StepResult(cloud: Cloud, vault: Vault, st: DeployState, t: nat, fate: Fate)

  function SpecFor(l: LabId, vm: VmSpec, network: Option<NetworkId>, keypair: Option<Name>): ServerSpec {
    ServerSpec(VmName(l, vm.name), vm.image, vm.flavor, network, keypair, vm.role, vm.ip)
  }

  ghost function RunCreateKeypair(c: Cloud, v: Vault, st: DeployState, p: ProjectId, l: LabId, t: nat,
                                  o: Oracle): StepResult {
    if o.cloud(t) == Death then StepResult(c, v, st, t, Death)
    else
      var r := c.CreateKeypair(p, KeyName(l), o.cloud(t) == Fault);
      if r.result.Err? then StepResult(r.cloud, v, st, t + 1, Fault)
      else if o.cloud(t + 1) != Fine then StepResult(r.cloud, v, st, t + 2, o.cloud(t + 1))
      else
        StepResult(r.cloud, Vault(v.live + {v.next}, v.next + 1),
                   st.(keypair := Some(r.result.value), secret := Some(v.next)), t + 2, Fine)
  }

  ghost function RunProvisionNetwork(c: Cloud, v: Vault, st: DeployState, p: ProjectId, l: LabId, top: Topology, t: nat,
                                     o: Oracle): StepResult {
    if o.cloud(t) == Death then StepResult(c, v, st, t, Death)
    else
      var r := c.CreateNetwork(p, NetName(l), top.cidr, o.cloud(t) == Fault);
      if r.result.Err? then StepResult(r.cloud, v, st, t + 1, Fault)
      else StepResult(r.cloud, v, st.(network := Some(r.result.value)), t + 1, Fine)
  }

  // Boots the machines from number |st.servers| on.
  ghost function BootRest(c: Cloud, v: Vault, st: DeployState, p: ProjectId, l: LabId, vms: seq<VmSpec>, t: nat,
                          o: Oracle): StepResult
    requires |st.servers| <= |vms|
    decreases |vms| - |st.servers|
  {
    if |st.servers| == |vms| then StepResult(c, v, st, t, Fine)
    else if o.cloud(t) == Death then StepResult(c, v, st, t, Death)
    else
      var r := c.BootServer(p, SpecFor(l, vms[|st.servers|], st.network, st.keypair), o.cloud(t) == Fault);
      if r.result.Err? then StepResult(r.cloud, v, st, t + 1, Fault)
      else BootRest(r.cloud, v, st.(servers := st.servers + [r.result.value]), p, l, vms, t + 1, o)
  }

  ghost function RunBootVm(c: Cloud, v: Vault, st: DeployState, p: ProjectId, l: LabId, top: Topology, t: nat,
                           o: Oracle): StepResult {
    BootRest(c, v, st.(servers := []), p, l, top.vms, t, o)
  }

  // Waits for and addresses the servers from number |st.ips| on.
  ghost function AddressRest(c: Cloud, v: Vault, st: DeployState, t: nat, o: Oracle): StepResult
    requires |st.ips| <= |st.servers|
    decreases |st.servers| - |st.ips|
  {
    if |st.ips| == |st.servers| then StepResult(c, v, st, t, Fine)
    else if o.cloud(t) == Death then StepResult(c, v, st, t, Death)
    else
      var id := st.servers[|st.ips|];
      if c.WaitForActive(id, o.cloud(t) == Fault).Err? then StepResult(c, v, st, t + 1, Fault)
      else if o.cloud(t + 1) == Death then StepResult(c, v, st, t + 1, Death)
      else
        var r := c.AllocateFloatingIp(id, o.cloud(t + 1) == Fault);
        if r.result.Err? then StepResult(r.cloud, v, st, t + 2, Fault)
        else AddressRest(r.cloud, v, st.(ips := st.ips + [r.result.value]), t + 2, o)
  }

  ghost function RunWaitSsh(c: Cloud, v: Vault, st: DeployState, t: nat, o: Oracle): StepResult {
    AddressRest(c, v, st.(ips := []), t, o)
  }

  // The informational check never fails the saga and calls nothing.
  function RunInitialCheck(c: Cloud, v: Vault, st: DeployState, checks: bool, t: nat): StepResult {
    StepResult(c, v, st.(check := if checks then "passed" else "skipped"), t, Fine)
  }

  ghost function RunStep(s: Step, e: Env, st: DeployState, cfg: Config, t: nat, o: Oracle): StepResult
    requires e.lab.project.Some?
  {
    var p := e.lab.project.value;
    match s
    case CreateKeypair => RunCreateKeypair(e.cloud, e.vault, st, p, e.lab.id, t, o)
    case ProvisionNetwork => RunProvisionNetwork(e.cloud, e.vault, st, p, e.lab.id, cfg.topology, t, o)
    case BootVm => RunBootVm(e.cloud, e.vault, st, p, e.lab.id, cfg.topology, t, o)
    case WaitSsh => RunWaitSsh(e.cloud, e.vault, st, t, o)
    case InitialCheck => RunInitialCheck(e.cloud, e.vault, st, cfg.checks, t)
  }

  // Decoding a stored result into the state: an empty check is not encoded,
  // so it leaves the old one in place.
  function Overlay(st: DeployState, result: Option<DeployState>): DeployState {
    match result
    case None => st
    case Some(r) => if r.check == "" then r.(check := st.check) else r
  }

  // The lab as the last transaction of a successful run stores it.
  function Finished(l: Lab, st: DeployState, cfg: Config, now: Time): Change {
    var equipped := l.(resources := Resources(st.servers, st.network, st.ips, st.keypair),
                       checkerKey := if st.secret.Some? then st.secret else l.checkerKey,
                       studentKey := if st.secret.Some? then st.secret else l.studentKey);
    equipped.MarkReady(now + cfg.Lifetime(), now)
  }

  function Succeed(e: Env, st: DeployState, cfg: Config, now: Time, t: nat, o: Oracle): Outcome {
    var ready := Finished(e.lab, st, cfg, now);
    if ready.error.Some? then Outcome(e, Retry)
    else if o.store(t) != Fine then Outcome(e, Halt(o.store(t)))
    else Outcome(e.(lab := ready.lab.Saved()), Ended)
  }

  // Compensation: the resources stay as they are; the cleanup saga is meant
  // to delete them.
  function GiveUp(e: Env, now: Time, t: nat, o: Oracle): Outcome {
    var failed := e.lab.Transition(LabDomain.Failed, "deploy failed", now);
    if failed.error.Some? then Outcome(e, Retry)
    else if o.store(t) != Fine then Outcome(e, Halt(o.store(t)))
    else Outcome(e.(lab := failed.lab.Saved()), Ended)
  }

  function Put(e: Env, s: Step, r: Record): Env {
    e.(records := e.records[s := r])
  }

  // The loop from step k on, with t external calls made so far.
  ghost function RunFrom(e: Env, k: nat, st: DeployState, cfg: Config, now: Time, t: nat, o: Oracle): Outcome
    requires e.lab.project.Some? && k <= |STEPS|
    decreases |STEPS| - k
  {
    if k == |STEPS| then Succeed(e, st, cfg, now, t, o)
    else if o.store(t) != Fine then Outcome(e, Halt(o.store(t)))
    else
      var s, rec := STEPS[k], RecordOf(e.records, STEPS[k]);
      if rec.status == Succeeded then RunFrom(e, k + 1, Overlay(st, rec.result), cfg, now, t + 1, o)
      else if o.store(t + 1) != Fine then Outcome(e, Halt(o.store(t + 1)))
      else Attempt(Put(e, s, Begun(rec)), k, st, cfg, now, t + 2, o)
  }

  lemma RunFromEnd(e: Env, st: DeployState, cfg: Config, now: Time, t: nat, o: Oracle)
    requires e.lab.project.Some?
    ensures RunFrom(e, |STEPS|, st, cfg, now, t, o) == Succeed(e, st, cfg, now, t, o)
  {
  }

  function Begun(rec: Record): Record {
    rec.(status := InProgress, attempt := rec.attempt + 1)
  }

  function Completed(rec: Record, st: DeployState): Record {
    Begun(rec).(status := Succeeded, result := Some(st))
  }

  // Step k has been recorded as in progress: run it and record the outcome.
  ghost function Attempt(e: Env, k: nat, st: DeployState, cfg: Config, now: Time, t: nat, o: Oracle): Outcome
    requires e.lab.project.Some? && k < |STEPS|
    decreases |STEPS| - k, 0
  {
    var s, rec := STEPS[k], RecordOf(e.records, STEPS[k]);
    var r := RunStep(s, e, st, cfg, t, o);
    var after := e.(cloud := r.cloud, vault := r.vault);
    match r.fate
    case Death => Outcome(after, Died)
    case Fault =>
      // The error of this one save is only logged.
      if o.store(r.t) == Death then Outcome(after, Died)
      else
        var noted := if o.store(r.t) == Fine then Put(after, s, rec.(status := Status.Failed)) else after;
        if rec.attempt >= cfg.Budget() then GiveUp(noted, now, r.t + 1, o) else Outcome(noted, Retry)
    case Fine =>
      if o.store(r.t) != Fine then Outcome(after, Halt(o.store(r.t)))
      else RunFrom(Put(after, s, rec.(status := Succeeded, result := Some(r.st))), k + 1, r.st, cfg, now, r.t + 1, o)
  }

  ghost function Run(e: Env, cfg: Config, now: Time, o: Oracle): Outcome {
    if o.store(0) != Fine then Outcome(e, Halt(o.store(0)))
    else if e.lab.state != Deploying then Outcome(e, Ended)
    else if e.lab.project.None? then Outcome(e, Retry)
    else RunFrom(e, 0, START, cfg, now, 1, o)
  }

  // ---------------------------------------------------------------------
  // When a run gives up, told by what it finds and by which calls fail.

  // From step k on: the first step that fails has no attempt left, and the
  // saves around it work (the error of the one that notes the failure is
  // ignored).
  ghost predicate GivesUpFrom(e: Env, k: nat, st: DeployState, cfg: Config, t: nat, o: Oracle)
    requires e.lab.project.Some?
    decreases |STEPS| - k
  {
    && k < |STEPS| && o.store(t) == Fine
    && var s, rec := STEPS[k], RecordOf(e.records, STEPS[k]);
       if rec.status == Succeeded then GivesUpFrom(e, k + 1, Overlay(st, rec.result), cfg, t + 1, o)
       else
         && o.store(t + 1) == Fine
         && var r := RunStep(s, e, st, cfg, t + 2, o);
            match r.fate
            case Death => false
            case Fault => rec.attempt + 1 >= cfg.Budget() && o.store(r.t) != Death && o.store(r.t + 1) == Fine
            case Fine =>
              o.store(r.t) == Fine
              && GivesUpFrom(Put(e.(cloud := r.cloud, vault := r.vault), s, Completed(rec, r.st)), k + 1,
                   r.st, cfg, r.t + 1, o)
  }

  ghost predicate GivesUp(e: Env, cfg: Config, o: Oracle) {
    e.lab.state == Deploying && e.lab.project.Some? && o.store(0) == Fine && GivesUpFrom(e, 0, START, cfg, 1, o)
  }
}

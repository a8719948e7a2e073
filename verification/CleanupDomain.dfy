// What one run of the cleanup saga computes, with a failure or a crash
// possible at every external call, and how many runs a cleanup takes.

module CleanupDomain {
  import opened Types
  import opened CloudDomain
  import L = LabDomain
  import P = PoolDomain
  import D = DeployDomain

  type Projects = map<ProjectId, P.Row>

  // Everything a run reads or writes. rival tells whether another lab of the
  // student in the course is active, so that the unique index on active labs
  // refuses to make this one active.
  datatype Env = Env(lab: L.Lab, rival: bool, projects: Projects, vault: D.Vault, cloud: Cloud)

  datatype Outcome = Outcome(env: Env, verdict: Verdict)

  ghost predicate RowsWellFormed(projects: Projects) {
    forall p :: p in projects ==> projects[p].id == p && P.Loaded(projects[p]).WellFormed()
  }

  // A project's row after its aggregate was saved.
  function Store(projects: Projects, p: P.Project): Projects {
    match P.Stored(p)
    case Err(_) => projects
    case Ok(row) => projects[p.id := row]
  }

  // Deletes the servers, then the keypair, then the network, stopping at the
  // first call that fails.
  datatype TeardownResult = TeardownResult(cloud: Cloud, t: nat, fate: Fate)

  function DeleteServers(c: Cloud, ids: seq<ServerId>, t: nat, o: Oracle): TeardownResult
    decreases ids
  {
    if ids == [] then TeardownResult(c, t, Fine)
    else if o.cloud(t) != Fine then TeardownResult(c, t + 1, o.cloud(t))
    else DeleteServers(c.DeleteServer(ids[0], false).cloud, ids[1..], t + 1, o)
  }

  function DeleteKey(c: Cloud, p: ProjectId, key: Option<Name>, t: nat, o: Oracle): TeardownResult {
    if key.None? then TeardownResult(c, t, Fine)
    else if o.cloud(t) != Fine then TeardownResult(c, t + 1, o.cloud(t))
    else TeardownResult(c.DeleteKeypair(p, key.value, false).cloud, t + 1, Fine)
  }

  function DeleteNet(c: Cloud, network: Option<NetworkId>, t: nat, o: Oracle): TeardownResult {
    if network.None? then TeardownResult(c, t, Fine)
    else if o.cloud(t) != Fine then TeardownResult(c, t + 1, o.cloud(t))
    else TeardownResult(c.DeleteNetwork(network.value, false).cloud, t + 1, Fine)
  }

  function Teardown(c: Cloud, lab: L.Lab, t: nat, o: Oracle): TeardownResult {
    if lab.project.None? then TeardownResult(c, t, Fine)
    else
      var a := DeleteServers(c, lab.resources.servers, t, o);
      if a.fate != Fine then a
      else
        var b := DeleteKey(a.cloud, lab.project.value, lab.resources.keypair, a.t, o);
        if b.fate != Fine then b else DeleteNet(b.cloud, lab.resources.network, b.t, o)
  }

  const COMPLETE := "cleanup_complete"
  const QUARANTINED := "cleanup_failed_quarantined"

  // The saga's single terminal transition.
  function Finish(e: Env, reason: string, now: Time, t: nat, o: Oracle): Outcome {
    var done := e.lab.Transition(L.Done, reason, now);
    if done.error.Some? then Outcome(e, Retry)
    else if o.store(t) != Fine then Outcome(e, Halt(o.store(t)))
    else Outcome(e.(lab := done.lab.Saved()), Ended)
  }

  function ProjectOf(e: Env): Option<P.Project> {
    if e.lab.project.Some? && e.lab.project.value in e.projects
    then Some(P.Loaded(e.projects[e.lab.project.value])) else None
  }

  predicate IsCleaning(p: Option<P.Project>) {
    p.Some? && p.value.state == P.Cleaning
  }

  // The lab is cleaning and its project loaded: tear down and conclude.
  function AfterRelease(e: Env, now: Time, t: nat, o: Oracle): Outcome {
    var td := Teardown(e.cloud, e.lab, t, o);
    var after := e.(cloud := td.cloud);
    match td.fate
    case Death => Outcome(after, Died)
    case Fault => AfterFailure(after, now, td.t, o)
    case Fine => AfterTeardown(after, now, td.t, o)
  }

  function AfterFailure(e: Env, now: Time, t: nat, o: Oracle): Outcome {
    if !IsCleaning(ProjectOf(e)) then Outcome(e, Retry)
    else
      var counted := ProjectOf(e).value.RecordCleanupFailure("teardown failed", now).project;
      if o.store(t) != Fine then Outcome(e, Halt(o.store(t)))
      else
        var saved := e.(projects := Store(e.projects, counted));
        if counted.state == P.Quarantine then Finish(saved, QUARANTINED, now, t + 1, o) else Outcome(saved, Retry)
  }

  function AfterTeardown(e: Env, now: Time, t: nat, o: Oracle): Outcome {
    if !IsCleaning(ProjectOf(e)) then DropKey(e, now, t, o)
    else if o.store(t) != Fine then Outcome(e, Halt(o.store(t)))
    else DropKey(e.(projects := Store(e.projects, ProjectOf(e).value.MarkClean(now).project)), now, t + 1, o)
  }

  // Deletes the stored key, ignoring errors, and ends the lab's life.
  function DropKey(e: Env, now: Time, t: nat, o: Oracle): Outcome {
    match e.lab.checkerKey
    case None => Finish(e, COMPLETE, now, t, o)
    case Some(key) =>
      match o.cloud(t)
      case Death => Outcome(e, Died)
      case Fault => Finish(e, COMPLETE, now, t + 1, o)
      case Fine => Finish(e.(vault := e.vault.(live := e.vault.live - {key})), COMPLETE, now, t + 1, o)
  }

  // The lab is cleaning: load its project and release it if still allocated.
  function AfterTransition(e: Env, now: Time, t: nat, o: Oracle): Outcome
    requires RowsWellFormed(e.projects)
  {
    if e.lab.project.None? then AfterRelease(e, now, t, o)
    else if o.store(t) != Fine then Outcome(e, Halt(o.store(t)))
    else
      match ProjectOf(e)
      case None => Outcome(e, Retry)
      case Some(project) =>
        if project.state != P.Allocated then AfterRelease(e, now, t + 1, o)
        else if o.store(t + 1) != Fine then Outcome(e, Halt(o.store(t + 1)))
        else AfterRelease(e.(projects := Store(e.projects, project.Release(now).project)), now, t + 2, o)
  }

  function Run(e: Env, now: Time, o: Oracle): Outcome
    requires RowsWellFormed(e.projects)
  {
    if o.store(0) != Fine then Outcome(e, Halt(o.store(0)))
    else if e.lab.state == L.Done then Outcome(e, Ended)
    else if e.lab.state == L.Cleaning then AfterTransition(e, now, 1, o)
    else if !L.CanTransition(e.lab.state, L.Cleaning) then Outcome(e, Ended)
    else if o.store(1) != Fine || e.rival then Outcome(e, Halt(o.store(1)))
    else AfterTransition(e.(lab := e.lab.Transition(L.Cleaning, "cleanup", now).lab.Saved()), now, 2, o)
  }
}

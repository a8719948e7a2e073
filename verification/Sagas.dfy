// The sagas as the programs they are: loops over external calls that update
// the database and the cloud in place. Each is proved to compute the function
// of its domain module, call for call.

module Sagas {
  import opened Types
  import opened CloudDomain
  import L = LabDomain
  import P = PoolDomain
  import D = DeployDomain
  import C = CleanupDomain
  import opened Storage

  lemma FinishedStays(l: L.Lab, st: D.DeployState, cfg: D.Config, now: Time)
    ensures var next := D.Finished(l, st, cfg, now).lab; next.id == l.id && L.SameSeat(next, l)
  {
  }

  class DeploySaga {
    const db: Database
    const cloud: Provider

    constructor (db: Database, cloud: Provider)
      ensures this.db == db && this.cloud == cloud
    {
      this.db, this.cloud := db, cloud;
    }

    // What a run for lab l sees.
    function Env(l: LabId): D.Env
      requires l in db.labs
      reads this, db, cloud
    {
      D.Env(db.labs[l], db.RecordsOf(l), db.vault, cloud.Value())
    }

    // Labs and records other than l's, and the pool, are as they were, and the
    // unique index still holds.
    twostate predicate OthersUnchanged(l: LabId)
      requires old(l in db.labs)
      reads this, db
    {
      && l in db.labs && db.labs == old(db.labs)[l := db.labs[l]]
      && db.projects == old(db.projects) && L.OneActive(db.labs)
      && forall m :: m != l ==> db.RecordsOf(m) == old(db.RecordsOf(m))
    }

    method CreateKeypair(st: D.DeployState, p: ProjectId, l: LabId, t: nat, o: Oracle)
      returns (st': D.DeployState, t': nat, fate: Fate)
      requires cloud.Value().Valid()
      modifies cloud, db`vault
      ensures cloud.Value().Valid()
      ensures D.StepResult(cloud.Value(), db.vault, st', t', fate)
           == D.RunCreateKeypair(old(cloud.Value()), old(db.vault), st, p, l, t, o)
    {
      if o.cloud(t) == Death {
        return st, t, Death;
      }
      var key := cloud.CreateKeypair(p, KeyName(l), o.cloud(t) == Fault);
      if key.Err? {
        return st, t + 1, Fault;
      }
      if o.cloud(t + 1) != Fine {
        return st, t + 2, o.cloud(t + 1);
      }
      var secret := db.PutSecret();
      st' := st.(keypair := Some(key.value), secret := Some(secret));
      t', fate := t + 2, Fine;
    }

    method ProvisionNetwork(st: D.DeployState, p: ProjectId, l: LabId, top: D.Topology, t: nat, o: Oracle)
      returns (st': D.DeployState, t': nat, fate: Fate)
      requires cloud.Value().Valid()
      modifies cloud
      ensures cloud.Value().Valid()
      ensures D.StepResult(cloud.Value(), db.vault, st', t', fate)
           == D.RunProvisionNetwork(old(cloud.Value()), db.vault, st, p, l, top, t, o)
    {
      if o.cloud(t) == Death {
        return st, t, Death;
      }
      var network := cloud.CreateNetwork(p, NetName(l), top.cidr, o.cloud(t) == Fault);
      if network.Err? {
        return st, t + 1, Fault;
      }
      st', t', fate := st.(network := Some(network.value)), t + 1, Fine;
    }

    method BootVms(st: D.DeployState, p: ProjectId, l: LabId, top: D.Topology, t: nat, o: Oracle)
      returns (st': D.DeployState, t': nat, fate: Fate)
      requires cloud.Value().Valid()
      modifies cloud
      ensures cloud.Value().Valid()
      ensures D.StepResult(cloud.Value(), db.vault, st', t', fate)
           == D.RunBootVm(old(cloud.Value()), db.vault, st, p, l, top, t, o)
    {
      st', t', fate := st.(servers := []), t, Fine;
      for i := 0 to |top.vms|
        invariant cloud.Value().Valid() && |st'.servers| == i && fate == Fine
        invariant D.BootRest(cloud.Value(), db.vault, st', p, l, top.vms, t', o)
               == D.RunBootVm(old(cloud.Value()), db.vault, st, p, l, top, t, o)
      {
        if o.cloud(t') == Death {
          fate := Death;
          return;
        }
        var id := cloud.BootServer(p, D.SpecFor(l, top.vms[i], st'.network, st'.keypair), o.cloud(t') == Fault);
        if id.Err? {
          t', fate := t' + 1, Fault;
          return;
        }
        st', t' := st'.(servers := st'.servers + [id.value]), t' + 1;
      }
    }

    method WaitSsh(st: D.DeployState, t: nat, o: Oracle) returns (st': D.DeployState, t': nat, fate: Fate)
      requires cloud.Value().Valid()
      modifies cloud
      ensures cloud.Value().Valid()
      ensures D.StepResult(cloud.Value(), db.vault, st', t', fate)
        == D.RunWaitSsh(old(cloud.Value()), db.vault, st, t, o)
    {
      st', t', fate := st.(ips := []), t, Fine;
      for i := 0 to |st.servers|
        invariant cloud.Value().Valid() && |st'.ips| == i && st'.servers == st.servers && fate == Fine
        invariant D.AddressRest(cloud.Value(), db.vault, st', t', o)
          == D.RunWaitSsh(old(cloud.Value()), db.vault, st, t, o)
      {
        if o.cloud(t') == Death {
          fate := Death;
          return;
        }
        var active := cloud.WaitForActive(st.servers[i], o.cloud(t') == Fault);
        if active.Err? {
          t', fate := t' + 1, Fault;
          return;
        }
        if o.cloud(t' + 1) == Death {
          t', fate := t' + 1, Death;
          return;
        }
        var ip := cloud.AllocateFloatingIp(st.servers[i], o.cloud(t' + 1) == Fault);
        if ip.Err? {
          t', fate := t' + 2, Fault;
          return;
        }
        st', t' := st'.(ips := st'.ips + [ip.value]), t' + 2;
      }
    }

    method RunStep(s: D.Step, l: LabId, st: D.DeployState, cfg: D.Config, t: nat, o: Oracle)
      returns (st': D.DeployState, t': nat, fate: Fate)
      requires cloud.Value().Valid() && l in db.labs && db.labs[l].id == l && db.labs[l].project.Some?
      modifies cloud, db`vault
      ensures cloud.Value().Valid()
      ensures D.StepResult(cloud.Value(), db.vault, st', t', fate) == D.RunStep(s, old(Env(l)), st, cfg, t, o)
    {
      var p := db.labs[l].project.value;
      match s {
        case CreateKeypair => st', t', fate := CreateKeypair(st, p, l, t, o);
        case ProvisionNetwork => st', t', fate := ProvisionNetwork(st, p, l, cfg.topology, t, o);
        case BootVm => st', t', fate := BootVms(st, p, l, cfg.topology, t, o);
        case WaitSsh => st', t', fate := WaitSsh(st, t, o);
        case InitialCheck =>
          st', t', fate := st.(check := if cfg.checks then "passed" else "skipped"), t, Fine;
      }
    }

    method Succeed(l: LabId, st: D.DeployState, cfg: D.Config, now: Time, t: nat, o: Oracle) returns (v: Verdict)
      requires l in db.labs && db.labs[l].state == L.Deploying && L.OneActive(db.labs)
      modifies db`labs
      ensures l in db.labs && db.labs == old(db.labs)[l := db.labs[l]] && L.OneActive(db.labs)
      ensures D.Outcome(Env(l), v) == D.Succeed(old(Env(l)), st, cfg, now, t, o)
    {
      L.ActiveKeepsId(db.labs, l);
      hide L.OneActive, L.HasRival;
      var lab := new L.LabInstance.FromRow(db.labs[l]);
      lab.resources := L.Resources(st.servers, st.network, st.ips, st.keypair);
      if st.secret.Some? {
        lab.checkerKey := st.secret;
        lab.studentKey := st.secret;
      }
      var error := lab.MarkReady(now + cfg.Lifetime(), now);
      assert L.Change(lab.Value(), error) == D.Finished(db.labs[l], st, cfg, now);
      hide D.Finished;
      if error.Some? {
        return Retry;
      }
      if o.store(t) != Fine {
        return Halt(o.store(t));
      }
      FinishedStays(db.labs[l], st, cfg, now);
      L.ActiveHasNoRival(db.labs, lab.Value());
      var ok := db.SaveLab(lab);
      v := Ended;
    }

    method GiveUp(l: LabId, now: Time, t: nat, o: Oracle) returns (v: Verdict)
      requires l in db.labs && L.OneActive(db.labs)
      modifies db`labs
      ensures l in db.labs && db.labs == old(db.labs)[l := db.labs[l]] && L.OneActive(db.labs)
      ensures D.Outcome(Env(l), v) == D.GiveUp(old(Env(l)), now, t, o)
    {
      L.ActiveKeepsId(db.labs, l);
      hide L.OneActive, L.HasRival;
      var lab := new L.LabInstance.FromRow(db.labs[l]);
      var error := lab.Transition(L.State.Failed, "deploy failed", now);
      if error.Some? {
        return Retry;
      }
      if o.store(t) != Fine {
        return Halt(o.store(t));
      }
      var ok := db.SaveLab(lab);
      v := Ended;
    }

    // The step has been recorded as in progress: run it and record what came
    // of it. go tells whether the loop continues; otherwise v is the verdict.
    method Attempt(l: LabId, k: nat, st: D.DeployState, cfg: D.Config, now: Time, t: nat, o: Oracle)
      returns (st': D.DeployState, t': nat, go: bool, v: Verdict)
      requires cloud.Value().Valid() && k < |D.STEPS|
      requires l in db.labs && db.labs[l].project.Some? && db.labs[l].state == L.Deploying && L.OneActive(db.labs)
      modifies db, cloud
      ensures cloud.Value().Valid() && OthersUnchanged(l)
      ensures go ==> Env(l).lab == old(Env(l)).lab
      ensures go ==> D.RunFrom(Env(l), k + 1, st', cfg, now, t', o) == D.Attempt(old(Env(l)), k, st, cfg, now, t, o)
      ensures !go ==> D.Outcome(Env(l), v) == D.Attempt(old(Env(l)), k, st, cfg, now, t, o)
    {
      hide D.RunStep, D.RunFrom, D.GiveUp, L.OneActive;
      L.ActiveKeepsId(db.labs, l);
      var s := D.STEPS[k];
      var rec := db.GetOrInit(l, s);
      var fate: Fate;
      st', t', fate := RunStep(s, l, st, cfg, t, o);
      go, v := false, Died;
      if fate == Death {
        return;
      }
      if fate == Fault {
        if o.store(t') == Death {
          return;
        }
        if o.store(t') == Fine {
          db.SaveStep(l, s, rec.(status := D.Status.Failed));
        }
        if rec.attempt >= cfg.Budget() {
          v := GiveUp(l, now, t' + 1, o);
        } else {
          v := Retry;
        }
        return;
      }
      if o.store(t') != Fine {
        v := Halt(o.store(t'));
        return;
      }
      db.SaveStep(l, s, rec.(status := D.Succeeded, result := Some(st')));
      t', go := t' + 1, true;
    }

    // One turn of the loop over the steps, for step k.
    method Advance(l: LabId, k: nat, st: D.DeployState, cfg: D.Config, now: Time, t: nat, o: Oracle)
      returns (st': D.DeployState, t': nat, go: bool, v: Verdict)
      requires cloud.Value().Valid() && k < |D.STEPS|
      requires l in db.labs && db.labs[l].project.Some? && db.labs[l].state == L.Deploying && L.OneActive(db.labs)
      modifies db, cloud
      ensures cloud.Value().Valid() && OthersUnchanged(l)
      ensures go ==> db.labs[l] == old(db.labs[l])
      ensures go ==> D.RunFrom(Env(l), k + 1, st', cfg, now, t', o) == D.RunFrom(old(Env(l)), k, st, cfg, now, t, o)
      ensures !go ==> D.Outcome(Env(l), v) == D.RunFrom(old(Env(l)), k, st, cfg, now, t, o)
    {
      hide D.Attempt, D.Succeed, D.Overlay, L.OneActive;
      st', t', go, v := st, t, false, Retry;
      if o.store(t) != Fine {
        v := Halt(o.store(t));
        return;
      }
      var s := D.STEPS[k];
      var rec := db.GetOrInit(l, s);
      if rec.status == D.Succeeded {
        st', t', go := D.Overlay(st, rec.result), t + 1, true;
        return;
      }
      if o.store(t + 1) != Fine {
        v := Halt(o.store(t + 1));
        return;
      }
      db.SaveStep(l, s, D.Begun(rec));
      st', t', go, v := Attempt(l, k, st, cfg, now, t + 2, o);
    }

    // One run of the deploy saga: resumes from the recorded steps, whatever
    // happened to the runs before.
    method Run(l: LabId, cfg: D.Config, now: Time, o: Oracle) returns (v: Verdict)
      requires cloud.Value().Valid() && L.OneActive(db.labs)
      modifies db, cloud
      ensures cloud.Value().Valid()
      ensures old(l !in db.labs) ==> v != Ended && unchanged(db) && unchanged(cloud)
      ensures old(l in db.labs) ==> OthersUnchanged(l) && D.Outcome(Env(l), v) == D.Run(old(Env(l)), cfg, now, o)
    {
      hide D.RunFrom, D.Succeed, L.OneActive;
      if o.store(0) != Fine {
        return Halt(o.store(0));
      }
      if l !in db.labs {
        return Retry;
      }
      if db.labs[l].state != L.Deploying {
        return Ended;
      }
      if db.labs[l].project.None? {
        return Retry;
      }
      ghost var whole := D.Run(Env(l), cfg, now, o);
      var st, t, k := D.START, 1, 0;
      while k < |D.STEPS|
        invariant 0 <= k <= |D.STEPS| && cloud.Value().Valid() && OthersUnchanged(l)
        invariant db.labs[l] == old(db.labs[l])
        invariant whole == D.RunFrom(Env(l), k, st, cfg, now, t, o)
      {
        var go: bool;
        st, t, go, v := Advance(l, k, st, cfg, now, t, o);
        if !go {
          return;
        }
        k := k + 1;
      }
      D.RunFromEnd(Env(l), st, cfg, now, t, o);
      v := Succeed(l, st, cfg, now, t, o);
    }
  }

  class CleanupSaga {
    const db: Database
    const cloud: Provider

    constructor (db: Database, cloud: Provider)
      ensures this.db == db && this.cloud == cloud
    {
      this.db, this.cloud := db, cloud;
    }

    // What a run for lab l sees.
    function Env(l: LabId): C.Env
      requires l in db.labs
      reads this, db, cloud
    {
      C.Env(db.labs[l], L.HasRival(db.labs, db.labs[l]), db.projects, db.vault, cloud.Value())
    }

    // The loaded lab agrees with its row.
    ghost predicate Loaded(lab: L.LabInstance)
      reads this, db, lab
    {
      lab.id in db.labs && db.labs[lab.id] == lab.Value()
    }

    // The loaded project agrees with its row.
    ghost predicate LoadedProject(project: P.ProjectAggregate, lab: L.LabInstance)
      reads this, db, project, lab
    {
      && C.RowsWellFormed(db.projects)
      && lab.project == Some(project.id) && project.id in db.projects
      && project.Value() == P.Loaded(db.projects[project.id])
    }

    // Labs other than l are as they were, so are all deploy records, and the
    // unique index still holds.
    twostate predicate OthersUnchanged(l: LabId)
      requires old(l in db.labs)
      reads this, db
    {
      && l in db.labs && db.labs == old(db.labs)[l := db.labs[l]] && db.records == old(db.records)
      && (old(L.OneActive(db.labs)) ==> L.OneActive(db.labs))
    }

    method Teardown(lab: L.LabInstance, t: nat, o: Oracle) returns (t': nat, fate: Fate)
      requires cloud.Value().Valid()
      modifies cloud
      ensures cloud.Value().Valid()
      ensures C.TeardownResult(cloud.Value(), t', fate) == C.Teardown(old(cloud.Value()), lab.Value(), t, o)
    {
      hide Cloud.Valid;
      t', fate := t, Fine;
      if lab.project.None? {
        return;
      }
      var ids := lab.resources.servers;
      for i := 0 to |ids|
        invariant cloud.Value().Valid() && fate == Fine
        invariant C.DeleteServers(cloud.Value(), ids[i..], t', o) == C.DeleteServers(old(cloud.Value()), ids, t, o)
      {
        t', fate := t' + 1, o.cloud(t');
        if fate != Fine {
          return;
        }
        var _ := cloud.DeleteServer(ids[i], false);
      }
      if lab.resources.keypair.Some? {
        t', fate := t' + 1, o.cloud(t');
        if fate != Fine {
          return;
        }
        var _ := cloud.DeleteKeypair(lab.project.value, lab.resources.keypair.value, false);
      }
      if lab.resources.network.Some? {
        t', fate := t' + 1, o.cloud(t');
        if fate != Fine {
          return;
        }
        var _ := cloud.DeleteNetwork(lab.resources.network.value, false);
      }
    }

    method FinishLab(lab: L.LabInstance, reason: string, now: Time, t: nat, o: Oracle) returns (v: Verdict)
      requires Loaded(lab)
      modifies lab, db`labs
      ensures OthersUnchanged(lab.id)
      ensures C.Outcome(Env(lab.id), v) == C.Finish(old(Env(lab.id)), reason, now, t, o)
    {
      var error := lab.Transition(L.Done, reason, now);
      if error.Some? {
        return Retry;
      }
      if o.store(t) != Fine {
        return Halt(o.store(t));
      }
      ghost var before := db.labs;
      var ok := db.SaveLab(lab);
      L.RivalIgnores(before, lab.id, lab.Value());
      v := Ended;
    }

    // The teardown failed: count it against the project's budget.
    method Fail(lab: L.LabInstance, project: P.ProjectAggregate?, now: Time, t: nat, o: Oracle) returns (v: Verdict)
      requires Loaded(lab)
      requires if project == null then C.ProjectOf(Env(lab.id)).None? else LoadedProject(project, lab)
      modifies lab, project, db
      ensures OthersUnchanged(lab.id)
      ensures C.Outcome(Env(lab.id), v) == C.AfterFailure(old(Env(lab.id)), now, t, o)
    {
      hide C.Finish, C.RowsWellFormed;
      if project == null || project.state != P.Cleaning {
        return Retry;
      }
      var _ := project.RecordCleanupFailure("teardown failed", now);
      if o.store(t) != Fine {
        return Halt(o.store(t));
      }
      var ok := db.SaveProject(project);
      if project.state == P.Quarantine {
        v := FinishLab(lab, C.QUARANTINED, now, t + 1, o);
      } else {
        v := Retry;
      }
    }

    // The teardown succeeded: return the project to the pool and end the lab.
    method Conclude(lab: L.LabInstance, project: P.ProjectAggregate?, now: Time, t: nat, o: Oracle) returns (v: Verdict)
      requires Loaded(lab)
      requires if project == null then C.ProjectOf(Env(lab.id)).None? else LoadedProject(project, lab)
      modifies lab, project, db
      ensures OthersUnchanged(lab.id)
      ensures C.Outcome(Env(lab.id), v) == C.AfterTeardown(old(Env(lab.id)), now, t, o)
    {
      hide C.Finish, C.RowsWellFormed;
      var t' := t;
      if project != null && project.state == P.Cleaning {
        var _ := project.MarkClean(now);
        if o.store(t) != Fine {
          return Halt(o.store(t));
        }
        var ok := db.SaveProject(project);
        t' := t + 1;
      }
      if lab.checkerKey.Some? {
        if o.cloud(t') == Death {
          return Died;
        }
        if o.cloud(t') == Fine {
          db.DeleteSecret(lab.checkerKey.value);
        }
        t' := t' + 1;
      }
      v := FinishLab(lab, C.COMPLETE, now, t', o);
    }

    method TearDownAndConclude(lab: L.LabInstance, project: P.ProjectAggregate?, now: Time, t: nat, o: Oracle)
      returns (v: Verdict)
      requires cloud.Value().Valid() && Loaded(lab)
      requires if project == null then C.ProjectOf(Env(lab.id)).None? else LoadedProject(project, lab)
      modifies lab, project, db, cloud
      ensures cloud.Value().Valid() && OthersUnchanged(lab.id)
      ensures C.Outcome(Env(lab.id), v) == C.AfterRelease(old(Env(lab.id)), now, t, o)
    {
      hide C.AfterFailure, C.AfterTeardown, C.Teardown, C.RowsWellFormed;
      var t', fate := Teardown(lab, t, o);
      match fate {
        case Death => v := Died;
        case Fault => v := Fail(lab, project, now, t', o);
        case Fine => v := Conclude(lab, project, now, t', o);
      }
    }

    // The lab is cleaning: load its project, release it if still allocated.
    method Proceed(lab: L.LabInstance, now: Time, t: nat, o: Oracle) returns (v: Verdict)
      requires cloud.Value().Valid() && Loaded(lab) && C.RowsWellFormed(db.projects)
      modifies lab, db, cloud
      ensures cloud.Value().Valid() && OthersUnchanged(lab.id)
      ensures C.Outcome(Env(lab.id), v) == C.AfterTransition(old(Env(lab.id)), now, t, o)
    {
      hide C.AfterRelease;
      if lab.project.None? {
        v := TearDownAndConclude(lab, null, now, t, o);
        return;
      }
      if o.store(t) != Fine {
        return Halt(o.store(t));
      }
      if lab.project.value !in db.projects {
        return Retry;
      }
      var project := new P.ProjectAggregate.FromRow(db.projects[lab.project.value]);
      var t' := t + 1;
      if project.state == P.Allocated {
        var _ := project.Release(now);
        if o.store(t') != Fine {
          return Halt(o.store(t'));
        }
        var ok := db.SaveProject(project);
        t' := t' + 1;
      }
      v := TearDownAndConclude(lab, project, now, t', o);
    }

    // Moves the lab to cleaning, unless the save fails or is refused.
    method Begin(lab: L.LabInstance, now: Time, o: Oracle) returns (stopped: Option<Verdict>)
      requires Loaded(lab) && L.CanTransition(lab.state, L.Cleaning)
      modifies lab, db`labs
      ensures old(L.OneActive(db.labs)) ==> L.OneActive(db.labs)
      ensures stopped == if o.store(1) != Fine || old(Env(lab.id)).rival then Some(Halt(o.store(1))) else None
      ensures stopped.Some? ==> db.labs == old(db.labs)
      ensures stopped.None? ==>
        Loaded(lab) && db.labs == old(db.labs)[lab.id := db.labs[lab.id]]
        && Env(lab.id) == old(Env(lab.id)).(lab := old(lab.Value()).Transition(L.Cleaning, "cleanup", now).lab.Saved())
    {
      hide L.OneActive, L.HasRival;
      var _ := lab.Transition(L.Cleaning, "cleanup", now);
      if o.store(1) != Fine {
        return Some(Halt(o.store(1)));
      }
      L.RivalIgnores(db.labs, lab.id, lab.Value());
      L.RivalIgnores(db.labs, lab.id, lab.Value().Saved());
      SeatDecides(db.labs, db.labs[lab.id], lab.Value());
      var ok := db.SaveLab(lab);
      stopped := if ok then None else Some(Retry);
    }

    lemma SeatDecides(labs: map<LabId, L.Lab>, a: L.Lab, b: L.Lab)
      requires a.id == b.id && L.SameSeat(a, b)
      ensures L.HasRival(labs, a) == L.HasRival(labs, b)
    {
    }

    // One run of the cleanup saga.
    method Run(l: LabId, now: Time, o: Oracle) returns (v: Verdict)
      requires cloud.Value().Valid() && C.RowsWellFormed(db.projects) && (l in db.labs ==> db.labs[l].id == l)
      modifies db, cloud
      ensures cloud.Value().Valid()
      ensures old(l !in db.labs) ==> v != Ended && unchanged(db) && unchanged(cloud)
      ensures old(l in db.labs) ==> OthersUnchanged(l) && C.Outcome(Env(l), v) == C.Run(old(Env(l)), now, o)
    {
      hide C.AfterTransition, C.RowsWellFormed, L.OneActive, L.HasRival;
      if o.store(0) != Fine {
        return Halt(o.store(0));
      }
      if l !in db.labs {
        return Retry;
      }
      var lab := new L.LabInstance.FromRow(db.labs[l]);
      if lab.state == L.Done {
        return Ended;
      }
      var t := 1;
      if lab.state != L.Cleaning {
        if !L.CanTransition(lab.state, L.Cleaning) {
          return Ended;
        }
        var stopped := Begin(lab, now, o);
        if stopped.Some? {
          return stopped.value;
        }
        t := 2;
      }
      v := Proceed(lab, now, t, o);
    }
  }
}

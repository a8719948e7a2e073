// What every cleanup run keeps, the one window in which stopping a run breaks
// the tie between a lab and its project, and how many runs a cleanup takes.

module CleanupProofs {
  import opened Types
  import opened CloudDomain
  import opened CleanupDomain
  import L = LabDomain
  import P = PoolDomain

  // ---------------------------------------------------------------------
  // The cloud.

  // The cloud only loses resources, and only of lab l in project p.
  ghost predicate Shrinks(c: Cloud, d: Cloud, p: ProjectId, l: LabId) {
    && c.issued == d.issued && c.capacity == d.capacity
    && (forall id :: id in d.servers ==> id in c.servers && d.servers[id] == c.servers[id])
    && (forall id :: id in d.networks ==> id in c.networks && d.networks[id] == c.networks[id])
    && d.keypairs <= c.keypairs
    && (forall id :: id in c.servers && id !in d.servers ==>
          c.servers[id].project == p && c.servers[id].spec.name.lab == l)
    && (forall id :: id in c.networks && id !in d.networks ==>
          c.networks[id].project == p && c.networks[id].name.lab == l)
    && (forall k :: k in c.keypairs && k !in d.keypairs ==> k.0 == p && k.1.lab == l)
    && (forall ip :: ip in c.floating && c.floating[ip] in d.servers ==>
          ip in d.floating && d.floating[ip] == c.floating[ip])
  }

  lemma ShrinksTransitively(b: Cloud, c: Cloud, d: Cloud, p: ProjectId, l: LabId)
    requires Shrinks(b, c, p, l) && Shrinks(c, d, p, l)
    ensures Shrinks(b, d, p, l)
  {
  }

  ghost predicate OwnsServer(c: Cloud, p: ProjectId, l: LabId, id: ServerId) {
    id in c.servers ==> c.servers[id].project == p && c.servers[id].spec.name.lab == l
  }

  ghost predicate OwnsNetwork(c: Cloud, p: ProjectId, l: LabId, id: NetworkId) {
    id in c.networks ==> c.networks[id].project == p && c.networks[id].name.lab == l
  }

  // The handles are old, and those that still name something name something
  // of lab l in project p.
  ghost predicate Owned(c: Cloud, p: ProjectId, l: LabId, res: L.Resources) {
    && (forall id :: id in res.servers ==> id <= c.issued && OwnsServer(c, p, l, id))
    && (forall id :: res.network == Some(id) ==> id <= c.issued && OwnsNetwork(c, p, l, id))
    && (forall n: Name :: res.keypair == Some(n) ==> n.lab == l)
  }

  // Everything in project p is among the handles.
  ghost predicate Covers(c: Cloud, p: ProjectId, res: L.Resources) {
    && (forall id :: id in c.servers && c.servers[id].project == p ==> id in res.servers)
    && (forall id :: id in c.networks && c.networks[id].project == p ==> res.network == Some(id))
    && (forall k :: k in c.keypairs && k.0 == p ==> res.keypair == Some(k.1))
  }

  ghost predicate Vacant(c: Cloud, p: ProjectId) {
    && (forall id :: id in c.servers ==> c.servers[id].project != p)
    && (forall id :: id in c.networks ==> c.networks[id].project != p)
    && (forall k :: k in c.keypairs ==> k.0 != p)
  }

  // A vacant project has no addresses either.
  lemma VacantHasNoAddress(c: Cloud, p: ProjectId)
    requires c.Valid() && Vacant(c, p)
    ensures forall ip :: ip in c.floating ==> c.floating[ip] in c.servers && c.servers[c.floating[ip]].project != p
  {
  }

  lemma DeleteShrinks(c: Cloud, p: ProjectId, l: LabId, id: ServerId)
    requires c.Valid() && OwnsServer(c, p, l, id)
    ensures var d := c.DeleteServer(id, false).cloud;
      d.Valid() && Shrinks(c, d, p, l) && id !in d.servers && d.networks == c.networks && d.keypairs == c.keypairs
  {
    DeleteKeepsValid(c, id, false);
  }

  lemma {:induction false} DeleteServersShrinks(c: Cloud, p: ProjectId, l: LabId, ids: seq<ServerId>, t: nat, o: Oracle)
    requires c.Valid() && forall id :: id in ids ==> OwnsServer(c, p, l, id)
    ensures var r := DeleteServers(c, ids, t, o);
      && r.cloud.Valid() && Shrinks(c, r.cloud, p, l) && r.t >= t
      && r.cloud.networks == c.networks && r.cloud.keypairs == c.keypairs
      && (r.fate == Fine ==> forall id :: id in ids ==> id !in r.cloud.servers)
    decreases ids
  {
    if ids != [] && o.cloud(t) == Fine {
      var d := c.DeleteServer(ids[0], false).cloud;
      DeleteShrinks(c, p, l, ids[0]);
      forall id | id in ids[1..]
        ensures OwnsServer(d, p, l, id)
      {
        assert OwnsServer(c, p, l, id);
      }
      DeleteServersShrinks(d, p, l, ids[1..], t + 1, o);
      ShrinksTransitively(c, d, DeleteServers(d, ids[1..], t + 1, o).cloud, p, l);
    }
  }

  lemma DeleteKeyShrinks(c: Cloud, p: ProjectId, l: LabId, key: Option<Name>, t: nat, o: Oracle)
    requires c.Valid() && forall n: Name :: key == Some(n) ==> n.lab == l
    ensures var r := DeleteKey(c, p, key, t, o);
      && r.cloud.Valid() && Shrinks(c, r.cloud, p, l) && r.cloud.servers == c.servers && r.cloud.networks == c.networks
      && (r.fate == Fine && key.Some? ==> (p, key.value) !in r.cloud.keypairs)
  {
    hide Cloud.Valid;
    if key.Some? {
      CallKeepsValid(c, CallDeleteKeypair(p, key.value, false));
    }
  }

  lemma DeleteNetShrinks(c: Cloud, p: ProjectId, l: LabId, network: Option<NetworkId>, t: nat, o: Oracle)
    requires c.Valid() && forall id :: network == Some(id) ==> OwnsNetwork(c, p, l, id)
    ensures var r := DeleteNet(c, network, t, o);
      && r.cloud.Valid() && Shrinks(c, r.cloud, p, l) && r.cloud.servers == c.servers && r.cloud.keypairs == c.keypairs
      && (r.fate == Fine && network.Some? ==> network.value !in r.cloud.networks)
  {
    hide Cloud.Valid;
    if network.Some? {
      CallKeepsValid(c, CallDeleteNetwork(network.value, false));
    }
  }

  // None of the handles names anything any more.
  ghost predicate Gone(c: Cloud, p: ProjectId, res: L.Resources) {
    && (forall id :: id in res.servers ==> id !in c.servers)
    && (res.network.Some? ==> res.network.value !in c.networks)
    && (res.keypair.Some? ==> (p, res.keypair.value) !in c.keypairs)
  }

  // A teardown, however far it gets, only removes resources of the lab's
  // project; when it succeeds, none of the lab's handles names anything.
  lemma TeardownShrinks(c: Cloud, lab: L.Lab, t: nat, o: Oracle)
    requires c.Valid() && lab.project.Some? && Owned(c, lab.project.value, lab.id, lab.resources)
    ensures var d := Teardown(c, lab, t, o);
      && d.cloud.Valid() && Shrinks(c, d.cloud, lab.project.value, lab.id)
      && (d.fate == Fine ==> Gone(d.cloud, lab.project.value, lab.resources))
  {
    hide Cloud.Valid, Shrinks, DeleteServers, DeleteKey, DeleteNet;
    var p, l, res := lab.project.value, lab.id, lab.resources;
    DeleteServersShrinks(c, p, l, res.servers, t, o);
    var a := DeleteServers(c, res.servers, t, o);
    if a.fate == Fine {
      DeleteKeyShrinks(a.cloud, p, l, res.keypair, a.t, o);
      var k := DeleteKey(a.cloud, p, res.keypair, a.t, o);
      ShrinksTransitively(c, a.cloud, k.cloud, p, l);
      if k.fate == Fine {
        DeleteNetShrinks(k.cloud, p, l, res.network, k.t, o);
        ShrinksTransitively(c, k.cloud, DeleteNet(k.cloud, res.network, k.t, o).cloud, p, l);
      }
    }
  }

  // A successful teardown of handles that cover the project vacates it, and
  // only then.
  lemma TeardownVacates(c: Cloud, lab: L.Lab, t: nat, o: Oracle)
    requires c.Valid() && lab.project.Some? && Owned(c, lab.project.value, lab.id, lab.resources)
    requires Teardown(c, lab, t, o).fate == Fine
    ensures Vacant(Teardown(c, lab, t, o).cloud, lab.project.value) <==> Covers(c, lab.project.value, lab.resources)
  {
    hide Cloud.Valid, DeleteServers, Owned;
    TeardownShrinks(c, lab, t, o);
    DeleteServersRemovesOnly(c, lab.resources.servers, t, o);
    var d, p := Teardown(c, lab, t, o).cloud, lab.project.value;
    if Vacant(d, p) {
      assert forall id :: id in c.servers && c.servers[id].project == p ==> id !in d.servers;
      assert forall id :: id in c.networks && c.networks[id].project == p ==> id !in d.networks;
      assert forall k :: k in c.keypairs && k.0 == p ==> k !in d.keypairs;
    }
  }

  lemma {:induction false} DeleteServersRemovesOnly(c: Cloud, ids: seq<ServerId>, t: nat, o: Oracle)
    ensures var r := DeleteServers(c, ids, t, o);
      && r.cloud.networks == c.networks && r.cloud.keypairs == c.keypairs
      && forall id :: id in c.servers && id !in ids ==> id in r.cloud.servers
    decreases ids
  {
    if ids != [] && o.cloud(t) == Fine {
      DeleteServersRemovesOnly(c.DeleteServer(ids[0], false).cloud, ids[1..], t + 1, o);
    }
  }

  // ---------------------------------------------------------------------
  // The lab and its project.

  // The states of a lab that hold their project.
  predicate Holding(s: L.State) {
    s in {L.Deploying, L.Ready, L.Checking, L.Frozen, L.Failed}
  }

  // How the row of a lab's project must look, given the lab.
  ghost predicate Tied(lab: L.Lab, row: P.Row) {
    && (Holding(lab.state) ==> row.state == P.Allocated && row.lab == Some(lab.id))
    && (lab.state == L.Cleaning ==>
          || (row.state in {P.Allocated, P.Cleaning} && row.lab == Some(lab.id))
          || row.state == P.Quarantine)
  }

  // The same, or the project of a cleaning lab has been freed already.
  ghost predicate Tenancy(lab: L.Lab, row: P.Row) {
    Tied(lab, row) || (lab.state == L.Cleaning && row.state == P.Free)
  }

  ghost predicate Cleanable(e: Env) {
    && RowsWellFormed(e.projects)
    && e.lab.project.Some? && e.lab.project.value in e.projects
    && (e.lab.state == L.Cleaning || L.CanTransition(e.lab.state, L.Cleaning))
  }

  ghost predicate CleanableAndTied(e: Env) {
    Cleanable(e) && Tied(e.lab, e.projects[e.lab.project.value])
  }

  // The run is stopped after the project was saved as free and before the lab
  // was saved as done; t is the number of the call that saves the project.
  predicate StopsAfterFreeing(key: Option<SecretId>, t: nat, o: Oracle) {
    && o.store(t) == Fine
    && if key.None? then o.store(t + 1) != Fine
       else o.cloud(t + 1) == Death || o.store(t + 2) != Fine
  }

  predicate AbandonedAfterTransition(e: Env, t: nat, o: Oracle) {
    && o.store(t) == Fine
    && match ProjectOf(e)
       case None => false
       case Some(project) =>
         if project.state == P.Allocated then
           var td := Teardown(e.cloud, e.lab, t + 2, o);
           o.store(t + 1) == Fine && td.fate == Fine && StopsAfterFreeing(e.lab.checkerKey, td.t, o)
         else
           var td := Teardown(e.cloud, e.lab, t + 1, o);
           project.state == P.Cleaning && td.fate == Fine && StopsAfterFreeing(e.lab.checkerKey, td.t, o)
  }

  // The guard of the one harmful interruption of a cleanup run: all calls up
  // to the save of the freed project succeed, and a later one does not.
  predicate Abandoned(e: Env, now: Time, o: Oracle) {
    && o.store(0) == Fine
    && if e.lab.state == L.Cleaning then AbandonedAfterTransition(e, 1, o)
       else
         && L.CanTransition(e.lab.state, L.Cleaning) && o.store(1) == Fine && !e.rival
         && AbandonedAfterTransition(e.(lab := e.lab.Transition(L.Cleaning, "cleanup", now).lab.Saved()), 2, o)
  }

  // The lab moves on or stays, and keeps everything else.
  ghost predicate Moved(a: L.Lab, b: L.Lab) {
    && b.state in {a.state, L.Cleaning, L.Done}
    && (b == a || b.(state := a.state, reason := a.reason, updatedAt := a.updatedAt) == a.Saved())
  }

  lemma MovesOn(a: L.Lab, b: L.Lab, to: L.State, reason: string, now: Time)
    requires Moved(a, b) && L.CanTransition(b.state, to) && to in {L.Cleaning, L.Done}
    ensures Moved(a, b.Transition(to, reason, now).lab.Saved())
  {
  }

  // What a run does to the lab and the pool, whatever happens to it.
  ghost predicate Confined(before: Env, after: Env) {
    && before.lab.project.Some? && before.lab.project.value in before.projects
    && RowsWellFormed(after.projects) && after.projects.Keys == before.projects.Keys
    && (forall p ::
          p in before.projects && (p != before.lab.project.value || before.projects[p].state == P.Quarantine) ==>
          after.projects[p] == before.projects[p])
    && Moved(before.lab, after.lab)
  }

  // A finished lab leaves its project to others.
  ghost predicate Parted(lab: L.Lab, row: P.Row) {
    lab.state == L.Done ==> row.state in {P.Free, P.Quarantine}
  }

  ghost predicate Settled(before: Env, after: Env) {
    && Confined(before, after)
    && Tied(after.lab, after.projects[before.lab.project.value])
    && Parted(after.lab, after.projects[before.lab.project.value])
  }

  // The broken state: the lab still cleaning, its project already free.
  ghost predicate Torn(before: Env, after: Env) {
    && Confined(before, after)
    && after.lab.state == L.Cleaning && after.projects[before.lab.project.value].state == P.Free
  }

  lemma StoreKeepsRows(projects: Projects, p: P.Project)
    requires RowsWellFormed(projects) && p.WellFormed() && p.id in projects
    ensures var after := Store(projects, p);
      && RowsWellFormed(after) && after.Keys == projects.Keys
      && (forall q :: q in projects && q != p.id ==> after[q] == projects[q])
      && P.Stored(p) == Ok(after[p.id])
      && after[p.id].state == p.state && after[p.id].failures == p.failures
      && (p.state in {P.Allocated, P.Cleaning} ==> after[p.id].lab == p.lab)
  {
  }

  lemma FinishSettles(b: Env, e: Env, reason: string, now: Time, t: nat, o: Oracle)
    requires e.lab.state == L.Cleaning && Confined(b, e)
    requires e.projects[b.lab.project.value].state in {P.Free, P.Quarantine}
    ensures var r := Finish(e, reason, now, t, o).env;
      if o.store(t) == Fine then Settled(b, r) else r == e
  {
    hide RowsWellFormed, Moved;
    MovesOn(b.lab, e.lab, L.Done, reason, now);
  }

  // Replacing the row of the lab's project by its saved aggregate.
  lemma SavingConfines(b: Env, e: Env, p: P.Project)
    requires Confined(b, e) && e.lab.project == b.lab.project && p.WellFormed() && p.id == b.lab.project.value
    requires e.projects[p.id].state != P.Quarantine
    ensures var after := e.(projects := Store(e.projects, p)); var row := after.projects[p.id];
      && Confined(b, after)
      && P.Stored(p) == Ok(row)
      && row.state == p.state && row.failures == p.failures
      && (p.state in {P.Allocated, P.Cleaning} ==> row.lab == p.lab)
  {
    hide RowsWellFormed, Moved, Store;
    StoreKeepsRows(e.projects, p);
  }

  lemma AfterFailureSettles(b: Env, e: Env, now: Time, t: nat, o: Oracle)
    requires e.lab.state == L.Cleaning && Settled(b, e) && e.lab.project == b.lab.project
    ensures Settled(b, AfterFailure(e, now, t, o).env)
  {
    var p := ProjectOf(e).value;
    if p.state == P.Cleaning {
      var counted := p.RecordCleanupFailure("teardown failed", now).project;
      assert counted.WellFormed();
      hide RowsWellFormed, Moved, Store, Finish, Confined;
      SavingConfines(b, e, counted);
      var saved := e.(projects := Store(e.projects, counted));
      if counted.state == P.Quarantine {
        FinishSettles(b, saved, QUARANTINED, now, t + 1, o);
      }
    }
  }

  lemma DropKeySettles(b: Env, e: Env, now: Time, t: nat, o: Oracle)
    requires e.lab.state == L.Cleaning && Confined(b, e)
    requires e.projects[b.lab.project.value].state in {P.Free, P.Quarantine}
    ensures var r := DropKey(e, now, t, o).env;
      var stopped := if e.lab.checkerKey.None? then o.store(t) != Fine
        else o.cloud(t) == Death || o.store(t + 1) != Fine;
      if stopped then r.lab == e.lab && r.projects == e.projects else Settled(b, r)
  {
    hide RowsWellFormed, Moved, Finish;
    FinishSettles(b, e, COMPLETE, now, t, o);
    FinishSettles(b, e, COMPLETE, now, t + 1, o);
    if e.lab.checkerKey.Some? {
      FinishSettles(b, e.(vault := e.vault.(live := e.vault.live - {e.lab.checkerKey.value})), COMPLETE, now, t + 1, o);
    }
  }

  lemma AfterTeardownSettles(b: Env, e: Env, now: Time, t: nat, o: Oracle)
    requires e.lab.state == L.Cleaning && Settled(b, e) && e.lab.project == b.lab.project
    requires e.projects[b.lab.project.value].state != P.Allocated
    ensures var r := AfterTeardown(e, now, t, o).env;
      var broken := e.projects[b.lab.project.value].state == P.Cleaning && StopsAfterFreeing(e.lab.checkerKey, t, o);
      if broken then Torn(b, r) else Settled(b, r)
  {
    var p := ProjectOf(e).value;
    if p.state == P.Cleaning {
      var clean := p.MarkClean(now).project;
      assert clean.WellFormed();
      hide RowsWellFormed, Moved, Store, DropKey;
      SavingConfines(b, e, clean);
      DropKeySettles(b, e.(projects := Store(e.projects, clean)), now, t + 1, o);
    } else {
      hide RowsWellFormed, Moved, Store, DropKey;
      DropKeySettles(b, e, now, t, o);
    }
  }

  lemma AfterReleaseSettles(b: Env, e: Env, now: Time, t: nat, o: Oracle)
    requires e.lab.state == L.Cleaning && Settled(b, e) && e.lab.project == b.lab.project
    requires e.projects[b.lab.project.value].state != P.Allocated
    ensures var r := AfterRelease(e, now, t, o).env; var td := Teardown(e.cloud, e.lab, t, o);
      var broken := e.projects[b.lab.project.value].state == P.Cleaning && td.fate == Fine
        && StopsAfterFreeing(e.lab.checkerKey, td.t, o);
      if broken then Torn(b, r) else Settled(b, r)
  {
    hide Teardown, AfterFailure, AfterTeardown;
    var td := Teardown(e.cloud, e.lab, t, o);
    AfterFailureSettles(b, e.(cloud := td.cloud), now, td.t, o);
    AfterTeardownSettles(b, e.(cloud := td.cloud), now, td.t, o);
  }

  lemma AfterTransitionSettles(b: Env, e: Env, now: Time, t: nat, o: Oracle)
    requires RowsWellFormed(e.projects)
    requires e.lab.state == L.Cleaning && Settled(b, e) && e.lab.project == b.lab.project
    ensures var r := AfterTransition(e, now, t, o).env;
      if AbandonedAfterTransition(e, t, o) then Torn(b, r) else Settled(b, r)
  {
    hide Teardown, AfterRelease;
    var p := ProjectOf(e).value;
    if p.state == P.Allocated {
      StoreKeepsRows(e.projects, p.Release(now).project);
      AfterReleaseSettles(b, e.(projects := Store(e.projects, p.Release(now).project)), now, t + 2, o);
    } else {
      AfterReleaseSettles(b, e, now, t + 1, o);
    }
  }

  // A cleanup run keeps the lab and its project tied exactly unless it is
  // stopped after freeing the project and before finishing the lab.
  lemma RunSettlesUnlessAbandoned(e: Env, now: Time, o: Oracle)
    requires CleanableAndTied(e)
    ensures var r := Run(e, now, o).env;
      && (Settled(e, r) <==> !Abandoned(e, now, o))
      && (Torn(e, r) <==> Abandoned(e, now, o))
  {
    hide AfterTransition, AbandonedAfterTransition;
    var moved := e.(lab := e.lab.Transition(L.Cleaning, "cleanup", now).lab.Saved());
    if e.lab.state == L.Cleaning {
      AfterTransitionSettles(e, e, now, 1, o);
    } else {
      AfterTransitionSettles(e, moved, now, 2, o);
    }
  }

  // ---------------------------------------------------------------------
  // Any run, whoever has the project.

  lemma FinishMoves(b: L.Lab, e: Env, reason: string, now: Time, t: nat, o: Oracle)
    requires Moved(b, e.lab) && e.lab.state == L.Cleaning
    ensures Moved(b, Finish(e, reason, now, t, o).env.lab)
      && Finish(e, reason, now, t, o).env.lab.state in {L.Cleaning, L.Done}
  {
    hide Moved;
    MovesOn(b, e.lab, L.Done, reason, now);
  }

  lemma AfterReleaseMoves(b: L.Lab, e: Env, now: Time, t: nat, o: Oracle)
    requires Moved(b, e.lab) && e.lab.state == L.Cleaning
    ensures var r := AfterRelease(e, now, t, o).env; Moved(b, r.lab) && r.lab.state in {L.Cleaning, L.Done}
  {
    hide Moved, Finish, Teardown, Store, ProjectOf;
    forall f: Env, reason: string, u: nat | f.lab == e.lab
      ensures Moved(b, Finish(f, reason, now, u, o).env.lab)
        && Finish(f, reason, now, u, o).env.lab.state in {L.Cleaning, L.Done}
    {
      FinishMoves(b, f, reason, now, u, o);
    }
  }

  // A run only moves the lab on to cleaning and done, and does nothing at all
  // unless it gets that far.
  lemma RunMoves(e: Env, now: Time, o: Oracle)
    requires RowsWellFormed(e.projects)
    ensures var r := Run(e, now, o).env; Moved(e.lab, r.lab) && (r == e || r.lab.state in {L.Cleaning, L.Done})
  {
    if e.lab.state == L.Cleaning {
      AfterTransitionMoves(e.lab, e, now, 1, o);
    } else if L.CanTransition(e.lab.state, L.Cleaning) {
      var moved := e.(lab := e.lab.Transition(L.Cleaning, "cleanup", now).lab.Saved());
      hide AfterTransition;
      AfterTransitionMoves(e.lab, moved, now, 2, o);
    }
  }

  lemma AfterTransitionMoves(b: L.Lab, e: Env, now: Time, t: nat, o: Oracle)
    requires RowsWellFormed(e.projects) && Moved(b, e.lab) && e.lab.state == L.Cleaning
    ensures var r := AfterTransition(e, now, t, o).env; Moved(b, r.lab) && r.lab.state in {L.Cleaning, L.Done}
  {
    hide AfterRelease, Moved, Store;
    AfterReleaseMoves(b, e, now, t, o);
    AfterReleaseMoves(b, e, now, t + 1, o);
    if ProjectOf(e).Some? {
      var p := ProjectOf(e).value;
      assert p.WellFormed();
      AfterReleaseMoves(b, e.(projects := Store(e.projects, p.Release(now).project)), now, t + 2, o);
    }
  }

  // No run reads the lab's timer, so extending its life does not postpone a
  // cleanup already scheduled: whatever fails, the run does the same.
  function Timed(e: Env, at: Option<Time>): Env {
    e.(lab := e.lab.(cleanupAt := at))
  }

  lemma RunIgnoresTimer(e: Env, at: Option<Time>, now: Time, o: Oracle)
    requires RowsWellFormed(e.projects)
    ensures var r := Run(e, now, o); Run(Timed(e, at), now, o) == r.(env := Timed(r.env, at))
  {
    hide AfterRelease, Store, RowsWellFormed;
    forall f: Env, t: nat
      ensures var r := AfterRelease(f, now, t, o); AfterRelease(Timed(f, at), now, t, o) == r.(env := Timed(r.env, at))
    {
      ReleaseIgnoresTimer(f, at, now, t, o);
    }
  }

  lemma ReleaseIgnoresTimer(e: Env, at: Option<Time>, now: Time, t: nat, o: Oracle)
    ensures var r := AfterRelease(e, now, t, o); AfterRelease(Timed(e, at), now, t, o) == r.(env := Timed(r.env, at))
  {
    hide DeleteServers, Store, DropKey, Finish, Teardown;
    assert Teardown(e.cloud, Timed(e, at).lab, t, o) == Teardown(e.cloud, e.lab, t, o)
      by { TeardownIgnoresTimer(e, at, t, o); }
    forall f: Env, u: nat
      ensures var r := Finish(f, QUARANTINED, now, u, o);
        Finish(Timed(f, at), QUARANTINED, now, u, o) == r.(env := Timed(r.env, at))
    {
      FinishIgnoresTimer(f, at, QUARANTINED, now, u, o);
    }
    forall f: Env, u: nat
      ensures var r := DropKey(f, now, u, o); DropKey(Timed(f, at), now, u, o) == r.(env := Timed(r.env, at))
    {
      DropKeyIgnoresTimer(f, at, now, u, o);
    }
  }

  lemma TeardownIgnoresTimer(e: Env, at: Option<Time>, t: nat, o: Oracle)
    ensures Teardown(e.cloud, Timed(e, at).lab, t, o) == Teardown(e.cloud, e.lab, t, o)
  {
  }

  lemma FinishIgnoresTimer(e: Env, at: Option<Time>, reason: string, now: Time, t: nat, o: Oracle)
    ensures var r := Finish(e, reason, now, t, o);
      Finish(Timed(e, at), reason, now, t, o) == r.(env := Timed(r.env, at))
  {
  }

  lemma DropKeyIgnoresTimer(e: Env, at: Option<Time>, now: Time, t: nat, o: Oracle)
    ensures var r := DropKey(e, now, t, o); DropKey(Timed(e, at), now, t, o) == r.(env := Timed(r.env, at))
  {
    hide Finish;
    FinishIgnoresTimer(e, at, COMPLETE, now, t, o);
    FinishIgnoresTimer(e, at, COMPLETE, now, t + 1, o);
    if e.lab.checkerKey.Some? {
      var dropped := e.(vault := e.vault.(live := e.vault.live - {e.lab.checkerKey.value}));
      FinishIgnoresTimer(dropped, at, COMPLETE, now, t + 1, o);
    }
  }

  // The only secret a run can delete is the lab's own.
  ghost predicate DropsOnlyKey(before: Env, after: Env) {
    && after.lab.checkerKey == before.lab.checkerKey && after.vault.next == before.vault.next
    && after.vault.live <= before.vault.live
    && forall s :: s in before.vault.live && before.lab.checkerKey != Some(s) ==> s in after.vault.live
  }

  lemma AfterReleaseDropsOnlyKey(e: Env, now: Time, t: nat, o: Oracle)
    ensures DropsOnlyKey(e, AfterRelease(e, now, t, o).env)
  {
    hide Teardown, Store, ProjectOf;
  }

  lemma RunDropsOnlyKey(e: Env, now: Time, o: Oracle)
    requires RowsWellFormed(e.projects)
    ensures DropsOnlyKey(e, Run(e, now, o).env)
  {
    hide AfterRelease, Store;
    forall f: Env, t: nat
      ensures DropsOnlyKey(f, AfterRelease(f, now, t, o).env)
    {
      AfterReleaseDropsOnlyKey(f, now, t, o);
    }
  }

  lemma RunKeepsRival(e: Env, now: Time, o: Oracle)
    requires RowsWellFormed(e.projects)
    ensures Run(e, now, o).env.rival == e.rival
  {
    hide Teardown, Store;
  }

  // The lab and the row of its project agree after the run, up to a project
  // freed before its lab was finished.
  ghost predicate Consistent(before: Env, after: Env) {
    && Confined(before, after)
    && Tenancy(after.lab, after.projects[before.lab.project.value])
    && Parted(after.lab, after.projects[before.lab.project.value])
  }

  // What any run makes of the row of its lab's project, whoever it is
  // allocated to: a project not in use is left alone, and one still in use
  // stays with the lab it names.
  ghost predicate RowKept(a: P.Row, b: P.Row) {
    && (a.state !in {P.Allocated, P.Cleaning} ==> b == a)
    && (b.state == P.Allocated ==> b == a)
    && (b.state in {P.Allocated, P.Cleaning} ==> b.lab == a.lab)
    && b.state in {a.state, P.Cleaning, P.Free, P.Quarantine}
  }

  // The row, field by field, as a run at time now leaves it: as it was,
  // released, freed, one failure further, or quarantined by the third.
  ghost predicate RowSaved(a: P.Row, b: P.Row, now: Time) {
    || b == a
    || (a.state == P.Allocated && b == a.(state := P.Cleaning, changedAt := now))
    || (a.state in {P.Allocated, P.Cleaning}
        && (|| b == a.(state := P.Free, lab := None, failures := 0, changedAt := now)
            || (a.failures < 2 && b == a.(state := P.Cleaning, failures := a.failures + 1, changedAt := now))
            || (a.failures == 2 && b == a.(state := P.Quarantine, lab := None, failures := 3, changedAt := now))))
  }

  // The lab likewise: as it was, cleaning, or done, with the reason why.
  ghost predicate LabSaved(a: L.Lab, b: L.Lab, quarantined: bool, now: Time) {
    || b == a
    || (a.state != L.Cleaning
        && b == a.(state := L.Cleaning, reason := "cleanup", updatedAt := now, pending := []))
    || b == a.(state := L.Done, reason := if quarantined then "cleanup_failed_quarantined" else "cleanup_complete",
               updatedAt := now, pending := [])
  }

  ghost predicate QuarantinedNow(before: Env, after: Env)
    requires before.lab.project.Some?
    requires before.lab.project.value in before.projects && before.lab.project.value in after.projects
  {
    var p := before.lab.project.value;
    after.projects[p].state == P.Quarantine && before.projects[p].state != P.Quarantine
  }

  // The project has been released at most.
  ghost predicate NotYetSaved(before: Env, after: Env)
    requires before.lab.project.Some?
    requires before.lab.project.value in before.projects && before.lab.project.value in after.projects
  {
    var was, row := before.projects[before.lab.project.value], after.projects[before.lab.project.value];
    row == was || (was.state == P.Allocated && row.state == P.Cleaning && row.failures == was.failures)
  }

  ghost predicate Handled(before: Env, after: Env, now: Time) {
    && Confined(before, after)
    && var was, row := before.projects[before.lab.project.value], after.projects[before.lab.project.value];
       && RowKept(was, row) && RowSaved(was, row, now)
       && LabSaved(before.lab, after.lab, QuarantinedNow(before, after), now)
       && (after.lab.state == L.Done ==> row.state !in {P.Allocated, P.Cleaning})
  }

  lemma FinishHandles(b: Env, e: Env, reason: string, now: Time, t: nat, o: Oracle)
    requires Handled(b, e, now) && e.lab.state == L.Cleaning
    requires e.projects[b.lab.project.value].state !in {P.Allocated, P.Cleaning}
    requires reason == if QuarantinedNow(b, e) then QUARANTINED else COMPLETE
    ensures Handled(b, Finish(e, reason, now, t, o).env, now)
  {
    hide RowsWellFormed, Moved, RowKept;
    MovesOn(b.lab, e.lab, L.Done, reason, now);
  }

  lemma DropKeyHandles(b: Env, e: Env, now: Time, t: nat, o: Oracle)
    requires Handled(b, e, now) && e.lab.state == L.Cleaning
    requires e.projects[b.lab.project.value].state !in {P.Allocated, P.Cleaning} && !QuarantinedNow(b, e)
    ensures Handled(b, DropKey(e, now, t, o).env, now)
  {
    hide RowsWellFormed, Moved, RowKept, Finish;
    FinishHandles(b, e, COMPLETE, now, t, o);
    FinishHandles(b, e, COMPLETE, now, t + 1, o);
    if e.lab.checkerKey.Some? {
      FinishHandles(b, e.(vault := e.vault.(live := e.vault.live - {e.lab.checkerKey.value})), COMPLETE, now, t + 1, o);
    }
  }

  lemma AfterFailureHandles(b: Env, e: Env, now: Time, t: nat, o: Oracle)
    requires Handled(b, e, now) && e.lab.state == L.Cleaning && e.lab.project == b.lab.project
    requires e.projects[b.lab.project.value].state != P.Allocated && NotYetSaved(b, e)
    ensures Handled(b, AfterFailure(e, now, t, o).env, now)
  {
    if IsCleaning(ProjectOf(e)) {
      var counted := Counted(e, now);
      assert counted.WellFormed();
      hide RowsWellFormed, Moved, Store, Finish, Confined;
      SavingConfines(b, e, counted);
      if counted.state == P.Quarantine {
        FinishHandles(b, e.(projects := Store(e.projects, counted)), QUARANTINED, now, t + 1, o);
      }
    }
  }

  lemma AfterTeardownHandles(b: Env, e: Env, now: Time, t: nat, o: Oracle)
    requires Handled(b, e, now) && e.lab.state == L.Cleaning && e.lab.project == b.lab.project
    requires e.projects[b.lab.project.value].state != P.Allocated && NotYetSaved(b, e)
    ensures Handled(b, AfterTeardown(e, now, t, o).env, now)
  {
    if IsCleaning(ProjectOf(e)) {
      var clean := ProjectOf(e).value.MarkClean(now).project;
      assert clean.WellFormed();
      hide RowsWellFormed, Moved, Store, DropKey, Confined;
      SavingConfines(b, e, clean);
      DropKeyHandles(b, e.(projects := Store(e.projects, clean)), now, t + 1, o);
    } else {
      hide RowsWellFormed, Moved, Store, DropKey, Confined;
      DropKeyHandles(b, e, now, t, o);
    }
  }

  lemma AfterReleaseHandles(b: Env, e: Env, now: Time, t: nat, o: Oracle)
    requires Handled(b, e, now) && e.lab.state == L.Cleaning && e.lab.project == b.lab.project
    requires e.projects[b.lab.project.value].state != P.Allocated && NotYetSaved(b, e)
    ensures Handled(b, AfterRelease(e, now, t, o).env, now)
  {
    hide RowsWellFormed, Moved, AfterFailure, AfterTeardown, Teardown;
    var td := Teardown(e.cloud, e.lab, t, o);
    AfterFailureHandles(b, e.(cloud := td.cloud), now, td.t, o);
    AfterTeardownHandles(b, e.(cloud := td.cloud), now, td.t, o);
  }

  lemma AfterTransitionHandles(b: Env, e: Env, now: Time, t: nat, o: Oracle)
    requires RowsWellFormed(e.projects)
    requires Handled(b, e, now) && e.lab.state == L.Cleaning && e.lab.project == b.lab.project
    requires e.projects == b.projects
    ensures Handled(b, AfterTransition(e, now, t, o).env, now)
  {
    hide Teardown, AfterRelease, Moved;
    var p := ProjectOf(e).value;
    if p.state == P.Allocated {
      var released := p.Release(now).project;
      StoreKeepsRows(e.projects, released);
      SavingConfines(b, e, released);
      AfterReleaseHandles(b, e.(projects := Store(e.projects, released)), now, t + 2, o);
    } else {
      AfterReleaseHandles(b, e, now, t + 1, o);
    }
  }

  // Whatever fails, wherever the worker dies and whoever has the project.
  lemma RunHandles(e: Env, now: Time, o: Oracle)
    requires Cleanable(e)
    ensures Handled(e, Run(e, now, o).env, now)
  {
    hide AfterTransition;
    if e.lab.state == L.Cleaning {
      AfterTransitionHandles(e, e, now, 1, o);
    } else {
      AfterTransitionHandles(e, e.(lab := e.lab.Transition(L.Cleaning, "cleanup", now).lab.Saved()), now, 2, o);
    }
  }

  // So lab and row go on agreeing, if they did.
  lemma RunIsConsistent(e: Env, now: Time, o: Oracle)
    requires Cleanable(e) && Tenancy(e.lab, e.projects[e.lab.project.value])
    ensures Consistent(e, Run(e, now, o).env)
  {
    hide Run, RowsWellFormed;
    RunMoves(e, now, o);
    RunHandles(e, now, o);
  }

  // ---------------------------------------------------------------------
  // What is left in the project.

  lemma ShrinksReflexively(c: Cloud, p: ProjectId, l: LabId)
    ensures Shrinks(c, c, p, l)
  {
  }

  // A run only removes resources of the lab's project. If it frees the
  // project, nothing is left there exactly when the lab's handles covered it.
  ghost predicate Emptied(c: Cloud, e: Env, r: Env) {
    && e.lab.project.Some?
    && r.cloud.Valid() && Shrinks(c, r.cloud, e.lab.project.value, e.lab.id)
    && (IsFree(ProjectOf(r)) && !IsFree(ProjectOf(e)) ==>
          (Vacant(r.cloud, e.lab.project.value) <==> Covers(c, e.lab.project.value, e.lab.resources)))
  }

  predicate IsFree(p: Option<P.Project>) {
    p.Some? && p.value.state == P.Free
  }

  lemma DropKeyKeepsRest(e: Env, now: Time, t: nat, o: Oracle)
    ensures var r := DropKey(e, now, t, o).env;
      r.cloud == e.cloud && r.projects == e.projects && r.lab.project == e.lab.project
  {
  }

  lemma AfterReleaseEmpties(e: Env, now: Time, t: nat, o: Oracle)
    requires e.cloud.Valid() && e.lab.project.Some? && e.lab.project.value in e.projects
    requires RowsWellFormed(e.projects) && Owned(e.cloud, e.lab.project.value, e.lab.id, e.lab.resources)
    ensures Emptied(e.cloud, e, AfterRelease(e, now, t, o).env)
  {
    hide Cloud.Valid, Shrinks, Owned, Covers, Vacant, Teardown, DropKey;
    TeardownShrinks(e.cloud, e.lab, t, o);
    var td := Teardown(e.cloud, e.lab, t, o);
    if td.fate == Fine {
      TeardownVacates(e.cloud, e.lab, t, o);
      var after := e.(cloud := td.cloud);
      DropKeyKeepsRest(after, now, td.t, o);
      var clean := ProjectOf(e).value.MarkClean(now).project;
      DropKeyKeepsRest(after.(projects := Store(e.projects, clean)), now, td.t + 1, o);
    }
  }

  lemma RunEmpties(e: Env, now: Time, o: Oracle)
    requires Cleanable(e) && e.cloud.Valid() && Owned(e.cloud, e.lab.project.value, e.lab.id, e.lab.resources)
    ensures Emptied(e.cloud, e, Run(e, now, o).env)
  {
    hide Cloud.Valid, Shrinks, Owned, Covers, Vacant, AfterRelease;
    ShrinksReflexively(e.cloud, e.lab.project.value, e.lab.id);
    AfterTransitionEmpties(e, now, 1, o);
    AfterTransitionEmpties(e.(lab := e.lab.Transition(L.Cleaning, "cleanup", now).lab.Saved()), now, 2, o);
  }

  lemma AfterTransitionEmpties(e: Env, now: Time, t: nat, o: Oracle)
    requires e.cloud.Valid() && e.lab.project.Some? && e.lab.project.value in e.projects
    requires RowsWellFormed(e.projects) && Owned(e.cloud, e.lab.project.value, e.lab.id, e.lab.resources)
    ensures Emptied(e.cloud, e, AfterTransition(e, now, t, o).env)
  {
    hide Cloud.Valid, Shrinks, Owned, Covers, Vacant, AfterRelease;
    ShrinksReflexively(e.cloud, e.lab.project.value, e.lab.id);
    var p := ProjectOf(e).value;
    if p.state == P.Allocated {
      StoreKeepsRows(e.projects, p.Release(now).project);
      AfterReleaseEmpties(e.(projects := Store(e.projects, p.Release(now).project)), now, t + 2, o);
    } else {
      AfterReleaseEmpties(e, now, t + 1, o);
    }
  }

  // In whatever state the project is, a run only removes resources of the lab.
  lemma RunShrinks(e: Env, now: Time, o: Oracle)
    requires RowsWellFormed(e.projects) && e.cloud.Valid()
    requires e.lab.project.Some? && Owned(e.cloud, e.lab.project.value, e.lab.id, e.lab.resources)
    ensures var d := Run(e, now, o).env.cloud; d.Valid() && Shrinks(e.cloud, d, e.lab.project.value, e.lab.id)
  {
    hide Cloud.Valid, Shrinks, Owned, AfterTransition;
    ShrinksReflexively(e.cloud, e.lab.project.value, e.lab.id);
    AfterTransitionShrinks(e, now, 1, o);
    AfterTransitionShrinks(e.(lab := e.lab.Transition(L.Cleaning, "cleanup", now).lab.Saved()), now, 2, o);
  }

  lemma AfterReleaseShrinks(e: Env, now: Time, t: nat, o: Oracle)
    requires e.cloud.Valid()
    requires e.lab.project.Some? && Owned(e.cloud, e.lab.project.value, e.lab.id, e.lab.resources)
    ensures var d := AfterRelease(e, now, t, o).env.cloud;
      d.Valid() && Shrinks(e.cloud, d, e.lab.project.value, e.lab.id)
  {
    hide Cloud.Valid, Shrinks, Owned, Teardown, DropKey, Store;
    TeardownShrinks(e.cloud, e.lab, t, o);
    var td := Teardown(e.cloud, e.lab, t, o);
    var after := e.(cloud := td.cloud);
    DropKeyKeepsRest(after, now, td.t, o);
    if IsCleaning(ProjectOf(e)) {
      var clean := ProjectOf(e).value.MarkClean(now).project;
      DropKeyKeepsRest(after.(projects := Store(e.projects, clean)), now, td.t + 1, o);
    }
  }

  lemma AfterTransitionShrinks(e: Env, now: Time, t: nat, o: Oracle)
    requires RowsWellFormed(e.projects) && e.cloud.Valid()
    requires e.lab.project.Some? && Owned(e.cloud, e.lab.project.value, e.lab.id, e.lab.resources)
    ensures var d := AfterTransition(e, now, t, o).env.cloud;
      d.Valid() && Shrinks(e.cloud, d, e.lab.project.value, e.lab.id)
  {
    hide Cloud.Valid, Shrinks, Owned, AfterRelease, Store;
    ShrinksReflexively(e.cloud, e.lab.project.value, e.lab.id);
    AfterReleaseShrinks(e, now, t + 1, o);
    if ProjectOf(e).Some? {
      var p := ProjectOf(e).value;
      assert p.WellFormed();
      AfterReleaseShrinks(e.(projects := Store(e.projects, p.Release(now).project)), now, t + 2, o);
    }
  }

  // ---------------------------------------------------------------------
  // Well-formed rows, and the end of a run when the database works.

  lemma RunKeepsRows(e: Env, now: Time, o: Oracle)
    requires RowsWellFormed(e.projects)
    ensures RowsWellFormed(Run(e, now, o).env.projects)
  {
    hide AfterTransition;
    AfterTransitionKeepsRows(e, now, 1, o);
    AfterTransitionKeepsRows(e.(lab := e.lab.Transition(L.Cleaning, "cleanup", now).lab.Saved()), now, 2, o);
  }

  lemma AfterReleaseKeepsRows(e: Env, now: Time, t: nat, o: Oracle)
    requires RowsWellFormed(e.projects)
    ensures RowsWellFormed(AfterRelease(e, now, t, o).env.projects)
  {
    hide Teardown, DropKey, Store, Finish;
    var td := Teardown(e.cloud, e.lab, t, o);
    var after := e.(cloud := td.cloud);
    DropKeyKeepsRest(after, now, td.t, o);
    if IsCleaning(ProjectOf(e)) {
      SavingKeepsRows(e, now);
      var clean := ProjectOf(e).value.MarkClean(now).project;
      hide RowsWellFormed;
      DropKeyKeepsRest(after.(projects := Store(e.projects, clean)), now, td.t + 1, o);
      FinishKeepsRows(after.(projects := Store(e.projects, Counted(e, now))), now, td.t + 1, o);
    }
  }

  function Counted(e: Env, now: Time): P.Project
    requires ProjectOf(e).Some?
  {
    ProjectOf(e).value.RecordCleanupFailure("teardown failed", now).project
  }

  lemma SavingKeepsRows(e: Env, now: Time)
    requires RowsWellFormed(e.projects) && IsCleaning(ProjectOf(e))
    ensures RowsWellFormed(Store(e.projects, Counted(e, now)))
    ensures RowsWellFormed(Store(e.projects, ProjectOf(e).value.MarkClean(now).project))
  {
    hide Store;
    StoreKeepsRows(e.projects, Counted(e, now));
    StoreKeepsRows(e.projects, ProjectOf(e).value.MarkClean(now).project);
  }

  lemma FinishKeepsRows(e: Env, now: Time, t: nat, o: Oracle)
    ensures Finish(e, QUARANTINED, now, t, o).env.projects == e.projects
  {
  }

  lemma AfterTransitionKeepsRows(e: Env, now: Time, t: nat, o: Oracle)
    requires RowsWellFormed(e.projects)
    ensures RowsWellFormed(AfterTransition(e, now, t, o).env.projects)
  {
    hide AfterRelease;
    if e.lab.project.None? {
      AfterReleaseKeepsRows(e, now, t, o);
    } else if ProjectOf(e).Some? {
      var p := ProjectOf(e).value;
      var released := p.Release(now).project;
      StoreKeepsRows(e.projects, released);
      AfterReleaseKeepsRows(e.(projects := Store(e.projects, released)), now, t + 2, o);
      AfterReleaseKeepsRows(e, now, t + 1, o);
    }
  }

  lemma SteadyFinish(e: Env, reason: string, now: Time, t: nat, o: Oracle)
    requires Steady(o) && e.lab.state == L.Cleaning
    ensures var r := Finish(e, reason, now, t, o).env;
      r.lab.state == L.Done && r.lab.project == e.lab.project && r.projects == e.projects
  {
  }

  lemma SteadyDropKey(e: Env, now: Time, t: nat, o: Oracle)
    requires Steady(o) && e.lab.state == L.Cleaning
    ensures var r := DropKey(e, now, t, o).env;
      r.lab.state == L.Done && r.lab.project == e.lab.project && r.projects == e.projects
  {
    hide Finish;
    SteadyFinish(e, COMPLETE, now, t, o);
    SteadyFinish(e, COMPLETE, now, t + 1, o);
    if e.lab.checkerKey.Some? {
      SteadyFinish(e.(vault := e.vault.(live := e.vault.live - {e.lab.checkerKey.value})), COMPLETE, now, t + 1, o);
    }
  }
}

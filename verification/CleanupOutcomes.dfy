// What a cleanup run does to its lab, its project and its key, told before the
// run from what it finds and which calls fail, and when a cleanup ends.

module CleanupOutcomes {
  import opened Types
  import opened CloudDomain
  import opened CleanupDomain
  import opened CleanupProofs
  import L = LabDomain
  import P = PoolDomain
  import S = LabService

  // ---------------------------------------------------------------------
  // One teardown.

  function KeypairCalls(res: L.Resources): nat { if res.keypair.Some? then 1 else 0 }

  function NetworkCalls(res: L.Resources): nat { if res.network.Some? then 1 else 0 }

  // The provider calls of a complete teardown.
  function Calls(res: L.Resources): nat {
    |res.servers| + KeypairCalls(res) + NetworkCalls(res)
  }

  // The provider calls a teardown of the lab makes.
  function Deletes(lab: L.Lab): nat {
    if lab.project.None? then 0 else Calls(lab.resources)
  }

  // No call of a teardown whose first call is number t fails.
  ghost predicate Accepted(res: L.Resources, t: nat, o: Oracle) {
    AllFine(o.cloud, t, t + Calls(res))
  }

  lemma {:induction false} DeleteServersFate(c: Cloud, ids: seq<ServerId>, t: nat, o: Oracle)
    ensures var r := DeleteServers(c, ids, t, o);
      && (r.fate == Fine ==> r.t == t + |ids| && AllFine(o.cloud, t, r.t))
      && (r.fate != Fine ==>
            t < r.t <= t + |ids| && o.cloud(r.t - 1) == r.fate && AllFine(o.cloud, t, r.t - 1))
    decreases ids
  {
    if ids != [] && o.cloud(t) == Fine {
      DeleteServersFate(c.DeleteServer(ids[0], false).cloud, ids[1..], t + 1, o);
    }
  }

  lemma TeardownFate(c: Cloud, lab: L.Lab, t: nat, o: Oracle)
    ensures var r, u := Teardown(c, lab, t, o), t + Deletes(lab);
      && (r.fate == Fine ==> r.t == u && AllFine(o.cloud, t, u))
      && (r.fate != Fine ==> t < r.t <= u && o.cloud(r.t - 1) == r.fate && AllFine(o.cloud, t, r.t - 1))
  {
    hide DeleteServers;
    DeleteServersFate(c, lab.resources.servers, t, o);
  }

  // Whatever is left in the cloud, a teardown succeeds exactly when the
  // provider refuses none of its calls.
  lemma TeardownSucceedsIff(c: Cloud, lab: L.Lab, t: nat, o: Oracle)
    requires lab.project.Some?
    ensures var r := Teardown(c, lab, t, o);
      && (r.fate == Fine <==> Accepted(lab.resources, t, o))
      && (r.fate == Fine ==> r.t == t + Calls(lab.resources))
      && (Steady(o) ==> r.fate != Death)
  {
    hide Teardown;
    TeardownFate(c, lab, t, o);
  }

  // ---------------------------------------------------------------------
  // One run.

  function RowOf(e: Env): P.Row
    requires e.lab.project.Some? && e.lab.project.value in e.projects
  {
    e.projects[e.lab.project.value]
  }

  // The number of the first call of the run's teardown.
  function TeardownAt(e: Env): nat
    requires e.lab.project.Some? && e.lab.project.value in e.projects
  {
    (if e.lab.state == L.Cleaning then 1 else 2) + (if RowOf(e).state == P.Allocated then 2 else 1)
  }

  // The run is let through: the unique index on active labs does not keep it
  // from making the lab active again.
  predicate LetThrough(e: Env) {
    e.lab.state == L.Cleaning || !e.rival
  }

  // A failed teardown is counted, and the last one quarantines the project.
  // It is not if the project has been freed or quarantined already.
  predicate Counts(e: Env)
    requires e.lab.project.Some? && e.lab.project.value in e.projects
  {
    RowOf(e).state in {P.Allocated, P.Cleaning}
  }

  // The failures the project still has before it is quarantined.
  function Left(e: Env): int
    requires e.lab.project.Some? && e.lab.project.value in e.projects
  {
    3 - RowOf(e).failures
  }

  // The lab is done, its project free and forgiven or quarantined.
  ghost predicate CleanedUp(e: Env) {
    && e.lab.state == L.Done
    && e.lab.project.Some? && e.lab.project.value in e.projects
    && var row := RowOf(e);
       || (row.state == P.Free && row.failures == 0)
       || (row.state == P.Quarantine && row.failures == 3)
  }

  // What a run makes of the project's row.
  ghost predicate RowMoves(before: P.Row, after: P.Row, clear: bool) {
    if before.state !in {P.Allocated, P.Cleaning} then after == before
    else if clear then after.state == P.Free && after.failures == 0
    else
      && after.failures == before.failures + 1
      && after.state == if after.failures == 3 then P.Quarantine else P.Cleaning
  }

  // What a run makes of lab and project when its teardown succeeds or fails.
  ghost predicate Turns(e: Env, r: Env, clear: bool)
    requires e.lab.project.Some? && e.lab.project.value in e.projects
  {
    && r.lab.project == e.lab.project && r.lab.resources == e.lab.resources && r.rival == e.rival
    && RowsWellFormed(r.projects) && e.lab.project.value in r.projects
    && r.projects == e.projects[e.lab.project.value := RowOf(r)]
    && RowMoves(RowOf(e), RowOf(r), clear)
    && r.lab.state == (if clear || (Counts(e) && Left(e) == 1) then L.Done else L.Cleaning)
    && (r.lab.state == e.lab.state ==> r.lab == e.lab)
  }

  lemma FinishTurns(e: Env, f: Env, reason: string, now: Time, t: nat, o: Oracle, clear: bool)
    requires Steady(o) && e.lab.project.Some? && e.lab.project.value in e.projects && e.lab.state == L.Cleaning
    requires f.lab == e.lab && f.rival == e.rival && RowsWellFormed(f.projects) && e.lab.project.value in f.projects
    requires f.projects == e.projects[e.lab.project.value := RowOf(f)] && RowMoves(RowOf(e), RowOf(f), clear)
    requires clear || (Counts(e) && Left(e) == 1)
    ensures Turns(e, Finish(f, reason, now, t, o).env, clear)
  {
    hide RowsWellFormed, RowMoves;
  }

  lemma AfterFailureTurns(e: Env, f: Env, now: Time, t: nat, o: Oracle)
    requires Steady(o) && Cleanable(e) && e.lab.state == L.Cleaning && RowOf(e).state != P.Allocated
    requires f == e.(cloud := f.cloud)
    ensures Turns(e, AfterFailure(f, now, t, o).env, false)
  {
    if RowOf(e).state == P.Cleaning {
      var counted := ProjectOf(f).value.RecordCleanupFailure("teardown failed", now).project;
      StoreKeepsRows(f.projects, counted);
      var saved := f.(projects := Store(f.projects, counted));
      hide RowsWellFormed, Store, Finish;
      if counted.state == P.Quarantine {
        FinishTurns(e, saved, QUARANTINED, now, t + 1, o, false);
      }
    }
  }

  lemma DropKeyTurns(e: Env, f: Env, now: Time, t: nat, o: Oracle)
    requires Steady(o) && e.lab.project.Some? && e.lab.project.value in e.projects && e.lab.state == L.Cleaning
    requires f.lab == e.lab && f.rival == e.rival && RowsWellFormed(f.projects) && e.lab.project.value in f.projects
    requires f.projects == e.projects[e.lab.project.value := RowOf(f)] && RowMoves(RowOf(e), RowOf(f), true)
    ensures Turns(e, DropKey(f, now, t, o).env, true)
  {
    hide RowsWellFormed, RowMoves, Finish, Turns;
    FinishTurns(e, f, COMPLETE, now, t, o, true);
    FinishTurns(e, f, COMPLETE, now, t + 1, o, true);
    if f.lab.checkerKey.Some? {
      FinishTurns(e, f.(vault := f.vault.(live := f.vault.live - {f.lab.checkerKey.value})), COMPLETE,
        now, t + 1, o, true);
    }
  }

  lemma AfterTeardownTurns(e: Env, f: Env, now: Time, t: nat, o: Oracle)
    requires Steady(o) && Cleanable(e) && e.lab.state == L.Cleaning && RowOf(e).state != P.Allocated
    requires f == e.(cloud := f.cloud)
    ensures Turns(e, AfterTeardown(f, now, t, o).env, true)
  {
    if RowOf(e).state == P.Cleaning {
      var clean := ProjectOf(f).value.MarkClean(now).project;
      StoreKeepsRows(f.projects, clean);
      var saved := f.(projects := Store(f.projects, clean));
      hide RowsWellFormed, Store, DropKey, Turns;
      DropKeyTurns(e, saved, now, t + 1, o);
    } else {
      hide RowsWellFormed, Store, DropKey, Turns;
      DropKeyTurns(e, f, now, t, o);
    }
  }

  lemma AfterReleaseTurns(e: Env, now: Time, t: nat, o: Oracle)
    requires Steady(o) && Cleanable(e) && e.lab.state == L.Cleaning && RowOf(e).state != P.Allocated
    ensures Turns(e, AfterRelease(e, now, t, o).env, Accepted(e.lab.resources, t, o))
  {
    hide Teardown, AfterFailure, AfterTeardown, Turns, RowsWellFormed, Accepted;
    TeardownSucceedsIff(e.cloud, e.lab, t, o);
    var td := Teardown(e.cloud, e.lab, t, o);
    AfterFailureTurns(e, e.(cloud := td.cloud), now, td.t, o);
    AfterTeardownTurns(e, e.(cloud := td.cloud), now, td.t, o);
  }

  lemma AfterTransitionTurns(e: Env, now: Time, t: nat, o: Oracle)
    requires Steady(o) && Cleanable(e) && e.lab.state == L.Cleaning
    ensures Turns(e, AfterTransition(e, now, t, o).env,
                  Accepted(e.lab.resources, t + (if RowOf(e).state == P.Allocated then 2 else 1), o))
  {
    hide AfterRelease, Store, Accepted;
    var p := ProjectOf(e).value;
    if p.state == P.Allocated {
      var released := e.(projects := Store(e.projects, p.Release(now).project));
      StoreKeepsRows(e.projects, p.Release(now).project);
      AfterReleaseTurns(released, now, t + 2, o);
      hide RowsWellFormed;
    } else {
      AfterReleaseTurns(e, now, t + 1, o);
      hide RowsWellFormed;
    }
  }

  // What a run does, told from the state before it and from the calls refused.
  lemma SteadyRunTurns(e: Env, now: Time, o: Oracle)
    requires Steady(o) && Cleanable(e) && LetThrough(e)
    ensures Turns(e, Run(e, now, o).env, Accepted(e.lab.resources, TeardownAt(e), o))
  {
    hide AfterTransition, Accepted, RowsWellFormed;
    if e.lab.state == L.Cleaning {
      AfterTransitionTurns(e, now, 1, o);
    } else {
      AfterTransitionTurns(e.(lab := e.lab.Transition(L.Cleaning, "cleanup", now).lab.Saved()), now, 2, o);
      hide RowMoves;
    }
  }

  // While a student's next lab is active, the unique index lets no run begin
  // to clean up the failed one, whatever works or fails.
  lemma RivalHoldsOff(e: Env, now: Time, o: Oracle)
    requires RowsWellFormed(e.projects) && e.rival && e.lab.state != L.Cleaning
    ensures Run(e, now, o).env == e
  {
  }

  // A run on a lab that is done changes nothing.
  lemma LaterRunsChangeNothing(e: Env, now: Time, o: Oracle)
    requires RowsWellFormed(e.projects) && e.lab.state == L.Done
    ensures Run(e, now, o).env == e
  {
  }

  // ---------------------------------------------------------------------
  // The project and the key.

  // The number of the call that deletes the key: it follows the teardown and
  // the save of a project that was being cleaned.
  function KeyAt(e: Env): nat
    requires e.lab.project.Some? && e.lab.project.value in e.projects
  {
    TeardownAt(e) + Calls(e.lab.resources) + (if Counts(e) then 1 else 0)
  }

  // The teardown succeeds, and the project, if it was in use, is saved as free.
  ghost predicate Concludes(e: Env, o: Oracle)
    requires e.lab.project.Some? && e.lab.project.value in e.projects
  {
    && LetThrough(e) && (forall i: nat :: i < TeardownAt(e) ==> o.store(i) == Fine)
    && Accepted(e.lab.resources, TeardownAt(e), o)
    && (Counts(e) ==> o.store(KeyAt(e) - 1) == Fine)
  }

  // The rows that a run can save after its teardown.
  lemma SavedRows(e: Env, now: Time)
    requires Cleanable(e) && RowOf(e).state == P.Cleaning
    ensures ProjectOf(e).Some? && IsCleaning(ProjectOf(e))
    ensures var p, freed := e.lab.project.value, Store(e.projects, ProjectOf(e).value.MarkClean(now).project);
      p in freed && freed[p].state == P.Free
    ensures var p, failed := e.lab.project.value, Store(e.projects, Counted(e, now));
      p in failed && failed[p].state in {P.Cleaning, P.Quarantine}
  {
    var clean := ProjectOf(e).value.MarkClean(now).project;
    assert clean.WellFormed() && Counted(e, now).WellFormed();
    hide Store;
    StoreKeepsRows(e.projects, clean);
    StoreKeepsRows(e.projects, Counted(e, now));
  }

  lemma AfterReleaseFreesIff(e: Env, now: Time, t: nat, o: Oracle)
    requires Cleanable(e) && e.lab.state == L.Cleaning && RowOf(e).state == P.Cleaning
    ensures var r, u := AfterRelease(e, now, t, o).env, t + Calls(e.lab.resources);
      && e.lab.project.value in r.projects && r.projects[e.lab.project.value].state != P.Allocated
      && (r.projects[e.lab.project.value].state == P.Free <==> Accepted(e.lab.resources, t, o) && o.store(u) == Fine)
  {
    SavedRows(e, now);
    hide Teardown, Accepted, DropKey, Store, Finish, RowsWellFormed;
    TeardownSucceedsIff(e.cloud, e.lab, t, o);
    var td := Teardown(e.cloud, e.lab, t, o);
    var after, clean := e.(cloud := td.cloud), ProjectOf(e).value.MarkClean(now).project;
    DropKeyKeepsRest(after.(projects := Store(e.projects, clean)), now, td.t + 1, o);
    FinishKeepsRows(after.(projects := Store(e.projects, Counted(e, now))), now, td.t + 1, o);
  }

  lemma AfterTransitionFreesIff(e: Env, now: Time, t: nat, o: Oracle)
    requires Cleanable(e) && e.lab.state == L.Cleaning && Counts(e)
    ensures var r, p := AfterTransition(e, now, t, o).env, e.lab.project.value;
      var at := t + (if RowOf(e).state == P.Allocated then 2 else 1);
      && p in r.projects
      && (r.projects[p].state == P.Free <==>
            && o.store(t) == Fine && o.store(at - 1) == Fine
            && Accepted(e.lab.resources, at, o) && o.store(at + Calls(e.lab.resources)) == Fine)
      && (RowOf(e).state == P.Allocated ==>
            (r.projects[p].state != P.Allocated <==> o.store(t) == Fine && o.store(at - 1) == Fine))
  {
    hide AfterRelease, Store, Accepted, Calls;
    var p := ProjectOf(e).value;
    if p.state == P.Allocated {
      StoreKeepsRows(e.projects, p.Release(now).project);
      AfterReleaseFreesIff(e.(projects := Store(e.projects, p.Release(now).project)), now, t + 2, o);
    } else {
      AfterReleaseFreesIff(e, now, t + 1, o);
    }
  }

  // Whatever fails, a run takes a project out of allocation exactly when all
  // its calls before the teardown work, and frees one in use exactly when it
  // concludes, whoever the project is allocated to.
  lemma RunFreesIff(e: Env, now: Time, o: Oracle)
    requires Cleanable(e) && Counts(e)
    ensures var r, p := Run(e, now, o).env, e.lab.project.value;
      && p in r.projects
      && (r.projects[p].state == P.Free <==> Concludes(e, o))
      && (RowOf(e).state == P.Allocated ==>
            (r.projects[p].state != P.Allocated <==>
              LetThrough(e) && forall i: nat :: i < TeardownAt(e) ==> o.store(i) == Fine))
  {
    hide AfterTransition, Accepted, Calls, RowsWellFormed;
    if e.lab.state == L.Cleaning {
      AfterTransitionFreesIff(e, now, 1, o);
    } else {
      AfterTransitionFreesIff(e.(lab := e.lab.Transition(L.Cleaning, "cleanup", now).lab.Saved()), now, 2, o);
    }
  }

  // A project a run frees goes to the back of its domain's line.
  lemma FreedGoesLast(e: Env, now: Time, o: Oracle, domain: string, q: ProjectId)
    requires Cleanable(e) && Counts(e) && Concludes(e, o)
    requires q in e.projects && q != e.lab.project.value && S.IsFreeIn(e.projects, domain, q)
    requires e.projects[q].changedAt < now
    ensures var r, p := Run(e, now, o).env, e.lab.project.value;
      && p in r.projects && r.projects[p].state == P.Free && r.projects[p].changedAt == now
      && !S.IsCandidate(r.projects, domain, p)
  {
    hide Run, Concludes;
    RunFreesIff(e, now, o);
    RunHandles(e, now, o);
    assert S.IsFreeIn(Run(e, now, o).env.projects, domain, q);
    hide RowsWellFormed;
  }

  lemma DropKeyDeletesIff(e: Env, now: Time, t: nat, o: Oracle, key: SecretId)
    requires e.lab.checkerKey == Some(key) && key in e.vault.live
    ensures key !in DropKey(e, now, t, o).env.vault.live <==> o.cloud(t) == Fine
  {
  }

  lemma AfterReleaseDeletesIff(e: Env, now: Time, t: nat, o: Oracle, key: SecretId)
    requires Cleanable(e) && e.lab.state == L.Cleaning && RowOf(e).state != P.Allocated
    requires e.lab.checkerKey == Some(key) && key in e.vault.live
    ensures var u := t + Calls(e.lab.resources);
      key !in AfterRelease(e, now, t, o).env.vault.live <==>
      && Accepted(e.lab.resources, t, o)
      && if RowOf(e).state == P.Cleaning then o.store(u) == Fine && o.cloud(u + 1) == Fine else o.cloud(u) == Fine
  {
    hide Teardown, Accepted, DropKey, Store, RowsWellFormed;
    TeardownSucceedsIff(e.cloud, e.lab, t, o);
    var after := e.(cloud := Teardown(e.cloud, e.lab, t, o).cloud);
    DropKeyDeletesIff(after, now, t + Calls(e.lab.resources), o, key);
    if RowOf(e).state == P.Cleaning {
      var saved := after.(projects := Store(e.projects, ProjectOf(e).value.MarkClean(now).project));
      DropKeyDeletesIff(saved, now, t + Calls(e.lab.resources) + 1, o, key);
    }
  }

  lemma AfterTransitionDeletesIff(e: Env, now: Time, t: nat, o: Oracle, key: SecretId)
    requires Cleanable(e) && e.lab.state == L.Cleaning
    requires e.lab.checkerKey == Some(key) && key in e.vault.live
    ensures var at := t + (if RowOf(e).state == P.Allocated then 2 else 1);
      var u := at + Calls(e.lab.resources);
      key !in AfterTransition(e, now, t, o).env.vault.live <==>
      && o.store(t) == Fine && o.store(at - 1) == Fine && Accepted(e.lab.resources, at, o)
      && if Counts(e) then o.store(u) == Fine && o.cloud(u + 1) == Fine else o.cloud(u) == Fine
  {
    hide AfterRelease, Store, Accepted, Calls;
    var p := ProjectOf(e).value;
    if p.state == P.Allocated {
      StoreKeepsRows(e.projects, p.Release(now).project);
      AfterReleaseDeletesIff(e.(projects := Store(e.projects, p.Release(now).project)), now, t + 2, o, key);
    } else {
      AfterReleaseDeletesIff(e, now, t + 1, o, key);
    }
  }

  // Whatever fails, a run deletes its lab's stored key exactly when it gets to
  // the call that does, and this call works. The failure of that call is only
  // logged, and a quarantining run does not get there: the lab ends all the same.
  lemma RunDeletesKeyIff(e: Env, now: Time, o: Oracle, key: SecretId)
    requires Cleanable(e) && e.lab.checkerKey == Some(key) && key in e.vault.live
    ensures key !in Run(e, now, o).env.vault.live <==> Concludes(e, o) && o.cloud(KeyAt(e)) == Fine
  {
    hide AfterTransition, Accepted, Calls, RowsWellFormed;
    if e.lab.state == L.Cleaning {
      AfterTransitionDeletesIff(e, now, 1, o, key);
    } else {
      AfterTransitionDeletesIff(e.(lab := e.lab.Transition(L.Cleaning, "cleanup", now).lab.Saved()), now, 2, o, key);
    }
  }

  // ---------------------------------------------------------------------
  // The verdict.

  predicate MayBegin(s: L.State) {
    s in {L.Ready, L.Frozen, L.Failed, L.Cleaning}
  }

  // The storage calls that come before the teardown: load the lab, save it as
  // cleaning, load its project, save it as released.
  function Prelude(e: Env): nat {
    if !MayBegin(e.lab.state) then 1
    else if !LetThrough(e) then 2
    else
      var n := if e.lab.state == L.Cleaning then 1 else 2;
      if e.lab.project.None? then n
      else if e.lab.project.value in e.projects && RowOf(e).state == P.Allocated then n + 2
      else n + 1
  }

  // If they work the run goes on to the teardown.
  predicate TearsDown(e: Env) {
    MayBegin(e.lab.state) && LetThrough(e) && (e.lab.project.None? || e.lab.project.value in e.projects)
  }

  predicate InUse(e: Env) {
    e.lab.project.Some? && e.lab.project.value in e.projects && Counts(e)
  }

  // The worker dies saving the failed teardown, or the lab it ends.
  predicate DiesCounting(e: Env, t: nat, o: Oracle) {
    && InUse(e)
    && (o.store(t) == Death || (o.store(t) == Fine && RowOf(e).failures == 2 && o.store(t + 1) == Death))
  }

  // The worker dies deleting the key or saving the lab as done.
  predicate DiesEnding(lab: L.Lab, t: nat, o: Oracle) {
    if lab.checkerKey.None? then o.store(t) == Death else o.cloud(t) == Death || o.store(t + 1) == Death
  }

  predicate DiesConcluding(e: Env, t: nat, o: Oracle) {
    if InUse(e) then o.store(t) == Death || (o.store(t) == Fine && DiesEnding(e.lab, t + 1, o))
    else DiesEnding(e.lab, t, o)
  }

  ghost predicate DiesFrom(e: Env, t: nat, o: Oracle) {
    var u := t + Deletes(e.lab);
    || FirstDies(o.cloud, t, u)
    || (exists i: nat :: FirstRefused(o.cloud, t, u, i) && DiesCounting(e, i + 1, o))
    || (AllFine(o.cloud, t, u) && DiesConcluding(e, u, o))
  }

  // One of the calls a run makes finds its worker dead.
  ghost predicate MeetsDeath(e: Env, o: Oracle) {
    || FirstDies(o.store, 0, Prelude(e))
    || (TearsDown(e) && AllFine(o.store, 0, Prelude(e)) && DiesFrom(e, Prelude(e), o))
  }

  // Only one call can be the first not to work.
  lemma FirstIsOnly(f: nat -> Fate, a: nat, b: nat, i: nat)
    requires a <= i < b && f(i) != Fine && AllFine(f, a, i)
    ensures !AllFine(f, a, b)
    ensures FirstDies(f, a, b) <==> f(i) == Death
    ensures forall j: nat :: FirstRefused(f, a, b, j) <==> j == i && f(i) == Fault
  {
  }

  lemma NoneIsFirst(f: nat -> Fate, a: nat, b: nat)
    requires AllFine(f, a, b)
    ensures !FirstDies(f, a, b) && forall j: nat :: !FirstRefused(f, a, b, j)
  {
  }

  lemma FateDecides(e: Env, t: nat, o: Oracle, r: TeardownResult)
    requires r == Teardown(e.cloud, e.lab, t, o)
    ensures r.fate == Death ==> DiesFrom(e, t, o)
    ensures r.fate == Fault ==> r.t > 0 && (DiesFrom(e, t, o) <==> DiesCounting(e, r.t, o))
    ensures r.fate == Fine ==> (DiesFrom(e, t, o) <==> DiesConcluding(e, r.t, o))
  {
    TeardownFate(e.cloud, e.lab, t, o);
    hide Teardown, DiesCounting, DiesConcluding, Deletes, AllFine, FirstDies, FirstRefused;
    var u := t + Deletes(e.lab);
    if r.fate == Fine {
      NoneIsFirst(o.cloud, t, u);
    } else {
      FirstIsOnly(o.cloud, t, u, r.t - 1);
      assert r.fate == Fault ==> FirstRefused(o.cloud, t, u, r.t - 1);
    }
  }

  lemma EndVerdict(e: Env, now: Time, t: nat, o: Oracle)
    requires e.lab.state == L.Cleaning
    ensures var r := DropKey(e, now, t, o);
      && (r.verdict == Died <==> DiesEnding(e.lab, t, o))
      && (r.verdict == Ended <==> r.env.lab.state == L.Done)
    ensures var r := Finish(e, QUARANTINED, now, t, o);
      && (r.verdict == Died <==> o.store(t) == Death)
      && (r.verdict == Ended <==> r.env.lab.state == L.Done)
  {
  }

  lemma AfterFailureVerdict(e: Env, now: Time, t: nat, o: Oracle)
    requires e.lab.state == L.Cleaning && RowsWellFormed(e.projects)
    requires e.lab.project.Some? && e.lab.project.value in e.projects ==> RowOf(e).state != P.Allocated
    ensures var r := AfterFailure(e, now, t, o);
      && (r.verdict == Died <==> DiesCounting(e, t, o))
      && (r.verdict == Ended <==> r.env.lab.state == L.Done)
  {
    hide Finish, DropKey, Store;
    if InUse(e) {
      EndVerdict(e.(projects := Store(e.projects, Counted(e, now))), now, t + 1, o);
    }
  }

  lemma AfterTeardownVerdict(e: Env, now: Time, t: nat, o: Oracle)
    requires e.lab.state == L.Cleaning
    requires e.lab.project.Some? && e.lab.project.value in e.projects ==> RowOf(e).state != P.Allocated
    ensures var r := AfterTeardown(e, now, t, o);
      && (r.verdict == Died <==> DiesConcluding(e, t, o))
      && (r.verdict == Ended <==> r.env.lab.state == L.Done)
  {
    hide Finish, DropKey, Store;
    EndVerdict(e, now, t, o);
    if InUse(e) {
      EndVerdict(e.(projects := Store(e.projects, ProjectOf(e).value.MarkClean(now).project)), now, t + 1, o);
    }
  }

  lemma AfterReleaseVerdict(e: Env, now: Time, t: nat, o: Oracle)
    requires e.lab.state == L.Cleaning && RowsWellFormed(e.projects)
    requires e.lab.project.Some? && e.lab.project.value in e.projects ==> RowOf(e).state != P.Allocated
    ensures var r := AfterRelease(e, now, t, o);
      && (r.verdict == Died <==> DiesFrom(e, t, o))
      && (r.verdict == Ended <==> r.env.lab.state == L.Done)
  {
    var td := Teardown(e.cloud, e.lab, t, o);
    FateDecides(e, t, o, td);
    hide Teardown, AfterFailure, AfterTeardown, RowsWellFormed, DiesFrom;
    AfterFailureVerdict(e.(cloud := td.cloud), now, td.t, o);
    AfterTeardownVerdict(e.(cloud := td.cloud), now, td.t, o);
  }

  // Releasing the project changes nothing of what may kill the worker later.
  lemma ReleasedDiesFrom(e: Env, f: Env, t: nat, o: Oracle)
    requires f.lab == e.lab && InUse(e) && InUse(f) && RowOf(f).failures == RowOf(e).failures
    ensures DiesFrom(f, t, o) <==> DiesFrom(e, t, o)
  {
    hide AllFine;
    forall i: nat
      ensures DiesCounting(f, i, o) == DiesCounting(e, i, o)
    {
    }
  }

  lemma IdleVerdict(e: Env, now: Time, t: nat, o: Oracle)
    requires e.lab.state == L.Cleaning && RowsWellFormed(e.projects)
    requires e.lab.project.Some? && e.lab.project.value in e.projects && RowOf(e).state != P.Allocated
    ensures var r := AfterTransition(e, now, t, o);
      && (r.verdict == Died <==> o.store(t) == Death || (o.store(t) == Fine && DiesFrom(e, t + 1, o)))
      && (r.verdict == Ended <==> r.env.lab.state == L.Done)
  {
    hide AfterRelease, DiesFrom;
    AfterReleaseVerdict(e, now, t + 1, o);
  }

  lemma AllocatedVerdict(e: Env, now: Time, t: nat, o: Oracle)
    requires e.lab.state == L.Cleaning && RowsWellFormed(e.projects)
    requires e.lab.project.Some? && e.lab.project.value in e.projects && RowOf(e).state == P.Allocated
    ensures var r := AfterTransition(e, now, t, o);
      && (r.verdict == Died <==>
            || o.store(t) == Death
            || (o.store(t) == Fine && o.store(t + 1) == Death)
            || (o.store(t) == Fine && o.store(t + 1) == Fine && DiesFrom(e, t + 2, o)))
      && (r.verdict == Ended <==> r.env.lab.state == L.Done)
  {
    hide AfterRelease, Store, DiesFrom;
    var p := ProjectOf(e).value;
    var released := e.(projects := Store(e.projects, p.Release(now).project));
    StoreKeepsRows(e.projects, p.Release(now).project);
    AfterReleaseVerdict(released, now, t + 2, o);
    ReleasedDiesFrom(e, released, t + 2, o);
  }

  lemma NoProjectVerdict(e: Env, now: Time, t: nat, o: Oracle)
    requires e.lab.state == L.Cleaning && RowsWellFormed(e.projects)
    requires e.lab.project.Some? ==> e.lab.project.value !in e.projects
    ensures var r := AfterTransition(e, now, t, o);
      && (r.verdict == Died <==> if e.lab.project.None? then DiesFrom(e, t, o) else o.store(t) == Death)
      && (r.verdict == Ended <==> r.env.lab.state == L.Done)
  {
    hide AfterRelease, DiesFrom;
    if e.lab.project.None? {
      AfterReleaseVerdict(e, now, t, o);
    }
  }

  // The calls from number t on, up to the teardown.
  ghost predicate DiesOnTheWay(e: Env, t: nat, o: Oracle)
    requires MayBegin(e.lab.state) && LetThrough(e)
  {
    var u := Prelude(e) + t - (if e.lab.state == L.Cleaning then 1 else 2);
    FirstDies(o.store, t, u) || (TearsDown(e) && AllFine(o.store, t, u) && DiesFrom(e, u, o))
  }

  lemma AfterTransitionVerdict(e: Env, now: Time, t: nat, o: Oracle)
    requires e.lab.state == L.Cleaning && RowsWellFormed(e.projects)
    ensures var r := AfterTransition(e, now, t, o);
      && (r.verdict == Died <==> DiesOnTheWay(e, t, o))
      && (r.verdict == Ended <==> r.env.lab.state == L.Done)
  {
    hide AfterTransition, DiesFrom, FirstDies, AllFine, RowsWellFormed;
    if e.lab.project.None? || e.lab.project.value !in e.projects {
      NoCalls(o.store, t);
      NoCalls(o.store, t + 1);
      FirstOfMore(o.store, t, t + 1);
      NoProjectVerdict(e, now, t, o);
    } else if RowOf(e).state == P.Allocated {
      TwoCalls(o.store, t);
      AllocatedVerdict(e, now, t, o);
    } else {
      NoCalls(o.store, t + 1);
      FirstOfMore(o.store, t, t + 1);
      IdleVerdict(e, now, t, o);
    }
  }

  // Loading the lab, and saving it as cleaning, comes before that.
  lemma BeginningDies(e: Env, o: Oracle)
    requires MayBegin(e.lab.state) && LetThrough(e)
    ensures var n := if e.lab.state == L.Cleaning then 1 else 2;
      MeetsDeath(e, o) <==> FirstDies(o.store, 0, n) || (AllFine(o.store, 0, n) && DiesOnTheWay(e, n, o))
  {
    hide DiesFrom, FirstDies, AllFine, TearsDown;
    var u := Prelude(e);
    FirstOfMore(o.store, 0, u);
    FirstOfMore(o.store, 0, 1);
    NoCalls(o.store, 1);
    if e.lab.state != L.Cleaning {
      TwoCalls(o.store, 0);
      FirstOfMore(o.store, 1, u);
    }
  }

  // What a run answers, whatever fails. It tells the queue to stop exactly when
  // it has loaded the lab and leaves it done, or found it where no cleanup may
  // begin; its worker dies exactly at a call it makes; otherwise it returns an
  // error and is to be retried.
  lemma RunVerdict(e: Env, now: Time, o: Oracle)
    requires RowsWellFormed(e.projects)
    ensures var r := Run(e, now, o);
      && (r.verdict == Ended <==>
            o.store(0) == Fine
              && (r.env.lab.state == L.Done || e.lab.state !in {L.Ready, L.Frozen, L.Failed, L.Cleaning}))
      && (r.verdict == Died <==> MeetsDeath(e, o))
      && (r.verdict == Retry <==> !(r.verdict == Ended || MeetsDeath(e, o)))
  {
    if !MayBegin(e.lab.state) || !LetThrough(e) {
      HeldVerdict(e, now, o);
    } else if e.lab.state == L.Cleaning {
      ResumedVerdict(e, now, o);
    } else {
      BegunVerdict(e, now, o);
    }
  }

  lemma HeldVerdict(e: Env, now: Time, o: Oracle)
    requires RowsWellFormed(e.projects) && (!MayBegin(e.lab.state) || !LetThrough(e))
    ensures var r := Run(e, now, o);
      && (r.verdict == Died <==> MeetsDeath(e, o))
      && (r.verdict == Ended <==> o.store(0) == Fine && !MayBegin(e.lab.state)) && r.env == e
  {
    hide DiesFrom, FirstDies, AllFine;
    FirstOfMore(o.store, 0, 1);
    NoCalls(o.store, 1);
    TwoCalls(o.store, 0);
  }

  lemma ResumedVerdict(e: Env, now: Time, o: Oracle)
    requires RowsWellFormed(e.projects) && e.lab.state == L.Cleaning
    ensures var r := Run(e, now, o);
      && (r.verdict == Died <==> MeetsDeath(e, o))
      && (r.verdict == Ended <==> r.env.lab.state == L.Done)
  {
    hide AfterTransition, RowsWellFormed, MeetsDeath, DiesOnTheWay, FirstDies, AllFine;
    BeginningDies(e, o);
    FirstOfMore(o.store, 0, 1);
    NoCalls(o.store, 1);
    AfterTransitionVerdict(e, now, 1, o);
  }

  lemma BegunVerdict(e: Env, now: Time, o: Oracle)
    requires RowsWellFormed(e.projects) && MayBegin(e.lab.state) && e.lab.state != L.Cleaning && LetThrough(e)
    ensures var r := Run(e, now, o);
      && (r.verdict == Died <==> MeetsDeath(e, o))
      && (r.verdict == Ended <==> r.env.lab.state == L.Done)
  {
    hide AfterTransition, RowsWellFormed, MeetsDeath, DiesOnTheWay, FirstDies, AllFine;
    BeginningDies(e, o);
    TwoCalls(o.store, 0);
    var begun := e.(lab := e.lab.Transition(L.Cleaning, "cleanup", now).lab.Saved());
    AfterTransitionVerdict(begun, now, 2, o);
    assert DiesOnTheWay(begun, 2, o) == DiesOnTheWay(e, 2, o) by { BegunDiesOnTheWay(e, begun, o); }
  }

  lemma BegunDiesOnTheWay(e: Env, f: Env, o: Oracle)
    requires f == e.(lab := f.lab) && f.lab.project == e.lab.project && f.lab.resources == e.lab.resources
    requires f.lab.checkerKey == e.lab.checkerKey
    requires MayBegin(e.lab.state) && LetThrough(e) && e.lab.state != L.Cleaning && f.lab.state == L.Cleaning
    ensures DiesOnTheWay(f, 2, o) <==> DiesOnTheWay(e, 2, o)
  {
    hide DiesFrom, FirstDies, AllFine;
    BegunDiesFrom(e, f, Prelude(e), o);
  }

  lemma BegunDiesFrom(e: Env, f: Env, t: nat, o: Oracle)
    requires f == e.(lab := f.lab) && f.lab.project == e.lab.project && f.lab.resources == e.lab.resources
    requires f.lab.checkerKey == e.lab.checkerKey
    ensures DiesFrom(f, t, o) <==> DiesFrom(e, t, o)
  {
    hide AllFine;
    forall i: nat
      ensures DiesCounting(f, i, o) == DiesCounting(e, i, o)
    {
    }
  }
}

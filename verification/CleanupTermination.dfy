// When a cleanup ends: any number of deliveries of its task, and the queue that
// redelivers it until it is told to stop.

module CleanupTermination {
  import opened Types
  import opened CloudDomain
  import opened CleanupDomain
  import opened CleanupProofs
  import opened CleanupOutcomes
  import L = LabDomain
  import P = PoolDomain

  // One delivery of the cleanup task, which finds whatever cloud there is.
  datatype Turn = Turn(cloud: Cloud, now: Time, o: Oracle)

  ghost predicate AllSteady(turns: seq<Turn>) {
    forall i :: 0 <= i < |turns| ==> Steady(turns[i].o)
  }

  // The deliveries after e, first to last.
  ghost function Deliver(e: Env, turns: seq<Turn>): (r: Env)
    requires RowsWellFormed(e.projects)
    ensures RowsWellFormed(r.projects)
    decreases turns
  {
    if turns == [] then e
    else
      var found := e.(cloud := turns[0].cloud);
      RunKeepsRows(found, turns[0].now, turns[0].o);
      Deliver(Run(found, turns[0].now, turns[0].o).env, turns[1..])
  }

  // The provider refuses no call of the teardown of delivery i. From the
  // second delivery on the project is no longer to be released first.
  ghost predicate Clears(e: Env, turns: seq<Turn>, i: nat)
    requires e.lab.project.Some? && e.lab.project.value in e.projects && i < |turns|
  {
    Accepted(e.lab.resources, if i == 0 then TeardownAt(e) else 2, turns[i].o)
  }

  ghost predicate Cleared(e: Env, turns: seq<Turn>)
    requires e.lab.project.Some? && e.lab.project.value in e.projects
  {
    exists i: nat :: i < |turns| && Clears(e, turns, i)
  }

  // As many teardowns are refused in a row as quarantine the project.
  ghost predicate WornOut(e: Env, turns: seq<Turn>)
    requires e.lab.project.Some? && e.lab.project.value in e.projects
  {
    Counts(e) && |turns| >= Left(e) && forall i: nat :: i < Left(e) && i < |turns| ==> !Clears(e, turns, i)
  }

  // Runs that may not begin change nothing.
  lemma NotBegunStays(e: Env, now: Time, o: Oracle)
    requires RowsWellFormed(e.projects) && !MayBegin(e.lab.state)
    ensures Run(e, now, o).env == e
  {
  }

  lemma IdleStays(e: Env, turns: seq<Turn>)
    requires RowsWellFormed(e.projects) && !MayBegin(e.lab.state)
    ensures Deliver(e, turns).(cloud := e.cloud) == e
    decreases turns
  {
    hide Run, RowsWellFormed;
    if turns != [] {
      var found := e.(cloud := turns[0].cloud);
      NotBegunStays(found, turns[0].now, turns[0].o);
      IdleStays(found, turns[1..]);
    }
  }

  lemma NothingDecided(e: Env)
    requires e.lab.project.Some? && e.lab.project.value in e.projects && (Counts(e) ==> Left(e) >= 1)
    ensures !Cleared(e, []) && !WornOut(e, [])
  {
  }

  // What the first delivery decides, and what it leaves to the others.
  lemma FirstDecides(e: Env, turns: seq<Turn>)
    requires e.lab.project.Some? && e.lab.project.value in e.projects && turns != [] && (Counts(e) ==> Left(e) >= 1)
    ensures Clears(e, turns, 0) ==> Cleared(e, turns) && !WornOut(e, turns)
    ensures Counts(e) && Left(e) == 1 ==> (WornOut(e, turns) <==> !Clears(e, turns, 0))
  {
    hide Accepted;
  }

  lemma OthersDecide(e: Env, f: Env, turns: seq<Turn>)
    requires e.lab.project.Some? && e.lab.project.value in e.projects && turns != [] && !Clears(e, turns, 0)
    requires f.lab.project == e.lab.project && f.lab.project.value in f.projects && f.lab.resources == e.lab.resources
    requires TeardownAt(f) == 2 && Counts(f) == Counts(e) && (Counts(e) ==> Left(f) == Left(e) - 1 && Left(f) >= 1)
    ensures Cleared(e, turns) <==> Cleared(f, turns[1..])
    ensures WornOut(e, turns) <==> WornOut(f, turns[1..])
  {
    hide Accepted, TeardownAt;
    forall i: nat | i < |turns| - 1
      ensures Clears(e, turns, i + 1) <==> Clears(f, turns[1..], i)
    {
    }
    if i: nat :| i < |turns| && Clears(e, turns, i) {
      assert Clears(f, turns[1..], i - 1);
    }
    if WornOut(f, turns[1..]) {
      forall i: nat | i < Left(e) && i < |turns|
        ensures !Clears(e, turns, i)
      {
        assert i > 0 ==> (Clears(e, turns, i) <==> Clears(f, turns[1..], i - 1));
      }
    }
  }

  lemma FirstClears(e: Env, turns: seq<Turn>)
    requires e.lab.project.Some? && e.lab.project.value in e.projects && turns != []
    ensures Clears(e, turns, 0) == Accepted(e.lab.resources, TeardownAt(e.(cloud := turns[0].cloud)), turns[0].o)
  {
  }

  lemma CountingIsLeft(e: Env)
    requires Cleanable(e)
    ensures Counts(e) ==> Left(e) >= 1
    ensures !Counts(e) ==> RowOf(e).state != P.Allocated
  {
  }

  // When deliveries that go on whatever they are answered end a cleanup.
  lemma {:induction false} DeliveriesEndIff(e: Env, turns: seq<Turn>)
    requires Cleanable(e) && AllSteady(turns)
    ensures var r := Deliver(e, turns);
      && (r.lab.state == L.Done <==> LetThrough(e) && (Cleared(e, turns) || WornOut(e, turns)))
      && (r.lab.state == L.Done && Counts(e) ==>
            CleanedUp(r) && r.lab.project == e.lab.project && (RowOf(r).state == P.Quarantine <==> WornOut(e, turns)))
      && (!Counts(e) ==> r.projects == e.projects)
      && r.lab.state in {e.lab.state, L.Cleaning, L.Done} && (r.lab.state == e.lab.state ==> r.lab == e.lab)
    decreases turns
  {
    hide Run, Clears, RowsWellFormed, Cleared, WornOut;
    CountingIsLeft(e);
    if turns == [] {
      NothingDecided(e);
    } else {
      var found, turn := e.(cloud := turns[0].cloud), turns[0];
      RunKeepsRows(found, turn.now, turn.o);
      var next := Run(found, turn.now, turn.o).env;
      if !LetThrough(e) {
        RivalHoldsOff(found, turn.now, turn.o);
        DeliveriesEndIff(next, turns[1..]);
      } else {
        SteadyRunTurns(found, turn.now, turn.o);
        assert Clears(e, turns, 0) == Accepted(e.lab.resources, TeardownAt(found), turn.o) by { FirstClears(e, turns); }
        if next.lab.state == L.Done {
          FirstDecides(e, turns);
          IdleStays(next, turns[1..]);
        } else {
          CountingIsLeft(next);
          OthersDecide(e, next, turns);
          DeliveriesEndIff(next, turns[1..]);
        }
      }
    }
  }

  // ---------------------------------------------------------------------
  // The queue.

  // The queue delivers a cleanup task again only while it is answered with an error
  // or its worker dies; it drops it when a run answers Ended.
  ghost function Queue(e: Env, turns: seq<Turn>): (r: Outcome)
    requires RowsWellFormed(e.projects)
    ensures RowsWellFormed(r.env.projects)
    decreases turns
  {
    if turns == [] then Outcome(e, Retry)
    else
      var found := e.(cloud := turns[0].cloud);
      var r := Run(found, turns[0].now, turns[0].o);
      RunKeepsRows(found, turns[0].now, turns[0].o);
      if r.verdict == Ended then r else Queue(r.env, turns[1..])
  }

  // What it drops would have changed nothing any more, whatever fails.
  lemma {:induction false} QueueIsDeliver(e: Env, turns: seq<Turn>)
    requires RowsWellFormed(e.projects)
    ensures var q, d := Queue(e, turns), Deliver(e, turns);
      && q.env.(cloud := d.cloud) == d
      && (q.verdict == Ended ==> q.env.lab.state == L.Done || !MayBegin(q.env.lab.state))
    decreases turns
  {
    hide Run, RowsWellFormed;
    if turns != [] {
      var found := e.(cloud := turns[0].cloud);
      RunKeepsRows(found, turns[0].now, turns[0].o);
      RunVerdict(found, turns[0].now, turns[0].o);
      var r := Run(found, turns[0].now, turns[0].o);
      if r.verdict == Ended {
        if !MayBegin(e.lab.state) {
          NotBegunStays(found, turns[0].now, turns[0].o);
        }
        IdleStays(r.env, turns[1..]);
      } else {
        QueueIsDeliver(r.env, turns[1..]);
      }
    }
  }

  // When a cleanup ends. From any lab that may be cleaned up, for a queue that
  // redelivers only after an error or a death, and any turns with a working
  // database: its task is dropped exactly when the lab is done, and that is
  // exactly when one teardown met no refusal, or the project was still counting
  // failures and has used them up; unless the student's next lab keeps the
  // cleanup from beginning. Then a counting project is free without failures,
  // or quarantined exactly if it was worn out, and any other one is untouched.
  lemma CleanupTerminatesIff(e: Env, turns: seq<Turn>)
    requires Cleanable(e) && AllSteady(turns)
    ensures var q := Queue(e, turns); var r := q.env;
      && (q.verdict == Ended <==> r.lab.state == L.Done)
      && (r.lab.state == L.Done <==> LetThrough(e) && (Cleared(e, turns) || WornOut(e, turns)))
      && (r.lab.state == L.Done && Counts(e) ==>
            CleanedUp(r) && r.lab.project == e.lab.project && (RowOf(r).state == P.Quarantine <==> WornOut(e, turns)))
      && (!Counts(e) ==> r.projects == e.projects)
      && r.lab.state in {e.lab.state, L.Cleaning, L.Done} && (r.lab.state == e.lab.state ==> r.lab == e.lab)
  {
    hide RowsWellFormed, Queue, Deliver, Cleared, WornOut;
    QueueIsDeliver(e, turns);
    DeliveriesEndIff(e, turns);
    DoneIsDropped(e, turns);
  }

  lemma {:induction false} DoneIsDropped(e: Env, turns: seq<Turn>)
    requires RowsWellFormed(e.projects) && AllSteady(turns) && e.lab.state != L.Done
    ensures Queue(e, turns).env.lab.state == L.Done ==> Queue(e, turns).verdict == Ended
    decreases turns
  {
    hide Run, RowsWellFormed;
    if turns != [] {
      var found := e.(cloud := turns[0].cloud);
      RunKeepsRows(found, turns[0].now, turns[0].o);
      RunVerdict(found, turns[0].now, turns[0].o);
      var r := Run(found, turns[0].now, turns[0].o);
      if r.verdict != Ended {
        DoneIsDropped(r.env, turns[1..]);
      }
    }
  }
}

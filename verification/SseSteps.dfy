// The broker under concurrent publishers: a publish first takes a snapshot of
// its targets and then serves them one by one, with anything in between.

module SseSteps {
  import opened Sse

  // Announcement number n of an audience: the targets not served yet, and the
  // earlier announcements that were unfinished when it began.
  datatype Announcement = Announcement(audience: string, event: Event, unserved: set<ClientId>, overlaps: set<nat>)

  // A connection: what it asked for, how many announcements there had been
  // when it connected, which wait for it and which its writer has sent.
  datatype Listener = Listener(audiences: seq<string>, since: nat, waiting: seq<nat>, sent: seq<nat>) {
    function Got(): seq<nat> { sent + waiting }
  }

  datatype Board = Board(listeners: map<ClientId, Listener>, next: ClientId, announced: seq<Announcement>)

  datatype Move =
    | Join(audiences: seq<string>)
    | Leave(id: ClientId)
    | Begin(audience: string, event: Event)
    | Serve(n: nat, id: ClientId)
    | Send(id: ClientId)

  function Unfinished(b: Board): set<nat> {
    set n | 0 <= n < |b.announced| && b.announced[n].unserved != {}
  }

  // The snapshot of a publish, taken under the lock.
  function Targets(b: Board, audience: string): set<ClientId> {
    set id | id in b.listeners && audience in b.listeners[id].audiences
  }

  function Apply(b: Board, m: Move): Board {
    match m
    case Join(audiences) =>
      Board(b.listeners[b.next := Listener(audiences, |b.announced|, [], [])], b.next + 1, b.announced)
    case Leave(id) => b.(listeners := b.listeners - {id})
    case Begin(audience, event) =>
      b.(announced := b.announced + [Announcement(audience, event, Targets(b, audience), Unfinished(b))])
    case Serve(n, id) =>
      if n >= |b.announced| || id !in b.announced[n].unserved then b
      else
        var a := b.announced[n];
        var served := b.(announced := b.announced[n := a.(unserved := a.unserved - {id})]);
        if id !in b.listeners then served
        else if |b.listeners[id].waiting| >= BUFFER_SIZE then served.(listeners := b.listeners - {id})
        else
          var l := b.listeners[id];
          served.(listeners := b.listeners[id := l.(waiting := l.waiting + [n])])
    case Send(id) =>
      if id in b.listeners && b.listeners[id].waiting != [] then
        var l := b.listeners[id];
        b.(listeners := b.listeners[id := l.(waiting := l.waiting[1..], sent := l.sent + [l.waiting[0]])])
      else b
  }

  function ApplyAll(moves: seq<Move>): Board {
    if moves == [] then Board(map[], 0, []) else Apply(ApplyAll(moves[..|moves| - 1]), moves[|moves| - 1])
  }

  // Announcement n was made to listener l after it connected.
  predicate IsFor(b: Board, l: Listener, n: nat) {
    l.since <= n < |b.announced| && b.announced[n].audience in l.audiences
  }

  // What a registered listener has got: each announcement made to it and
  // served, once, and no more than 32 of them wait.
  ghost predicate Complete(b: Board, id: ClientId)
    requires id in b.listeners
  {
    var l := b.listeners[id];
    && l.since <= |b.announced| && |l.waiting| <= BUFFER_SIZE
    && (forall n: nat :: n in l.Got() <==> IsFor(b, l, n) && id !in b.announced[n].unserved)
    && (forall i, j :: 0 <= i < j < |l.Got()| ==> l.Got()[i] != l.Got()[j])
  }

  // An announcement comes after another that it began after and that was
  // finished by then.
  ghost predicate InOrder(b: Board, got: seq<nat>) {
    forall i, j :: 0 <= i < j < |got| && got[j] < got[i] < |b.announced| ==> got[j] in b.announced[got[i]].overlaps
  }

  ghost predicate Snapshots(b: Board) {
    && (forall id :: id in b.listeners ==> id < b.next)
    && (forall n :: 0 <= n < |b.announced| ==> forall id :: id in b.announced[n].unserved ==> id < b.next)
    && (forall n, id :: 0 <= n < |b.announced| && id in b.announced[n].unserved && id in b.listeners ==>
          IsFor(b, b.listeners[id], n))
    && (forall m, n :: 0 <= m < n < |b.announced| && b.announced[m].unserved != {} ==> m in b.announced[n].overlaps)
  }

  ghost predicate Orderly(b: Board) {
    && Snapshots(b)
    && forall id :: id in b.listeners ==> Complete(b, id) && InOrder(b, b.listeners[id].Got())
  }

  lemma JoinKeepsOrderly(b: Board, m: Move)
    requires m.Join? && Orderly(b)
    ensures Orderly(Apply(b, m))
  {
    var d := Apply(b, m);
    forall id | id in d.listeners
      ensures Complete(d, id) && InOrder(d, d.listeners[id].Got())
    {
      if id in b.listeners {
        assert Complete(b, id) && InOrder(b, b.listeners[id].Got());
      }
    }
  }

  lemma LeaveKeepsOrderly(b: Board, m: Move)
    requires m.Leave? && Orderly(b)
    ensures Orderly(Apply(b, m))
  {
    var d := Apply(b, m);
    forall id | id in d.listeners
      ensures Complete(d, id) && InOrder(d, d.listeners[id].Got())
    {
      assert Complete(b, id) && InOrder(b, b.listeners[id].Got());
    }
  }

  lemma BeginKeepsOrderly(b: Board, m: Move)
    requires m.Begin? && Orderly(b)
    ensures Orderly(Apply(b, m))
  {
    var d := Apply(b, m);
    forall id | id in d.listeners
      ensures Complete(d, id) && InOrder(d, d.listeners[id].Got())
    {
      assert Complete(b, id) && InOrder(b, b.listeners[id].Got());
      assert forall n :: n in b.listeners[id].Got() ==> n < |b.announced|;
    }
  }

  lemma SendKeepsOrderly(b: Board, m: Move)
    requires m.Send? && Orderly(b)
    ensures Orderly(Apply(b, m))
  {
    var d := Apply(b, m);
    if d != b {
      var l := b.listeners[m.id];
      assert (l.sent + [l.waiting[0]]) + l.waiting[1..] == l.Got();
    }
    forall id | id in d.listeners
      ensures Complete(d, id) && InOrder(d, d.listeners[id].Got())
    {
      assert Complete(b, id) && InOrder(b, b.listeners[id].Got());
      assert d.listeners[id].Got() == b.listeners[id].Got();
    }
  }

  // A listener that is not the one served sees nothing of it.
  lemma OthersStayComplete(b: Board, d: Board, m: Move, id: ClientId)
    requires m.Serve? && Orderly(b) && d == Apply(b, m) && id in b.listeners && id != m.id
    ensures id in d.listeners && Complete(d, id) && InOrder(d, d.listeners[id].Got())
  {
    assert Complete(b, id) && InOrder(b, b.listeners[id].Got());
  }

  lemma ServedStaysComplete(b: Board, d: Board, m: Move)
    requires m.Serve? && Orderly(b) && d == Apply(b, m) && m.id in b.listeners && m.id in d.listeners && d != b
    ensures Complete(d, m.id) && InOrder(d, d.listeners[m.id].Got())
  {
    var n, id, l := m.n, m.id, b.listeners[m.id];
    var got, after := l.Got(), d.listeners[m.id].Got();
    assert Complete(b, id) && InOrder(b, got);
    assert after == got + [n];
    assert IsFor(b, l, n) && n !in got;
    forall k: nat
      ensures k in after <==> IsFor(d, d.listeners[id], k) && id !in d.announced[k].unserved
    {
      assert k in after <==> k in got || k == n;
      assert k in got <==> IsFor(b, l, k) && id !in b.announced[k].unserved;
    }
    forall i, j | 0 <= i < j < |after| && after[j] < after[i] < |d.announced|
      ensures after[j] in d.announced[after[i]].overlaps
    {
      assert j < |got| ==> got[j] in b.announced[got[i]].overlaps;
    }
  }

  lemma ServeKeepsOrderly(b: Board, m: Move)
    requires m.Serve? && Orderly(b)
    ensures Orderly(Apply(b, m))
  {
    hide Complete, InOrder;
    var d := Apply(b, m);
    if d != b {
      forall id | id in d.listeners
        ensures Complete(d, id) && InOrder(d, d.listeners[id].Got())
      {
        if id == m.id {
          ServedStaysComplete(b, d, m);
        } else {
          OthersStayComplete(b, d, m, id);
        }
      }
    }
  }

  // However publishes, connections and writes interleave, a listener that is
  // still registered has got exactly the announcements made to it that were
  // served, each once; and of two of them, one comes before the other whenever
  // its publish was over when the other's began.
  lemma {:induction false} NoGapsBetweenSteps(moves: seq<Move>)
    ensures Orderly(ApplyAll(moves))
  {
    hide Orderly, Apply;
    if moves == [] {
      EmptyIsOrderly();
    } else {
      var b, m := ApplyAll(moves[..|moves| - 1]), moves[|moves| - 1];
      NoGapsBetweenSteps(moves[..|moves| - 1]);
      match m {
        case Join(_) => JoinKeepsOrderly(b, m);
        case Leave(_) => LeaveKeepsOrderly(b, m);
        case Begin(_, _) => BeginKeepsOrderly(b, m);
        case Serve(_, _) => ServeKeepsOrderly(b, m);
        case Send(_) => SendKeepsOrderly(b, m);
      }
    }
  }

  lemma EmptyIsOrderly()
    ensures Orderly(Board(map[], 0, []))
  {
  }

  // Once every publish is over, it has got everything made to it, none left out.
  lemma FinishedLeavesNoGap(moves: seq<Move>, id: ClientId)
    requires id in ApplyAll(moves).listeners && Unfinished(ApplyAll(moves)) == {}
    ensures var b := ApplyAll(moves); var l := b.listeners[id]; forall n: nat :: n in l.Got() <==> IsFor(b, l, n)
  {
    NoGapsBetweenSteps(moves);
    var b := ApplyAll(moves);
    assert Complete(b, id);
    forall n: nat | n < |b.announced|
      ensures b.announced[n].unserved == {}
    {
      assert n !in Unfinished(b);
    }
  }
}

// The transactional outbox: what the publisher guarantees under failures of
// the bus, of the database and of its own context.

module Outbox {

  datatype Message = Message(topic: string, payload: string)

  // Row number i has id i + 1; rows are inserted in id order.
  datatype Row = Row(message: Message, attempts: nat, published: bool)

  // One publish on the bus and whether the bus accepted it.
  datatype Delivery = Delivery(row: nat, message: Message, accepted: bool)

  datatype State = State(rows: seq<Row>, log: seq<Delivery>)

  // At most limit rows are fetched, none with max or more failed attempts.
  datatype Config = Config(limit: nat, max: nat)

  const DEFAULTS := Config(100, 10)

  // What an adversary makes of one tick: whether the fetch works, after how
  // many rows the context is cancelled, which publishes and which bumps work
  // (by position in the batch), and whether the final mark works.
  datatype Luck = Luck(fetch: bool, stopAt: nat, bus: nat -> bool, bump: nat -> bool, mark: bool)

  predicate Fetchable(r: Row, max: nat) {
    !r.published && r.attempts < max
  }

  // The ordered, limited query, over the rows from number `from` on.
  function Batch(rows: seq<Row>, from: nat, limit: nat, max: nat): seq<nat>
    requires from <= |rows|
    decreases |rows| - from
  {
    if from == |rows| || limit == 0 then []
    else if Fetchable(rows[from], max) then [from] + Batch(rows, from + 1, limit - 1, max)
    else Batch(rows, from + 1, limit, max)
  }

  function Bumped(rows: seq<Row>, i: nat): seq<Row> {
    if i < |rows| then rows[i := rows[i].(attempts := rows[i].attempts + 1)] else rows
  }

  function Marked(rows: seq<Row>, ids: seq<nat>): (r: seq<Row>)
    ensures |r| == |rows|
    ensures forall i :: 0 <= i < |rows| ==> r[i] == if i in ids then rows[i].(published := true) else rows[i]
  {
    if ids == [] then rows
    else
      var rest := Marked(rows, ids[1..]);
      if ids[0] < |rows| then rest[ids[0] := rows[ids[0]].(published := true)] else rest
  }

  // The loop over the batch; published collects the rows the bus accepted.
  datatype Progress = Progress(state: State, published: seq<nat>)

  // One turn of it, at position j.
  function Turn(p: Progress, batch: seq<nat>, j: nat, luck: Luck): (q: Progress)
    requires j < |batch| && batch[j] < |p.state.rows|
    ensures |q.state.rows| == |p.state.rows|
  {
    var i, s := batch[j], p.state;
    var log := s.log + [Delivery(i, s.rows[i].message, luck.bus(j))];
    if luck.bus(j) then Progress(State(s.rows, log), p.published + [i])
    else Progress(State(if luck.bump(j) then Bumped(s.rows, i) else s.rows, log), p.published)
  }

  // The turns from position j on, until the context is cancelled.
  function Forward(p: Progress, batch: seq<nat>, j: nat, luck: Luck): Progress
    requires j <= |batch| && forall k :: 0 <= k < |batch| ==> batch[k] < |p.state.rows|
    decreases |batch| - j
  {
    if j == |batch| || j >= luck.stopAt then p else Forward(Turn(p, batch, j, luck), batch, j + 1, luck)
  }

  lemma {:induction false} FetchInRange(rows: seq<Row>, from: nat, limit: nat, max: nat)
    requires from <= |rows|
    ensures var b := Batch(rows, from, limit, max);
      && |b| <= limit
      && (forall j :: 0 <= j < |b| ==> from <= b[j] < |rows| && !rows[b[j]].published && rows[b[j]].attempts < max)
      && (forall j, k :: 0 <= j < k < |b| ==> b[j] < b[k])
    decreases |rows| - from
  {
    if from < |rows| && limit > 0 {
      FetchInRange(rows, from + 1, if Fetchable(rows[from], max) then limit - 1 else limit, max);
    }
  }

  // A fetch returns the fetchable rows with the smallest ids, in id order: a
  // fetchable row is left out only behind a full batch.
  lemma {:induction false} FetchTakesTheFirst(rows: seq<Row>, from: nat, limit: nat, max: nat, i: nat)
    requires from <= i < |rows| && !rows[i].published && rows[i].attempts < max
    ensures var b := Batch(rows, from, limit, max);
      i !in b ==> |b| == limit && forall j :: 0 <= j < |b| ==> b[j] < i
    decreases |rows| - from
  {
    if limit > 0 && from < i {
      FetchTakesTheFirst(rows, from + 1, if Fetchable(rows[from], max) then limit - 1 else limit, max, i);
    }
  }

  function AfterTick(s: State, cfg: Config, luck: Luck): State {
    var batch := Batch(s.rows, 0, cfg.limit, cfg.max);
    if !luck.fetch || batch == [] then s
    else
      FetchInRange(s.rows, 0, cfg.limit, cfg.max);
      var p := Forward(Progress(s, []), batch, 0, luck);
      if p.published == [] || !luck.mark then p.state else p.state.(rows := Marked(p.state.rows, p.published))
  }

  // ---------------------------------------------------------------------
  // The publisher as a program.

  class Table {
    var rows: seq<Row>

    method Fetch(limit: nat, max: nat) returns (batch: seq<nat>)
      ensures batch == Batch(rows, 0, limit, max)
    {
      batch := [];
      var i := 0;
      while i < |rows| && |batch| < limit
        invariant i <= |rows| && |batch| <= limit
        invariant batch + Batch(rows, i, limit - |batch|, max) == Batch(rows, 0, limit, max)
      {
        if Fetchable(rows[i], max) {
          batch := batch + [i];
        }
        i := i + 1;
      }
    }

    method BumpAttempts(i: nat)
      modifies this
      ensures rows == Bumped(old(rows), i)
    {
      if i < |rows| {
        rows := rows[i := rows[i].(attempts := rows[i].attempts + 1)];
      }
    }

    method MarkPublished(ids: seq<nat>)
      modifies this
      ensures rows == Marked(old(rows), ids)
    {
      for k := 0 to |ids|
        invariant |rows| == |old(rows)|
        invariant forall i | 0 <= i < |rows| ::
          rows[i] == if i in ids[..k] then old(rows)[i].(published := true) else old(rows)[i]
      {
        if ids[k] < |rows| {
          rows := rows[ids[k] := rows[ids[k]].(published := true)];
        }
      }
      assert ids[..|ids|] == ids;
    }
  }

  class Bus {
    var log: seq<Delivery>

    method Publish(i: nat, message: Message, works: bool) returns (ok: bool)
      modifies this
      ensures ok == works && log == old(log) + [Delivery(i, message, ok)]
    {
      ok := works;
      log := log + [Delivery(i, message, ok)];
    }
  }

  class Publisher {
    const repo: Table
    const bus: Bus
    const cfg: Config

    constructor (repo: Table, bus: Bus, cfg: Config)
      ensures this.repo == repo && this.bus == bus && this.cfg == cfg
    {
      this.repo, this.bus, this.cfg := repo, bus, cfg;
    }

    function Value(): State
      reads this, repo, bus
    {
      State(repo.rows, bus.log)
    }

    method Tick(luck: Luck)
      modifies repo, bus
      ensures Value() == AfterTick(old(Value()), cfg, luck)
    {
      if !luck.fetch {
        return;
      }
      var batch := repo.Fetch(cfg.limit, cfg.max);
      if batch == [] {
        return;
      }
      FetchInRange(repo.rows, 0, cfg.limit, cfg.max);
      var published: seq<nat> := [];
      var j := 0;
      while j < |batch| && j < luck.stopAt
        invariant j <= |batch| && |repo.rows| == |old(repo.rows)|
        invariant Forward(Progress(Value(), published), batch, j, luck)
          == Forward(Progress(old(Value()), []), batch, 0, luck)
        decreases |batch| - j
      {
        var i := batch[j];
        var ok := bus.Publish(i, repo.rows[i].message, luck.bus(j));
        if ok {
          published := published + [i];
        } else if luck.bump(j) {
          repo.BumpAttempts(i);
        }
        j := j + 1;
      }
      if published == [] || !luck.mark {
        return;
      }
      repo.MarkPublished(published);
    }
  }

  // ---------------------------------------------------------------------
  // What one tick does to each row.

  // How many rows of the batch are reached before the context is cancelled.
  function Reached(batch: seq<nat>, luck: Luck): nat {
    if luck.stopAt < |batch| then luck.stopAt else |batch|
  }

  // The row at position k once it has been tried.
  function Tried(r: Row, k: nat, luck: Luck): Row {
    if !luck.bus(k) && luck.bump(k) then r.(attempts := r.attempts + 1) else r
  }

  // And once the batch has been marked.
  function Concluded(r: Row, k: nat, luck: Luck): Row {
    if luck.bus(k) && luck.mark then r.(published := true) else Tried(r, k, luck)
  }

  ghost predicate Ascending(batch: seq<nat>) {
    forall j, k :: 0 <= j < k < |batch| ==> batch[j] < batch[k]
  }

  // The rows from position j on are bumped where the bus and not the database
  // refused.
  lemma {:induction false} ForwardRows(p: Progress, batch: seq<nat>, j: nat, luck: Luck)
    requires j <= |batch| && Ascending(batch) && forall k :: 0 <= k < |batch| ==> batch[k] < |p.state.rows|
    ensures var q := Forward(p, batch, j, luck); var n := Reached(batch, luck);
      && |q.state.rows| == |p.state.rows|
      && (forall k :: j <= k < n ==> q.state.rows[batch[k]] == Tried(p.state.rows[batch[k]], k, luck))
      && (forall i :: 0 <= i < |p.state.rows| && i !in batch[j..] ==> q.state.rows[i] == p.state.rows[i])
      && (forall k :: n <= k < |batch| && j <= k ==> q.state.rows[batch[k]] == p.state.rows[batch[k]])
    decreases |batch| - j
  {
    if j < |batch| && j < luck.stopAt {
      ForwardRows(Turn(p, batch, j, luck), batch, j + 1, luck);
      assert batch[j..] == [batch[j]] + batch[j + 1..];
      assert batch[j] !in batch[j + 1..];
      forall k | j < k < |batch|
        ensures batch[k] != batch[j] && batch[k] in batch[j + 1..]
      {
        assert batch[j + 1..][k - j - 1] == batch[k];
      }
    }
  }

  // Exactly the accepted rows are collected.
  lemma {:induction false} ForwardCollects(p: Progress, batch: seq<nat>, j: nat, luck: Luck)
    requires j <= |batch| && forall k :: 0 <= k < |batch| ==> batch[k] < |p.state.rows|
    ensures var q := Forward(p, batch, j, luck); var n := Reached(batch, luck);
      && (forall i :: i in p.published ==> i in q.published)
      && (forall k :: j <= k < n && luck.bus(k) ==> batch[k] in q.published)
      && (forall i :: i in q.published ==> i in p.published || exists k :: j <= k < n && luck.bus(k) && batch[k] == i)
    decreases |batch| - j
  {
    if j < |batch| && j < luck.stopAt {
      var next := Turn(p, batch, j, luck);
      ForwardCollects(next, batch, j + 1, luck);
      assert luck.bus(j) ==> batch[j] in next.published;
      assert forall i :: i in p.published ==> i in next.published;
    }
  }

  // A tick leaves alone every row it does not reach, and of those it reaches
  // marks the accepted ones and bumps the others, where the database allows.
  lemma TickRows(s: State, cfg: Config, luck: Luck)
    ensures var b := Batch(s.rows, 0, cfg.limit, cfg.max); var n := Reached(b, luck);
      var rows := AfterTick(s, cfg, luck).rows;
      && |rows| == |s.rows|
      && (forall k :: 0 <= k < |b| ==>
            b[k] < |s.rows| && !s.rows[b[k]].published && s.rows[b[k]].attempts < cfg.max)
      && (luck.fetch ==> forall k :: 0 <= k < n ==> rows[b[k]] == Concluded(s.rows[b[k]], k, luck))
      && (forall i :: 0 <= i < |rows| && (!luck.fetch || i !in b[..n]) ==> rows[i] == s.rows[i])
  {
    hide Forward, Batch, Fetchable;
    var b := Batch(s.rows, 0, cfg.limit, cfg.max);
    var n := Reached(b, luck);
    FetchInRange(s.rows, 0, cfg.limit, cfg.max);
    if luck.fetch && b != [] {
      ForwardRows(Progress(s, []), b, 0, luck);
      ForwardCollects(Progress(s, []), b, 0, luck);
      var p := Forward(Progress(s, []), b, 0, luck);
      forall k | 0 <= k < n && !luck.bus(k)
        ensures b[k] !in p.published
      {
      }
      forall k | 0 <= k < n
        ensures b[k] in b[..n]
      {
        assert b[..n][k] == b[k];
      }
      assert b[0..] == b;
    }
  }

  // ---------------------------------------------------------------------
  // Draining.

  function Cost(r: Row, max: nat): nat {
    if Fetchable(r, max) then max - r.attempts else 0
  }

  // The failures the fetchable rows may still have in all.
  function Budget(rows: seq<Row>, max: nat): nat {
    if rows == [] then 0 else Cost(rows[0], max) + Budget(rows[1..], max)
  }

  lemma {:induction false} BudgetFalls(before: seq<Row>, after: seq<Row>, max: nat)
    requires |before| == |after|
    requires forall i :: 0 <= i < |before| ==> Cost(after[i], max) <= Cost(before[i], max)
    ensures Budget(after, max) <= Budget(before, max)
    ensures (exists i :: 0 <= i < |before| && Cost(after[i], max) < Cost(before[i], max)) ==>
      Budget(after, max) < Budget(before, max)
  {
    if before != [] {
      forall i | 0 <= i < |before| - 1
        ensures Cost(after[1..][i], max) <= Cost(before[1..][i], max)
      {
        assert after[1..][i] == after[i + 1];
      }
      BudgetFalls(before[1..], after[1..], max);
      if i :| 0 < i < |before| && Cost(after[i], max) < Cost(before[i], max) {
        assert Cost(after[1..][i - 1], max) < Cost(before[1..][i - 1], max);
      }
    }
  }

  lemma {:induction false} NothingLeft(rows: seq<Row>, max: nat)
    ensures Budget(rows, max) == 0 <==> forall i :: 0 <= i < |rows| ==> !Fetchable(rows[i], max)
  {
    if rows != [] {
      NothingLeft(rows[1..], max);
      assert (forall i :: 0 <= i < |rows[1..]| ==> !Fetchable(rows[1..][i], max))
        <==> (forall i :: 1 <= i < |rows| ==> !Fetchable(rows[i], max)) by {
        forall i | 1 <= i < |rows|
          ensures rows[i] == rows[1..][i - 1]
        {
        }
      }
    }
  }

  // The database works and the context outlives the first row.
  ghost predicate Sound(luck: Luck) {
    luck.fetch && luck.mark && luck.stopAt > 0 && forall k :: luck.bump(k)
  }

  // Whatever the bus does, a tick of a sound database that finds a row spends
  // some of the failures left.
  lemma TickDrains(s: State, cfg: Config, luck: Luck)
    requires Sound(luck) && Batch(s.rows, 0, cfg.limit, cfg.max) != []
    ensures Budget(AfterTick(s, cfg, luck).rows, cfg.max) < Budget(s.rows, cfg.max)
  {
    var b, rows := Batch(s.rows, 0, cfg.limit, cfg.max), AfterTick(s, cfg, luck).rows;
    var n := Reached(b, luck);
    TickRows(s, cfg, luck);
    forall i | 0 <= i < |s.rows|
      ensures Cost(rows[i], cfg.max) <= Cost(s.rows[i], cfg.max)
    {
      if i in b[..n] {
        var k :| 0 <= k < n && b[k] == i;
      }
    }
    assert Cost(rows[b[0]], cfg.max) < Cost(s.rows[b[0]], cfg.max);
    BudgetFalls(s.rows, rows, cfg.max);
  }

  function AfterTicks(s: State, cfg: Config, lucks: seq<Luck>): State {
    if lucks == [] then s else AfterTick(AfterTicks(s, cfg, lucks[..|lucks| - 1]), cfg, lucks[|lucks| - 1])
  }

  lemma {:induction false} TicksDrain(s: State, cfg: Config, lucks: seq<Luck>)
    requires cfg.limit > 0 && forall i :: 0 <= i < |lucks| ==> Sound(lucks[i])
    ensures var d := AfterTicks(s, cfg, lucks);
      Budget(d.rows, cfg.max) == 0 || Budget(d.rows, cfg.max) + |lucks| <= Budget(s.rows, cfg.max)
  {
    if lucks != [] {
      var front, last := lucks[..|lucks| - 1], lucks[|lucks| - 1];
      TicksDrain(s, cfg, front);
      var d := AfterTicks(s, cfg, front);
      NothingLeft(d.rows, cfg.max);
      if i :| 0 <= i < |d.rows| && Fetchable(d.rows[i], cfg.max) {
        FetchTakesTheFirst(d.rows, 0, cfg.limit, cfg.max, i);
        TickDrains(d, cfg, last);
      } else {
        FetchInRange(d.rows, 0, cfg.limit, cfg.max);
        TickRows(d, cfg, last);
        assert AfterTick(d, cfg, last).rows == d.rows;
      }
    }
  }

  // Without inserts, as many ticks as there are failures left in the rows
  // leave every row published or exhausted, whatever the bus does.
  lemma OutboxDrains(s: State, cfg: Config, lucks: seq<Luck>)
    requires cfg.limit > 0 && forall i :: 0 <= i < |lucks| ==> Sound(lucks[i])
    requires |lucks| >= Budget(s.rows, cfg.max)
    ensures forall r | r in AfterTicks(s, cfg, lucks).rows :: r.published || r.attempts >= cfg.max
  {
    TicksDrain(s, cfg, lucks);
    NothingLeft(AfterTicks(s, cfg, lucks).rows, cfg.max);
  }

  // ---------------------------------------------------------------------
  // At least once.

  datatype Op = Insert(message: Message) | DoTick(luck: Luck)

  function Apply(s: State, cfg: Config, op: Op): State {
    match op
    case Insert(message) => s.(rows := s.rows + [Row(message, 0, false)])
    case DoTick(luck) => AfterTick(s, cfg, luck)
  }

  function ApplyAll(cfg: Config, ops: seq<Op>): State {
    if ops == [] then State([], [])
    else Apply(ApplyAll(cfg, ops[..|ops| - 1]), cfg, ops[|ops| - 1])
  }

  function Failures(log: seq<Delivery>, i: nat): nat {
    if log == [] then 0
    else Failures(log[..|log| - 1], i) + if log[|log| - 1].row == i && !log[|log| - 1].accepted then 1 else 0
  }

  ghost predicate Accepted(log: seq<Delivery>, i: nat) {
    exists d :: d in log && d.row == i && d.accepted
  }

  // Nothing counts as published that the bus has not accepted, no more
  // failures are counted than there were, and the bus got the rows' messages.
  ghost predicate Honest(s: State) {
    && (forall i :: 0 <= i < |s.rows| ==>
          (s.rows[i].published ==> Accepted(s.log, i)) && s.rows[i].attempts <= Failures(s.log, i))
    && (forall d :: d in s.log ==> d.row < |s.rows| && d.message == s.rows[d.row].message)
  }

  lemma LogWith(log: seq<Delivery>, d: Delivery, i: nat)
    ensures Failures(log + [d], i) == Failures(log, i) + if d.row == i && !d.accepted then 1 else 0
    ensures Accepted(log + [d], i) <==> Accepted(log, i) || (d.row == i && d.accepted)
  {
    var all := log + [d];
    assert all[..|log|] == log;
    if Accepted(log, i) {
      var x :| x in log && x.row == i && x.accepted;
      assert x in all;
    }
    assert d in all;
  }

  lemma {:induction false} ForwardIsHonest(p: Progress, batch: seq<nat>, j: nat, luck: Luck)
    requires j <= |batch| && forall k :: 0 <= k < |batch| ==> batch[k] < |p.state.rows|
    requires Honest(p.state) && forall i :: i in p.published ==> Accepted(p.state.log, i)
    ensures var q := Forward(p, batch, j, luck);
      Honest(q.state) && |q.state.rows| == |p.state.rows| && forall i :: i in q.published ==> Accepted(q.state.log, i)
    decreases |batch| - j
  {
    if j < |batch| && j < luck.stopAt {
      var i, s := batch[j], p.state;
      var d := Delivery(i, s.rows[i].message, luck.bus(j));
      var next := Turn(p, batch, j, luck);
      forall m: nat
        ensures Failures(s.log + [d], m) == Failures(s.log, m) + if d.row == m && !d.accepted then 1 else 0
        ensures Accepted(s.log + [d], m) <==> Accepted(s.log, m) || (d.row == m && d.accepted)
      {
        LogWith(s.log, d, m);
      }
      ForwardIsHonest(next, batch, j + 1, luck);
    }
  }

  lemma {:induction false} HistoriesAreHonest(cfg: Config, ops: seq<Op>)
    ensures Honest(ApplyAll(cfg, ops))
  {
    if ops != [] {
      var s, op := ApplyAll(cfg, ops[..|ops| - 1]), ops[|ops| - 1];
      HistoriesAreHonest(cfg, ops[..|ops| - 1]);
      if op.DoTick? {
        var b := Batch(s.rows, 0, cfg.limit, cfg.max);
        FetchInRange(s.rows, 0, cfg.limit, cfg.max);
        ForwardIsHonest(Progress(s, []), b, 0, op.luck);
      }
    }
  }

  // Under any failures of the bus, the bumps and the marks, a row marked as
  // published was accepted by the bus at least once, and a row that was never
  // accepted stays in line until it has failed max times.
  lemma PublishedAtLeastOnce(cfg: Config, ops: seq<Op>, i: nat)
    requires i < |ApplyAll(cfg, ops).rows|
    ensures var s := ApplyAll(cfg, ops);
      && (s.rows[i].published ==> exists d :: d in s.log && d.accepted && d.row == i && d.message == s.rows[i].message)
      && (!Accepted(s.log, i) && Failures(s.log, i) < cfg.max ==>
            !s.rows[i].published && s.rows[i].attempts < cfg.max)
  {
    HistoriesAreHonest(cfg, ops);
  }

  // ---------------------------------------------------------------------
  // At most once.

  // How often the bus has taken row i.
  function Taken(log: seq<Delivery>, i: nat): nat {
    if log == [] then 0
    else Taken(log[..|log| - 1], i) + if log[|log| - 1].row == i && log[|log| - 1].accepted then 1 else 0
  }

  lemma TakenWith(log: seq<Delivery>, d: Delivery, i: nat)
    ensures Taken(log + [d], i) == Taken(log, i) + if d.row == i && d.accepted then 1 else 0
  {
    assert (log + [d])[..|log|] == log;
  }

  lemma {:induction false} TakenIffAccepted(log: seq<Delivery>, i: nat)
    ensures Taken(log, i) > 0 <==> Accepted(log, i)
  {
    if log != [] {
      var front, d := log[..|log| - 1], log[|log| - 1];
      TakenIffAccepted(front, i);
      assert log == front + [d];
      LogWith(front, d, i);
    }
  }

  // The bus takes row i at a position from j on of the batch.
  ghost predicate Takes(batch: seq<nat>, j: nat, luck: Luck, i: nat) {
    exists k :: j <= k < Reached(batch, luck) && batch[k] == i && luck.bus(k)
  }

  lemma {:induction false} ForwardTakes(p: Progress, batch: seq<nat>, j: nat, luck: Luck, i: nat)
    requires j <= |batch| && Ascending(batch) && forall k :: 0 <= k < |batch| ==> batch[k] < |p.state.rows|
    ensures Taken(Forward(p, batch, j, luck).state.log, i)
         == Taken(p.state.log, i) + if Takes(batch, j, luck, i) then 1 else 0
    decreases |batch| - j
  {
    if j < |batch| && j < luck.stopAt {
      TakenWith(p.state.log, Delivery(batch[j], p.state.rows[batch[j]].message, luck.bus(j)), i);
      ForwardTakes(Turn(p, batch, j, luck), batch, j + 1, luck, i);
      if batch[j] == i {
        assert !Takes(batch, j + 1, luck, i);
        assert luck.bus(j) ==> j < Reached(batch, luck) && batch[j] == i && luck.bus(j);
      }
    }
  }

  // The bus takes a row of the tick's batch that it has taken before.
  ghost predicate Redelivers(s: State, cfg: Config, luck: Luck) {
    luck.fetch && exists i :: Takes(Batch(s.rows, 0, cfg.limit, cfg.max), 0, luck, i) && Accepted(s.log, i)
  }

  // A tick adds one delivery for each row it reaches and the bus takes.
  lemma TickTakes(s: State, cfg: Config, luck: Luck, i: nat)
    ensures Taken(AfterTick(s, cfg, luck).log, i)
         == Taken(s.log, i) + if luck.fetch && Takes(Batch(s.rows, 0, cfg.limit, cfg.max), 0, luck, i) then 1 else 0
  {
    hide Forward, Batch;
    var b := Batch(s.rows, 0, cfg.limit, cfg.max);
    FetchInRange(s.rows, 0, cfg.limit, cfg.max);
    ForwardTakes(Progress(s, []), b, 0, luck, i);
  }

  ghost predicate AtMostOnce(log: seq<Delivery>) {
    forall i: nat :: Taken(log, i) <= 1
  }

  // Rows stay delivered at most once exactly through the ticks that take none
  // of them again.
  lemma TickRepeatsIff(s: State, cfg: Config, luck: Luck)
    requires AtMostOnce(s.log)
    ensures AtMostOnce(AfterTick(s, cfg, luck).log) <==> !Redelivers(s, cfg, luck)
  {
    var b, log := Batch(s.rows, 0, cfg.limit, cfg.max), AfterTick(s, cfg, luck).log;
    hide AfterTick, Batch, Takes, Accepted;
    forall i: nat
      ensures Taken(log, i) == Taken(s.log, i) + if luck.fetch && Takes(b, 0, luck, i) then 1 else 0
      ensures Taken(s.log, i) > 0 <==> Accepted(s.log, i)
    {
      TickTakes(s, cfg, luck, i);
      TakenIffAccepted(s.log, i);
    }
    if Redelivers(s, cfg, luck) {
      var i :| Takes(b, 0, luck, i) && Accepted(s.log, i);
      assert Taken(log, i) > 1;
    } else {
      forall i: nat
        ensures Taken(log, i) <= 1
      {
        assert !(Takes(b, 0, luck, i) && Accepted(s.log, i)) || !luck.fetch;
      }
    }
  }

  // Every row the bus has taken is marked.
  ghost predicate TakenAreMarked(s: State) {
    forall i :: 0 <= i < |s.rows| && Accepted(s.log, i) ==> s.rows[i].published
  }

  lemma MarkingTickKeepsMarked(s: State, cfg: Config, luck: Luck)
    requires TakenAreMarked(s) && luck.mark
    ensures TakenAreMarked(AfterTick(s, cfg, luck)) && !Redelivers(s, cfg, luck)
  {
    var b, d := Batch(s.rows, 0, cfg.limit, cfg.max), AfterTick(s, cfg, luck);
    TickRows(s, cfg, luck);
    hide AfterTick, Batch, Accepted;
    forall i | 0 <= i < |d.rows| && Accepted(d.log, i)
      ensures d.rows[i].published
    {
      TickTakes(s, cfg, luck, i);
      TakenIffAccepted(s.log, i);
      TakenIffAccepted(d.log, i);
      if luck.fetch && i in b[..Reached(b, luck)] {
        var k :| 0 <= k < Reached(b, luck) && b[k] == i;
      }
    }
  }

  // When every mark works no row goes out twice, whatever becomes of the bus,
  // the fetches, the bumps and the context.
  lemma {:induction false} MarksMakeItAtMostOnce(cfg: Config, ops: seq<Op>)
    requires forall op :: op in ops && op.DoTick? ==> op.luck.mark
    ensures AtMostOnce(ApplyAll(cfg, ops).log) && TakenAreMarked(ApplyAll(cfg, ops))
  {
    if ops != [] {
      var front, op := ops[..|ops| - 1], ops[|ops| - 1];
      assert op in ops && forall x :: x in front ==> x in ops;
      MarksMakeItAtMostOnce(cfg, front);
      var s := ApplyAll(cfg, front);
      HistoriesAreHonest(cfg, front);
      hide AfterTick, Taken;
      if op.DoTick? {
        MarkingTickKeepsMarked(s, cfg, op.luck);
        TickRepeatsIff(s, cfg, op.luck);
      }
    }
  }

  // At least, not exactly: when the mark fails the row goes out again.
  lemma FailedMarkRepublishes(cfg: Config, m: Message)
    requires cfg.limit > 0 && cfg.max > 0
    ensures var lost := Luck(true, 1, (k: nat) => true, (k: nat) => true, false);
      var s := ApplyAll(cfg, [Insert(m), DoTick(lost), DoTick(lost)]);
      s.log == [Delivery(0, m, true), Delivery(0, m, true)]
  {
    var lost := Luck(true, 1, (k: nat) => true, (k: nat) => true, false);
    var d := Delivery(0, m, true);
    var ops := [Insert(m), DoTick(lost), DoTick(lost)];
    assert ops[..2][..1][..0] == [] && ops[..2][..1] == [Insert(m)] && ops[..2] == [Insert(m), DoTick(lost)];
    assert ApplyAll(cfg, ops[..2][..1][..0]) == State([], []);
    assert ApplyAll(cfg, ops[..2][..1]) == State([Row(m, 0, false)], []);
    OneRowLost(State([Row(m, 0, false)], []), cfg, lost);
    assert ApplyAll(cfg, ops[..2]) == State([Row(m, 0, false)], [d]);
    OneRowLost(State([Row(m, 0, false)], [d]), cfg, lost);
    assert [d] + [d] == [d, d];
  }

  lemma OneRowLost(s: State, cfg: Config, lost: Luck)
    requires cfg.limit > 0 && cfg.max > 0 && |s.rows| == 1 && Fetchable(s.rows[0], cfg.max)
    requires lost.fetch && lost.stopAt == 1 && lost.bus(0) && !lost.mark
    ensures AfterTick(s, cfg, lost) == State(s.rows, s.log + [Delivery(0, s.rows[0].message, true)])
  {
    var p := Progress(State(s.rows, s.log + [Delivery(0, s.rows[0].message, true)]), [0]);
    assert Batch(s.rows, 0, cfg.limit, cfg.max) == [0];
    assert Forward(p, [0], 1, lost) == p;
    assert Forward(Progress(s, []), [0], 0, lost) == p;
  }

  lemma {:induction false} FreshBudget(rows: seq<Row>)
    requires forall i :: 0 <= i < |rows| ==> rows[i].attempts == 0
    ensures Budget(rows, DEFAULTS.max) <= 10 * |rows|
  {
    if rows != [] {
      FreshBudget(rows[1..]);
    }
  }

  // A tick takes at most a hundred of the rows with fewer than ten failures, and
  // leaves one out only behind a hundred of smaller ids.
  lemma DefaultsFetch(s: State, i: nat)
    requires i < |s.rows| && !s.rows[i].published && s.rows[i].attempts < 10
    ensures var b := Batch(s.rows, 0, DEFAULTS.limit, DEFAULTS.max);
      && |b| <= 100
      && (forall j :: 0 <= j < |b| ==> b[j] < |s.rows| && !s.rows[b[j]].published && s.rows[b[j]].attempts < 10)
      && (i !in b ==> |b| == 100 && forall j :: 0 <= j < |b| ==> b[j] < i)
  {
    FetchInRange(s.rows, 0, DEFAULTS.limit, DEFAULTS.max);
    FetchTakesTheFirst(s.rows, 0, DEFAULTS.limit, DEFAULTS.max, i);
  }

  // With the default configuration, n new rows are drained by 10 n ticks.
  lemma DefaultsDrain(s: State, lucks: seq<Luck>)
    requires forall i :: 0 <= i < |lucks| ==> Sound(lucks[i])
    requires forall i :: 0 <= i < |s.rows| ==> s.rows[i].attempts == 0
    requires |lucks| >= 10 * |s.rows|
    ensures forall r | r in AfterTicks(s, DEFAULTS, lucks).rows :: r.published || r.attempts >= 10
  {
    FreshBudget(s.rows);
    OutboxDrains(s, DEFAULTS, lucks);
  }

  // ---------------------------------------------------------------------
  // Exactly once, in order, when nothing fails.

  ghost predicate Faultless(ops: seq<Op>) {
    forall op :: op in ops && op.DoTick? ==> op.luck.fetch && op.luck.mark && forall k :: op.luck.bus(k)
  }

  ghost predicate LogInOrder(rows: seq<Row>, log: seq<Delivery>) {
    |log| <= |rows| && forall i :: 0 <= i < |log| ==> log[i] == Delivery(i, rows[i].message, true)
  }

  ghost predicate FlagsInOrder(rows: seq<Row>, n: nat) {
    forall i :: 0 <= i < |rows| ==> rows[i].attempts == 0 && (rows[i].published <==> i < n)
  }

  // The first |log| rows have gone out, once each and in order, and only they
  // are marked.
  ghost predicate InOrder(s: State) {
    LogInOrder(s.rows, s.log) && FlagsInOrder(s.rows, |s.log|)
  }

  lemma {:induction false} BatchOfFresh(rows: seq<Row>, from: nat, limit: nat, max: nat)
    requires from <= |rows| && forall i :: from <= i < |rows| ==> Fetchable(rows[i], max)
    ensures var b := Batch(rows, from, limit, max);
      from + |b| <= |rows| && forall j :: 0 <= j < |b| ==> b[j] == from + j
    decreases |rows| - from
  {
    if from < |rows| && limit > 0 {
      BatchOfFresh(rows, from + 1, limit - 1, max);
    }
  }

  lemma {:induction false} NothingIsFetched(rows: seq<Row>, from: nat, limit: nat)
    requires from <= |rows|
    ensures Batch(rows, from, limit, 0) == []
    decreases |rows| - from
  {
    if from < |rows| {
      NothingIsFetched(rows, from + 1, limit);
    }
  }

  lemma {:induction false} BatchIsRun(rows: seq<Row>, from: nat, n: nat, limit: nat, max: nat)
    requires from <= n <= |rows|
    requires forall i :: from <= i < |rows| ==> rows[i].attempts == 0 && (rows[i].published <==> i < n)
    ensures var b := Batch(rows, from, limit, max);
      n + |b| <= |rows| && forall j :: 0 <= j < |b| ==> b[j] == n + j
    decreases |rows| - from
  {
    if from < |rows| && limit > 0 {
      if max == 0 {
        NothingIsFetched(rows, from, limit);
      } else if from < n {
        BatchIsRun(rows, from + 1, n, limit, max);
      } else {
        BatchOfFresh(rows, from, limit, max);
      }
    }
  }

  // A batch that continues where the log ends keeps it in order.
  lemma {:induction false} ForwardInOrder(p: Progress, batch: seq<nat>, j: nat, luck: Luck)
    requires j <= |batch| && forall k :: 0 <= k < |batch| ==> batch[k] < |p.state.rows|
    requires LogInOrder(p.state.rows, p.state.log) && forall k :: luck.bus(k)
    requires j < |batch| ==> batch[j] == |p.state.log|
    requires forall k :: j < k < |batch| ==> batch[k] == batch[k - 1] + 1
    ensures var q := Forward(p, batch, j, luck); var n := Reached(batch, luck);
      && q.state.rows == p.state.rows && LogInOrder(q.state.rows, q.state.log)
      && (if j < n then |q.state.log| == |p.state.log| + n - j && q.published == p.published + batch[j..n] else q == p)
    decreases |batch| - j
  {
    if j < |batch| && j < luck.stopAt {
      var i, next := batch[j], Turn(p, batch, j, luck);
      ForwardInOrder(next, batch, j + 1, luck);
      var n := Reached(batch, luck);
      assert batch[j..n] == [i] + batch[j + 1..n];
    }
  }

  // Marking exactly the rows newly sent keeps the flags in order.
  lemma MarkInOrder(rows: seq<Row>, n: nat, sent: seq<nat>)
    requires FlagsInOrder(rows, n) && n + |sent| <= |rows| && forall k :: 0 <= k < |sent| ==> sent[k] == n + k
    ensures FlagsInOrder(Marked(rows, sent), n + |sent|)
  {
    forall i | 0 <= i < |rows|
      ensures i in sent <==> n <= i < n + |sent|
    {
      if n <= i < n + |sent| {
        assert sent[i - n] == i;
      }
    }
  }

  lemma LogOfMarked(rows: seq<Row>, log: seq<Delivery>, sent: seq<nat>)
    requires LogInOrder(rows, log)
    ensures LogInOrder(Marked(rows, sent), log)
  {
  }

  lemma BatchContinues(s: State, cfg: Config)
    requires InOrder(s)
    ensures var b, n := Batch(s.rows, 0, cfg.limit, cfg.max), |s.log|;
      n + |b| <= |s.rows| && forall k :: 0 <= k < |b| ==> b[k] == n + k
  {
    BatchIsRun(s.rows, 0, |s.log|, cfg.limit, cfg.max);
  }

  lemma TickInOrder(s: State, cfg: Config, luck: Luck)
    requires InOrder(s) && luck.fetch && luck.mark && forall k :: luck.bus(k)
    ensures InOrder(AfterTick(s, cfg, luck))
    ensures |AfterTick(s, cfg, luck).log| == |s.log| + Reached(Batch(s.rows, 0, cfg.limit, cfg.max), luck)
  {
    hide Batch, Forward, LogInOrder, FlagsInOrder, Marked;
    var b, n := Batch(s.rows, 0, cfg.limit, cfg.max), |s.log|;
    BatchContinues(s, cfg);
    var m := Reached(b, luck);
    ForwardInOrder(Progress(s, []), b, 0, luck);
    var p := Forward(Progress(s, []), b, 0, luck);
    if b == [] || m == 0 {
      assert AfterTick(s, cfg, luck) == s;
    } else {
      assert p.published == b[0..m];
      assert AfterTick(s, cfg, luck) == State(Marked(s.rows, b[0..m]), p.state.log);
      MarkInOrder(s.rows, n, b[0..m]);
      LogOfMarked(s.rows, p.state.log, b[0..m]);
    }
  }

  // When neither the bus nor the database fails, every row goes out exactly
  // once and in ascending id order, across ticks, inserts and cancellations.
  lemma {:induction false} FaultlessIsExactlyOnce(cfg: Config, ops: seq<Op>)
    requires Faultless(ops)
    ensures InOrder(ApplyAll(cfg, ops))
  {
    if ops != [] {
      var front, op := ops[..|ops| - 1], ops[|ops| - 1];
      assert op in ops && forall x :: x in front ==> x in ops;
      FaultlessIsExactlyOnce(cfg, front);
      if op.DoTick? {
        TickInOrder(ApplyAll(cfg, front), cfg, op.luck);
      }
    }
  }
}

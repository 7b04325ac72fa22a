/** The polling loop that turns the indexer's log table into batches. */
module Collector {
  import opened Terms
  import opened Sequences
  import Damper
  import Health

  // ---------- the start of the first window ----------

  /** Go's conversion of a uint64 to int64. */
  function Int64(u: int): int {
    if u < 0x8000_0000_0000_0000 then u else u - 0x1_0000_0000_0000_0000
  }

  function WindowStart(index: int, startInterval: int): int {
    var i := Int64(index);
    if i < startInterval then 0 else i - startInterval
  }

  /** No wrap-around: startInterval blocks below the index, clamped at 0; an index above int64 starts at 0
      for every positive interval. */
  lemma WindowStartExact(index: int, startInterval: int)
    requires 0 <= index < 0x1_0000_0000_0000_0000 && 0 <= startInterval < 0x8000_0000_0000_0000
    ensures 0 <= WindowStart(index, startInterval) < 0x8000_0000_0000_0000
    ensures WindowStart(index, startInterval) ==
              if index >= 0x8000_0000_0000_0000 || index <= startInterval then 0 else index - startInterval
  {
  }

  /** The conversion keeps every height below 2^63. */
  lemma HeightsAreKept(u: int)
    requires 0 <= u < 0x1_0000_0000_0000_0000
    ensures u < 0x8000_0000_0000_0000 ==> Int64(u) == u
    ensures u >= 0x8000_0000_0000_0000 ==> Int64(u) < 0 && u - Int64(u) == 0x1_0000_0000_0000_0000
  {
  }

  // ---------- windows ----------

  /** One tick. The state fetch may fail, the log query may fail; db is the table's content. */
  datatype Poll = Poll(clock: int, state: Option<(nat, int)>, logsOk: bool, db: seq<Log>)

  datatype Window = Window(from: int, to: int, logs: seq<Log>)

  predicate Within(from: int, to: int, l: Log) {
    from < l.block <= to
  }

  function Query(db: seq<Log>, from: int, to: int): seq<Log> {
    Filter(db, l => Within(from, to, l))
  }

  predicate Advances(p: Poll) {
    p.state.Some? && p.logsOk
  }

  function Cursor(start: int, polls: seq<Poll>): int {
    if polls == [] then start
    else if Advances(polls[|polls| - 1]) then Int64(polls[|polls| - 1].state.value.0)
    else Cursor(start, polls[..|polls| - 1])
  }

  function Windows(start: int, polls: seq<Poll>): seq<Window> {
    if polls == [] then []
    else
      var before, p := polls[..|polls| - 1], polls[|polls| - 1];
      if !Advances(p) then Windows(start, before)
      else
        var from, to := Cursor(start, before), Int64(p.state.value.0);
        Windows(start, before) + [Window(from, to, Query(p.db, from, to))]
  }

  function Emitted(ws: seq<Window>): seq<Log> {
    if ws == [] then [] else Emitted(ws[..|ws| - 1]) + ws[|ws| - 1].logs
  }

  function LastState(polls: seq<Poll>, initial: (nat, int)): (nat, int) {
    if polls == [] then initial
    else if polls[|polls| - 1].state.Some? then polls[|polls| - 1].state.value
    else LastState(polls[..|polls| - 1], initial)
  }

  /** What reportState tells the health status. */
  function Reported(state: (nat, int)): (nat, int) {
    (state.0, state.1 * Health.SECOND)
  }

  /** What poll n adds: a failed fetch of either kind moves nothing; otherwise the cursor goes to the indexer's
      height, and exactly the table's logs above the old cursor and up to it are emitted. The health status
      learns of every fetched state. */
  lemma PollStep(start: int, initial: (nat, int), polls: seq<Poll>, n: nat)
    requires n < |polls|
    ensures var p, before, after := polls[n], polls[..n], polls[..n + 1];
            && (p.state.None? || !p.logsOk ==>
                  Cursor(start, after) == Cursor(start, before) &&
                  Emitted(Windows(start, after)) == Emitted(Windows(start, before)))
            && (p.state.Some? && p.logsOk ==>
                  && Cursor(start, after) == Int64(p.state.value.0)
                  && Emitted(Windows(start, after)) ==
                       Emitted(Windows(start, before)) + Query(p.db, Cursor(start, before), Int64(p.state.value.0)))
            && LastState(after, initial) == if p.state.Some? then p.state.value else LastState(before, initial)
  {
    assert polls[..n + 1][..n] == polls[..n];
    var ws, p := Windows(start, polls[..n]), polls[n];
    if Advances(p) {
      var from, to := Cursor(start, polls[..n]), Int64(p.state.value.0);
      AppendWindow(ws, Window(from, to, Query(p.db, from, to)));
    }
  }

  /** The loop body up to the send: the new lower bound and the logs to send. */
  method Tick(p: Poll, from: int, status: Health.Status, stateDamper: Damper.Damper, logsDamper: Damper.Damper)
    returns (next: int, logs: seq<Log>)
    requires stateDamper.Valid() && logsDamper.Valid() && stateDamper != logsDamper
    modifies status, stateDamper, logsDamper
    ensures next == if p.state.Some? && p.logsOk then Int64(p.state.value.0) else from
    ensures logs == if p.state.Some? && p.logsOk then Query(p.db, from, next) else []
    ensures status.started == old(status.started)
    ensures status.block == (if p.state.Some? then p.state.value.0 else old(status.block))
    ensures status.blockTime == (if p.state.Some? then p.state.value.1 * Health.SECOND else old(status.blockTime))
    ensures stateDamper.Valid() && logsDamper.Valid()
    ensures stateDamper.calls == old(stateDamper.calls) +
              [if p.state.Some? then Damper.Success(p.clock) else Damper.Failure(p.clock, p.clock, p.clock)]
    ensures logsDamper.calls == old(logsDamper.calls) +
              if p.state.None? then []
              else [if p.logsOk then Damper.Success(p.clock) else Damper.Failure(p.clock, p.clock, p.clock)]
  {
    next, logs := from, [];
    if p.state.None? {
      stateDamper.Fail(p.clock, p.clock, p.clock);
      return;
    }
    stateDamper.Ok(p.clock);
    status.SetIndexer(p.state.value.0, p.state.value.1 * Health.SECOND);
    var to := Int64(p.state.value.0);
    if !p.logsOk {
      logsDamper.Fail(p.clock, p.clock, p.clock);
      return;
    }
    logsDamper.Ok(p.clock);
    next, logs := to, Query(p.db, from, to);
  }

  predicate NoneEmpty(sent: seq<seq<Log>>) {
    forall i | 0 <= i < |sent| :: sent[i] != []
  }

  /** The send: an empty batch is skipped, and one interrupted by cancellation is lost. */
  method Send(sent: seq<seq<Log>>, logs: seq<Log>, cut: bool) returns (now: seq<seq<Log>>, lost: seq<Log>)
    requires NoneEmpty(sent)
    ensures NoneEmpty(now) && Flatten(now) + lost == Flatten(sent) + logs
    ensures lost == if cut then logs else []
  {
    now, lost := sent, [];
    if |logs| > 0 {
      if cut {
        lost := logs;
        return;
      }
      FlattenSnoc(sent, logs);
      now := sent + [logs];
    }
  }

  /** After these polls: the cursor, everything emitted, and what the health status was told last. */
  predicate Reached(start: int, initial: (nat, int), polls: seq<Poll>, from: int, emitted: seq<Log>, told: (nat, int)) {
    from == Cursor(start, polls) && emitted == Emitted(Windows(start, polls)) &&
        told == Reported(LastState(polls, initial))
  }

  lemma ReachedNext(start: int, initial: (nat, int), polls: seq<Poll>, n: nat, from: int, emitted: seq<Log>,
                    told: (nat, int), next: int, logs: seq<Log>, now: (nat, int))
    requires n < |polls| && Reached(start, initial, polls[..n], from, emitted, told)
    requires next == if polls[n].state.Some? && polls[n].logsOk then Int64(polls[n].state.value.0) else from
    requires logs == if polls[n].state.Some? && polls[n].logsOk then Query(polls[n].db, from, next) else []
    requires now == if polls[n].state.Some? then Reported(polls[n].state.value) else told
    ensures Reached(start, initial, polls[..n + 1], next, emitted + logs, now)
  {
    PollStep(start, initial, polls, n);
  }

  /** One iteration: poll n, then the send. */
  method Iterate(start: int, ghost initial: (nat, int), polls: seq<Poll>, n: nat, from: int, sent: seq<seq<Log>>,
                 cut: bool, status: Health.Status, stateDamper: Damper.Damper, logsDamper: Damper.Damper)
    returns (next: int, now: seq<seq<Log>>, lost: seq<Log>)
    requires stateDamper.Valid() && logsDamper.Valid() && stateDamper != logsDamper
    requires n < |polls| && NoneEmpty(sent)
    requires Reached(start, initial, polls[..n], from, Flatten(sent), (status.block, status.blockTime))
    modifies status, stateDamper, logsDamper
    ensures stateDamper.Valid() && logsDamper.Valid() && status.started == old(status.started)
    ensures NoneEmpty(now) && (lost != [] ==> cut)
    ensures Reached(start, initial, polls[..n + 1], next, Flatten(now) + lost, (status.block, status.blockTime))
  {
    ghost var told := (status.block, status.blockTime);
    var logs;
    next, logs := Tick(polls[n], from, status, stateDamper, logsDamper);
    ReachedNext(start, initial, polls, n, from, Flatten(sent), told, next, logs, (status.block, status.blockTime));
    now, lost := Send(sent, logs, cut);
  }

  /** instructionsListener after the initial state fetch. `cutAt` is the poll whose send is interrupted by
      cancellation; n polls were processed in all. */
  method Listen(initial: (nat, int), startInterval: int, polls: seq<Poll>, cutAt: Option<nat>,
                status: Health.Status, stateDamper: Damper.Damper, logsDamper: Damper.Damper)
    returns (n: nat, from: int, sent: seq<seq<Log>>, lost: seq<Log>)
    requires stateDamper.Valid() && logsDamper.Valid() && stateDamper != logsDamper
    modifies status, stateDamper, logsDamper
    ensures n <= |polls| && (n < |polls| ==> lost != [])
    ensures lost != [] ==> cutAt == Some(n - 1)
    ensures NoneEmpty(sent)
    ensures Reached(WindowStart(initial.0, startInterval), initial, polls[..n], from, Flatten(sent) + lost,
                    (status.block, status.blockTime))
    ensures status.started == old(status.started)
    ensures stateDamper.Valid() && logsDamper.Valid()
  {
    status.SetIndexer(initial.0, initial.1 * Health.SECOND);
    var start := WindowStart(initial.0, startInterval);
    from, sent, lost, n := start, [], [], 0;
    while n < |polls|
      invariant n <= |polls| && lost == []
      invariant NoneEmpty(sent)
      invariant Reached(start, initial, polls[..n], from, Flatten(sent), (status.block, status.blockTime))
      invariant status.started == old(status.started)
      invariant stateDamper.Valid() && logsDamper.Valid()
      decreases |polls| - n
    {
      from, sent, lost :=
          Iterate(start, initial, polls, n, from, sent, cutAt == Some(n), status, stateDamper, logsDamper);
      n := n + 1;
      if lost != [] {
        return;
      }
    }
  }

  // ---------- the conservation law ----------

  function Between(lo: int, b: int, hi: int): nat {
    if lo < b <= hi then 1 else 0
  }

  function Emits(ws: seq<Window>, b: int): nat {
    if ws == [] then 0 else Emits(ws[..|ws| - 1], b) + Between(ws[|ws| - 1].from, b, ws[|ws| - 1].to)
  }

  /** How often the cursor fell back across b. */
  function Falls(ws: seq<Window>, b: int): nat {
    if ws == [] then 0 else Falls(ws[..|ws| - 1], b) + Between(ws[|ws| - 1].to, b, ws[|ws| - 1].from)
  }

  /** For every run and block: windows that span the block, less falls of the cursor across it, are one if the
      cursor stands at or beyond it and started before, minus one if it is the other way round. */
  lemma {:induction false} CursorConservation(start: int, polls: seq<Poll>, b: int)
    ensures var ws, cursor := Windows(start, polls), Cursor(start, polls);
            Emits(ws, b) - Falls(ws, b) ==
              (if start < b <= cursor then 1 else 0) - (if cursor < b <= start then 1 else 0)
  {
    if polls != [] {
      var before := polls[..|polls| - 1];
      CursorConservation(start, before, b);
      var ws := Windows(start, polls);
      if Advances(polls[|polls| - 1]) {
        assert ws[..|ws| - 1] == Windows(start, before);
      }
    }
  }

  // ---------- what reaches the router ----------

  function Upto(db: seq<Log>, to: int): seq<Log> {
    Filter(db, (l: Log) => l.block <= to)
  }

  function Above(db: seq<Log>, from: int): seq<Log> {
    Filter(db, (l: Log) => from < l.block)
  }

  /** `chain` holds every matching log there will ever be; what a successful query sees at or below its
      bound is final. */
  predicate Final(chain: seq<Log>, p: Poll) {
    Advances(p) ==> var to := Int64(p.state.value.0); Upto(p.db, to) == Upto(chain, to)
  }

  lemma {:induction false} QueryOfUpto(db: seq<Log>, from: int, to: int)
    ensures Query(db, from, to) == Above(Upto(db, to), from)
  {
    if db != [] {
      var rest := Upto(db[1..], to);
      QueryOfUpto(db[1..], from, to);
      if db[0].block <= to {
        assert Upto(db, to) == [db[0]] + rest;
        assert ([db[0]] + rest)[1..] == rest;
      } else {
        assert Upto(db, to) == rest;
      }
    }
  }

  lemma FinalQuery(chain: seq<Log>, p: Poll, from: int)
    requires Final(chain, p) && Advances(p)
    ensures Query(p.db, from, Int64(p.state.value.0)) == Query(chain, from, Int64(p.state.value.0))
  {
    QueryOfUpto(p.db, from, Int64(p.state.value.0));
    QueryOfUpto(chain, from, Int64(p.state.value.0));
  }

  lemma QueryStep(chain: seq<Log>, from: int, to: int)
    requires chain != []
    ensures Query(chain, from, to) ==
              (if Within(from, to, chain[0]) then [chain[0]] else []) + Query(chain[1..], from, to)
  {
    FilterSame(chain[1..], l => Within(from, to, l), (l: Log) => Within(from, to, l));
  }

  /** The query returns exactly the rows of blocks above `from` and up to `to`. */
  lemma {:induction false} QueryCount(chain: seq<Log>, from: int, to: int, l: Log)
    ensures multiset(Query(chain, from, to))[l] == if from < l.block <= to then multiset(chain)[l] else 0
  {
    if chain != [] {
      QueryStep(chain, from, to);
      QueryCount(chain[1..], from, to, l);
      assert chain == [chain[0]] + chain[1..];
    }
  }

  lemma CountAppended(emitted: seq<Log>, logs: seq<Log>, l: Log)
    ensures multiset(emitted + logs)[l] == multiset(emitted)[l] + multiset(logs)[l]
  {
  }

  /** A log is emitted once for every window that spans its block, whatever the indexer's height does. */
  lemma {:induction false} EmittedPerWindow(chain: seq<Log>, start: int, polls: seq<Poll>, l: Log)
    requires forall i | 0 <= i < |polls| :: Final(chain, polls[i])
    ensures multiset(Emitted(Windows(start, polls)))[l] == Emits(Windows(start, polls), l.block) * multiset(chain)[l]
  {
    if polls != [] {
      var before, p := polls[..|polls| - 1], polls[|polls| - 1];
      EmittedPerWindow(chain, start, before, l);
      if Advances(p) {
        WindowCount(chain, Windows(start, before), Cursor(start, before), p, l);
      }
    }
  }

  lemma WindowCount(chain: seq<Log>, ws: seq<Window>, from: int, p: Poll, l: Log)
    requires Final(chain, p) && Advances(p)
    requires multiset(Emitted(ws))[l] == Emits(ws, l.block) * multiset(chain)[l]
    ensures var to := Int64(p.state.value.0);
            var ws' := ws + [Window(from, to, Query(p.db, from, to))];
            multiset(Emitted(ws'))[l] == Emits(ws', l.block) * multiset(chain)[l]
  {
    var to := Int64(p.state.value.0);
    var logs := Query(chain, from, to);
    FinalQuery(chain, p, from);
    QueryCount(chain, from, to, l);
    assert multiset(logs)[l] == Between(from, l.block, to) * multiset(chain)[l];
    AppendWindow(ws, Window(from, to, logs));
    CountAppended(Emitted(ws), logs, l);
    Distribute(multiset(Emitted(ws))[l], multiset(logs)[l], Emits(ws, l.block), Between(from, l.block, to),
        multiset(chain)[l]);
  }

  lemma AppendWindow(ws: seq<Window>, w: Window)
    ensures Emitted(ws + [w]) == Emitted(ws) + w.logs
    ensures forall b :: Emits(ws + [w], b) == Emits(ws, b) + Between(w.from, b, w.to)
  {
    assert (ws + [w])[..|ws|] == ws;
  }

  lemma Distribute(x: int, y: int, a: int, b: int, m: int)
    requires x == a * m && y == b * m
    ensures x + y == (a + b) * m
  {
  }

  /** At least once, with no assumption on the indexer's height: every log between start and cursor is
      emitted, once more for every time the cursor fell back across its block. */
  lemma AtLeastOnce(chain: seq<Log>, start: int, polls: seq<Poll>, l: Log)
    requires forall i | 0 <= i < |polls| :: Final(chain, polls[i])
    requires start < l.block <= Cursor(start, polls)
    ensures multiset(Emitted(Windows(start, polls)))[l] ==
              (1 + Falls(Windows(start, polls), l.block)) * multiset(chain)[l]
  {
    EmittedPerWindow(chain, start, polls, l);
    CursorConservation(start, polls, l.block);
  }

  predicate Sorted(chain: seq<Log>) {
    forall i, j | 0 <= i < j < |chain| :: chain[i].block <= chain[j].block
  }

  lemma NoneBelow(chain: seq<Log>, a: int, b: int)
    requires forall i | 0 <= i < |chain| :: b < chain[i].block
    ensures Query(chain, a, b) == []
  {
    FilterNone(chain, (l: Log) => Within(a, b, l));
    FilterSame(chain, l => Within(a, b, l), (l: Log) => Within(a, b, l));
  }

  lemma {:induction false} QueriesJoin(chain: seq<Log>, a: int, b: int, c: int)
    requires Sorted(chain) && a <= b <= c
    ensures Query(chain, a, b) + Query(chain, b, c) == Query(chain, a, c)
  {
    if chain != [] {
      var rest := chain[1..];
      assert forall i | 0 <= i < |rest| :: rest[i] == chain[i + 1] && chain[0].block <= chain[i + 1].block;
      QueriesJoin(rest, a, b, c);
      QueryStep(chain, a, b);
      QueryStep(chain, b, c);
      QueryStep(chain, a, c);
      if chain[0].block > b {
        NoneBelow(rest, a, b);
      }
    }
  }

  predicate NeverDecreases(start: int, polls: seq<Poll>) {
    forall n | 0 <= n < |polls| && Advances(polls[n]) :: Cursor(start, polls[..n]) <= Int64(polls[n].state.value.0)
  }

  /** Exactly once and in order: with an indexer that never goes back, the batches together are the chain's
      logs between the start and the cursor. */
  lemma {:induction false} ExactlyOnce(chain: seq<Log>, start: int, polls: seq<Poll>)
    requires Sorted(chain) && NeverDecreases(start, polls)
    requires forall i | 0 <= i < |polls| :: Final(chain, polls[i])
    ensures start <= Cursor(start, polls)
    ensures Emitted(Windows(start, polls)) == Query(chain, start, Cursor(start, polls))
  {
    if polls == [] {
      FilterNone(chain, (l: Log) => Within(start, start, l));
    } else {
      var before, p := polls[..|polls| - 1], polls[|polls| - 1];
      assert forall n | 0 <= n < |before| :: before[..n] == polls[..n];
      ExactlyOnce(chain, start, before);
      if Advances(p) {
        var ws := Windows(start, polls);
        assert ws[..|ws| - 1] == Windows(start, before);
        FinalQuery(chain, p, Cursor(start, before));
        QueriesJoin(chain, start, Cursor(start, before), Cursor(start, polls));
      }
    }
  }

  lemma {:induction false} QueryIsOrdered(chain: seq<Log>, from: int, to: int)
    requires Sorted(chain)
    ensures Sorted(Query(chain, from, to))
  {
    if chain != [] {
      var rest := chain[1..];
      assert forall i | 0 <= i < |rest| :: rest[i] == chain[i + 1] && chain[0].block <= chain[i + 1].block;
      QueryIsOrdered(rest, from, to);
      QueryStep(chain, from, to);
      assert forall l | l in Query(rest, from, to) :: chain[0].block <= l.block;
    }
  }

  /** In blocks: what was emitted holds each log of the chain above the start and up to the cursor as often as the
      chain does, none of any other block, and in the chain's order of blocks. */
  lemma CollectedExactly(chain: seq<Log>, start: int, polls: seq<Poll>, l: Log)
    requires Sorted(chain) && NeverDecreases(start, polls)
    requires forall i | 0 <= i < |polls| :: Final(chain, polls[i])
    ensures var emitted := Emitted(Windows(start, polls));
            && multiset(emitted)[l] == (if start < l.block <= Cursor(start, polls) then multiset(chain)[l] else 0)
            && forall i, j | 0 <= i < j < |emitted| :: emitted[i].block <= emitted[j].block
  {
    ExactlyOnce(chain, start, polls);
    QueryCount(chain, start, Cursor(start, polls), l);
    QueryIsOrdered(chain, start, Cursor(start, polls));
  }

  /** End to end: the batches handed to the router, with the one lost at cancellation, are exactly that. */
  lemma ListenerDelivers(chain: seq<Log>, start: int, polls: seq<Poll>, sent: seq<seq<Log>>, lost: seq<Log>)
    requires Sorted(chain) && NeverDecreases(start, polls) && forall i | 0 <= i < |polls| :: Final(chain, polls[i])
    requires Flatten(sent) + lost == Emitted(Windows(start, polls))
    ensures Flatten(sent) <= Query(chain, start, Cursor(start, polls))
    ensures lost == [] ==> Flatten(sent) == Query(chain, start, Cursor(start, polls))
  {
    ExactlyOnce(chain, start, polls);
  }
}

/** The signals behind the startup and readiness probes. Times are nanoseconds. */
module Health {
  const SECOND := 1_000_000_000
  const MAX_DURATION := 0x7fff_ffff_ffff_ffff
  const ZERO_TIME := -62_135_596_800 * SECOND // Go's zero time.Time

  /** time.Time.Sub saturates. */
  function Sub(t: int, u: int): int {
    if t - u > MAX_DURATION then MAX_DURATION
    else if t - u < -MAX_DURATION - 1 then -MAX_DURATION - 1
    else t - u
  }

  /** time.Duration */
  type Duration = d: int | -MAX_DURATION - 1 <= d <= MAX_DURATION witness 0

  /** The block's age, zero for one stamped ahead of the clock, is within the lag; the longest duration
      stands for any age that does not fit. */
  predicate Fresh(blockTime: int, maxLag: Duration, now: int) {
    0 <= maxLag && (now - blockTime <= maxLag || maxLag == MAX_DURATION)
  }

  datatype Probe = Passed | StartupNotFinished | NoIndexerState | IndexerStale

  class Status {
    var started: bool
    var block: nat
    var blockTime: int
    const maxLag: Duration

    constructor (lag: Duration)
      ensures !started && block == 0 && blockTime == ZERO_TIME && maxLag == lag
    {
      started, block, blockTime, maxLag := false, 0, ZERO_TIME, lag;
    }

    method SetStarted()
      modifies this
      ensures started && block == old(block) && blockTime == old(blockTime)
    {
      started := true;
    }

    method SetIndexer(b: nat, time: int)
      modifies this
      ensures block == b && blockTime == time && started == old(started)
    {
      block, blockTime := b, time;
    }

    method Startup() returns (p: Probe)
      ensures p == if started then Passed else StartupNotFinished
    {
      if !started {
        return StartupNotFinished;
      }
      return Passed;
    }

    method Ready(now: int) returns (p: Probe)
      ensures p.Passed? <==> started && blockTime != ZERO_TIME && Fresh(blockTime, maxLag, now)
      ensures 0 <= maxLag < MAX_DURATION ==>
                (p.Passed? <==> started && blockTime != ZERO_TIME && now - blockTime <= maxLag)
      ensures maxLag < 0 ==> !p.Passed?
      ensures p.StartupNotFinished? <==> !started
      ensures p.NoIndexerState? <==> started && blockTime == ZERO_TIME
    {
      if !started {
        return StartupNotFinished;
      }
      if blockTime == ZERO_TIME {
        return NoIndexerState;
      }
      var age := Sub(now, blockTime);
      age := if age > 0 then age else 0;
      if age > maxLag {
        return IndexerStale;
      }
      return Passed;
    }
  }

  // ---------- runs ----------

  datatype Event = Started | Polled(block: nat, seconds: int) | PollFailed | Probed(now: int)

  /** Reports of a run reach the status in order; probes and failed polls report nothing. */
  method Replay(events: seq<Event>, lag: Duration) returns (s: Status)
    ensures fresh(s) && s.maxLag == lag
    ensures s.started == WasStarted(events) && s.block == LastBlock(events) && s.blockTime == LastBlockTime(events)
  {
    s := new Status(lag);
    for i := 0 to |events|
      invariant s.started == WasStarted(events[..i])
      invariant s.block == LastBlock(events[..i]) && s.blockTime == LastBlockTime(events[..i])
      invariant s.maxLag == lag && fresh(s)
    {
      assert events[..i + 1][..i] == events[..i];
      match events[i]
      case Started => s.SetStarted();
      case Polled(block, seconds) => s.SetIndexer(block, seconds * SECOND);
      case PollFailed =>
      case Probed(now) => var _ := s.Ready(now);
    }
    assert events[..|events|] == events;
  }

  /** A run followed by a readiness probe. */
  method ReplayAndProbe(events: seq<Event>, lag: Duration, now: int) returns (p: Probe)
    ensures p.Passed? <==> ReadyAfter(events, lag, now)
  {
    var s := Replay(events, lag);
    p := s.Ready(now);
  }

  predicate ReadyAfter(events: seq<Event>, lag: Duration, now: int) {
    WasStarted(events) && LastBlockTime(events) != ZERO_TIME && Fresh(LastBlockTime(events), lag, now)
  }

  function WasStarted(events: seq<Event>): bool {
    events != [] && (events[|events| - 1].Started? || WasStarted(events[..|events| - 1]))
  }

  function LastBlock(events: seq<Event>): nat {
    if events == [] then 0
    else if events[|events| - 1].Polled? then events[|events| - 1].block
    else LastBlock(events[..|events| - 1])
  }

  function LastBlockTime(events: seq<Event>): int {
    if events == [] then ZERO_TIME
    else if events[|events| - 1].Polled? then events[|events| - 1].seconds * SECOND
    else LastBlockTime(events[..|events| - 1])
  }

  predicate LastPollAt(events: seq<Event>, i: nat) {
    i < |events| && events[i].Polled? && forall j | i < j < |events| :: !events[j].Polled?
  }

  lemma {:induction false} LastPollDecides(events: seq<Event>, i: nat)
    requires LastPollAt(events, i)
    ensures LastBlockTime(events) == events[i].seconds * SECOND && LastBlock(events) == events[i].block
  {
    if i < |events| - 1 {
      LastPollDecides(events[..|events| - 1], i);
    }
  }

  lemma {:induction false} NeverPolled(events: seq<Event>)
    requires forall j | 0 <= j < |events| :: !events[j].Polled?
    ensures LastBlockTime(events) == ZERO_TIME
  {
    if events != [] {
      NeverPolled(events[..|events| - 1]);
    }
  }

  lemma {:induction false} StartedOnce(events: seq<Event>)
    ensures WasStarted(events) <==> Started in events
  {
    if events != [] {
      StartedOnce(events[..|events| - 1]);
      assert events == events[..|events| - 1] + [events[|events| - 1]];
    }
  }

  /** When the last poll was i, a probe passes exactly if the start was reported and the polled block is at
      most maxLag old; in particular every later probe fails until the next successful poll. */
  lemma ReadyIff(events: seq<Event>, i: nat, maxLag: Duration, now: int)
    requires LastPollAt(events, i)
    ensures ReadyAfter(events, maxLag, now) <==>
              Started in events && events[i].seconds * SECOND != ZERO_TIME &&
                  Fresh(events[i].seconds * SECOND, maxLag, now)
  {
    LastPollDecides(events, i);
    StartedOnce(events);
  }

  /** In numbers, for every lag below the longest duration: a block of the last successful poll, `seconds` after
      the epoch, lets a probe pass as long as it is at most maxLag nanoseconds old, also if it is ahead; a negative
      lag is never met. */
  lemma FreshUntilLag(events: seq<Event>, i: nat, maxLag: Duration, now: int)
    requires LastPollAt(events, i) && Started in events && events[i].seconds != -62_135_596_800
    requires maxLag < 0x7fff_ffff_ffff_ffff
    ensures ReadyAfter(events, maxLag, now) <==> 0 <= maxLag && now - events[i].seconds * 1_000_000_000 <= maxLag
  {
    ReadyIff(events, i, maxLag, now);
  }

  /** Once polls keep failing, no probe passes later than maxLag after the last polled block. */
  lemma StaleUntilNextPoll(events: seq<Event>, more: seq<Event>, i: nat, maxLag: Duration, now: int)
    requires LastPollAt(events, i) && (forall j | 0 <= j < |more| :: !more[j].Polled?)
    requires maxLag < MAX_DURATION && now > events[i].seconds * SECOND + maxLag
    ensures !ReadyAfter(events + more, maxLag, now)
  {
    forall j | i < j < |events + more| ensures !(events + more)[j].Polled? {
      assert j >= |events| ==> (events + more)[j] == more[j - |events|];
    }
    ReadyIff(events + more, i, maxLag, now);
  }

  lemma NotReadyBeforeFirstPoll(events: seq<Event>, maxLag: Duration, now: int)
    requires forall j | 0 <= j < |events| :: !events[j].Polled?
    ensures !ReadyAfter(events, maxLag, now)
  {
    NeverPolled(events);
  }

  /** Startup never un-latches. */
  lemma StartupLatches(events: seq<Event>, more: seq<Event>)
    requires WasStarted(events)
    ensures WasStarted(events + more)
  {
    StartedOnce(events);
    StartedOnce(events + more);
  }
}

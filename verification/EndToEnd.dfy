/** From the indexer's chain to the TEEs: collector, router and relay composed. */
module EndToEnd {
  import opened Terms
  import opened Sequences
  import opened Signers
  import opened FdcHandler
  import opened Relay
  import opened RelayInvariant
  import opened RelayProgress
  import opened RelayTheorems
  import opened RelayOutcomes
  import Collector
  import FdcTables
  import Router

  // ---------- startup ----------

  /** What startup meets: the verdict of the configuration's flat checks (address, chain id, start interval,
      health), whether the database connects, the signer if its key or credentials are accepted, the key it
      identifies with, and which points lie on the curve. */
  datatype Host = Host(flatChecks: bool, connects: bool, signer: Option<Signer>, identity: Option<PublicKey>,
                       onCurve: PublicKey -> bool)

  /** Startup, in the order of the checks: it succeeds exactly if all pass, and then establishes what the
      theorems about the relay assume of its configuration. In cosigner mode the filter is by the address of the
      key the signer identifies with, which is its own if it answers truthfully. */
  method Start(chainId: nat, isCosigner: bool, source: FdcTables.Config, validPairs: set<(OpType, OpCommand)>,
               host: Host)
    returns (c: Option<Config>)
    ensures c.Some? <==>
              && host.flatChecks && host.connects && host.signer.Some?
              && (isCosigner ==> host.identity.Some? && host.onCurve(host.identity.value))
              && FdcTables.HandlerAccepts(source.verifiers) && FdcTables.QueuesDeclared(source)
              && forall n | n in source.queues ::
                   source.queues[n].maxAttempts >= 1 &&
                   (source.queues[n].maxAttempts > 1 ==> source.queues[n].timeOff > 0)
    ensures c.Some? ==>
              && ValidConfig(c.value) && c.value.source == source
              && c.value.handler.chainId == chainId && c.value.handler.signer == host.signer.value
              && c.value.router.validPairs == validPairs
              && (isCosigner <==> c.value.router.filterer.CosignerFilterer?)
              && (isCosigner ==> c.value.router.filterer.address == OfKey(host.identity.value))
              && (host.identity == Some(host.signer.value.key) ==> FiltersByOwnKey(c.value))
  {
    if !host.flatChecks {
      return None;
    }
    var ok := FdcTables.CheckQueues(source.queues);
    if !ok || !host.connects || host.signer.None? {
      return None;
    }
    var filterer := Router.NewFilterer(isCosigner, host.identity, host.onCurve);
    if filterer.None? {
      return None;
    }
    var fdc := FdcTables.NewFDC(Some(source));
    if fdc.Err? {
      return None;
    }
    var handler := Handler(chainId, host.signer.value, fdc.value.servers);
    return Some(Config(handler, fdc.value, source, Router.Router(filterer.value, validPairs)));
  }

  // ---------- what enters the relay ----------

  /** The log is handed to a processor that takes it: an FDC request also needs a queue. */
  predicate Enters(c: Config, l: Log) {
    l.event.Some? && KindOf(c, l.event.value).Some?
  }

  /** A configured verifier serves the event's request. */
  ghost predicate HasVerifier(c: Config, e: Event) {
    e.message.RequestDoc? &&
    exists n :: n in c.source.verifiers && FdcTables.Serves(c.source.verifiers[n], e.message.request)
  }

  lemma QueueIffVerifier(c: Config, e: Event)
    requires ValidConfig(c)
    ensures FdcTables.QueueFor(c.fdc, e.message).Some? <==> HasVerifier(c, e)
  {
    if e.message.RequestDoc? {
      FdcTables.RequestGoesToEntry(c.fdc, c.source, e.message.request);
    }
  }

  lemma KindIffHanded(c: Config, l: Log)
    ensures Enters(c, l) <==>
              && l.event.Some? && Router.FateOf(c.router, l).Handed?
              && (Router.FateOf(c.router, l) == Router.Handed(Router.Fdc) ==>
                    FdcTables.QueueFor(c.fdc, l.event.value.message).Some?)
  {
  }

  /** Which logs enter, from the event and the configuration alone: the filter lets the event pass, and its
      operation is FDC2 PROVE with a request some configured verifier serves, or one of the other pairs. */
  lemma EntersExactly(c: Config, l: Log)
    requires ValidConfig(c)
    ensures Enters(c, l) <==>
              && l.event.Some? && Router.Passes(c.router, l.event.value)
              && var e := l.event.value;
                 var pair := (e.opType, e.opCommand);
                 if pair == (FDC2, Prove) then HasVerifier(c, e)
                 else pair in c.router.validPairs + {(Wallet, KeyDataProviderRestore), (Wallet, KeyDirectRestore)}
  {
    KindIffHanded(c, l);
    Router.FateExactly(c.router, l);
    if l.event.Some? {
      QueueIffVerifier(c, l.event.value);
    }
  }

  /** The events of the logs that enter, with their block times. */
  function Fed(c: Config, logs: seq<Log>): seq<(Event, nat)> {
    if logs == [] then []
    else (if Enters(c, logs[0]) then [(logs[0].event.value, logs[0].timestamp)] else []) + Fed(c, logs[1..])
  }

  /** The events a run of the relay accepted. */
  function Accepts(run: seq<Label>): seq<(Event, nat)> {
    if run == [] then []
    else (if run[0].Accept? then [(run[0].event, run[0].timestamp)] else []) + Accepts(run[1..])
  }

  /** The events the items were parsed from. */
  function Parsed(items: seq<Item>): (events: seq<(Event, nat)>)
    ensures |events| == |items|
  {
    seq(|items|, i requires 0 <= i < |items| => (items[i].origin.event, items[i].origin.data.timestamp))
  }

  lemma ParsedStep(c: Config, s: State, l: Label)
    requires Transition(c, s, l).Some?
    ensures Parsed(Transition(c, s, l).value.items) ==
              Parsed(s.items) + if l.Accept? then [(l.event, l.timestamp)] else []
  {
    ItemCount(c, s, l);
    forall id: nat | id < |s.items| ensures Transition(c, s, l).value.items[id].origin == s.items[id].origin {
      ItemSteady(c, s, l, id);
    }
  }

  /** One item per acceptance, in order. */
  lemma {:induction false} ItemsAreAccepts(c: Config, s: State, run: seq<Label>)
    requires After(c, s, run).Some?
    ensures Parsed(After(c, s, run).value.items) == Parsed(s.items) + Accepts(run)
    decreases run
  {
    if run != [] {
      ParsedStep(c, s, run[0]);
      ItemsAreAccepts(c, Transition(c, s, run[0]).value, run[1..]);
    }
  }

  // ---------- completion ----------

  /** The instruction went out, was refused or was given up, and if it went out each of its TEEs was sent
      exactly one message, otherwise none. */
  ghost predicate Completed(c: Config, t: State, id: nat)
    requires id < |t.items|
  {
    && multiset(t.taken)[id] + multiset(t.closed)[id] + multiset(t.dropped)[id] == 1
    && (forall tee: nat :: multiset(Keys(t.delivered))[Ticket(id, tee)] ==
          if id in t.taken && tee < |t.items[id].value.tees| then 1 else 0)
    && (t.items[id].kind.Attested? ==> HasReason(c, t, id))
  }

  lemma QuietIsCompleted(c: Config, t: State, id: nat)
    requires ValidConfig(c) && Inv(c, t) && Explained(c, t) && !t.cancelled && Quiescent(t) && id < |t.items|
    ensures Completed(c, t, id)
  {
    assert Places(t, id) == 1;
    assert t.abandoned == [] && Ids(t.jobs) == [];
    if t.items[id].kind.Attested? {
      EndHasReason(c, t, id);
    }
  }

  lemma RunCompletes(c: Config, run: seq<Label>)
    requires ValidConfig(c) && After(c, INIT, run).Some?
    requires !After(c, INIT, run).value.cancelled && Quiescent(After(c, INIT, run).value)
    ensures forall id: nat | id < |After(c, INIT, run).value.items| :: Completed(c, After(c, INIT, run).value, id)
  {
    InvInit(c);
    InvAfter(c, INIT, run);
    ExplainedAfter(c, INIT, run);
    forall id: nat | id < |After(c, INIT, run).value.items| ensures Completed(c, After(c, INIT, run).value, id) {
      QuietIsCompleted(c, After(c, INIT, run).value, id);
    }
  }

  /** The items are the admissible logs of the chain between start and cursor, one for each, and every one of
      them is completed. */
  ghost predicate ServesChain(c: Config, t: State, chain: seq<Log>, start: int, cursor: int) {
    && multiset(Parsed(t.items)) == multiset(Fed(c, Collector.Query(chain, start, cursor)))
    && forall id: nat | id < |t.items| :: Completed(c, t, id)
  }

  /** The listener read this chain with an indexer that never went back, and was not cut off in a send. */
  ghost predicate Collected(chain: seq<Log>, start: int, initial: (nat, int), polls: seq<Collector.Poll>, cursor: int,
                            sent: seq<seq<Log>>, told: (nat, int)) {
    && Collector.Sorted(chain) && Collector.NeverDecreases(start, polls)
    && (forall i | 0 <= i < |polls| :: Collector.Final(chain, polls[i]))
    && Collector.Reached(start, initial, polls, cursor, Flatten(sent), told)
  }

  lemma ItemsAreAllAccepts(c: Config, run: seq<Label>)
    requires After(c, INIT, run).Some?
    ensures Parsed(After(c, INIT, run).value.items) == Accepts(run)
  {
    ItemsAreAccepts(c, INIT, run);
    assert Parsed(INIT.items) == [];
  }

  /** End to end: if the relay accepted what the router handed over of the collected batches, in whatever order
      its goroutines ran, and came to rest without being cancelled, it served the chain up to the cursor. */
  lemma ChainToTees(c: Config, chain: seq<Log>, start: int, initial: (nat, int), polls: seq<Collector.Poll>,
                    cursor: int, sent: seq<seq<Log>>, told: (nat, int), run: seq<Label>)
    requires ValidConfig(c) && Collected(chain, start, initial, polls, cursor, sent, told)
    requires After(c, INIT, run).Some? && multiset(Accepts(run)) == multiset(Fed(c, Flatten(sent)))
    requires !After(c, INIT, run).value.cancelled && Quiescent(After(c, INIT, run).value)
    ensures ServesChain(c, After(c, INIT, run).value, chain, start, cursor)
  {
    Collector.ExactlyOnce(chain, start, polls);
    assert Flatten(sent) == Collector.Query(chain, start, cursor);
    ItemsAreAllAccepts(c, run);
    RunCompletes(c, run);
  }

  // ---------- it can always get there ----------

  lemma {:induction false} AfterConcat(c: Config, s: State, run: seq<Label>, more: seq<Label>)
    requires After(c, s, run).Some?
    ensures After(c, s, run + more) == After(c, After(c, s, run).value, more)
    decreases run
  {
    if run == [] {
      assert run + more == more;
    } else {
      assert (run + more)[1..] == run[1..] + more;
      AfterConcat(c, Transition(c, s, run[0]).value, run[1..], more);
    }
  }

  lemma {:induction false} AcceptsConcat(run: seq<Label>, more: seq<Label>)
    requires AllInternal(more)
    ensures Accepts(run + more) == Accepts(run)
  {
    if run != [] {
      assert (run + more)[1..] == run[1..] + more;
      AcceptsConcat(run[1..], more);
    } else {
      assert run + more == more;
      if more != [] {
        assert Internal(more[0]) && forall i | 0 <= i < |more[1..]| :: more[1..][i] == more[i + 1];
        AcceptsConcat([], more[1..]);
        assert [] + more[1..] == more[1..];
      }
    }
  }

  ghost predicate ReachesBy(c: Config, t: State, more: seq<Label>, chain: seq<Log>, start: int, cursor: int) {
    AllInternal(more) && After(c, t, more).Some? && ServesChain(c, After(c, t, more).value, chain, start, cursor)
  }

  /** From every uncancelled state in which the relay has accepted what was collected, whatever failed so far,
      its own steps can serve the chain up to the cursor. */
  lemma ChainReachesTees(c: Config, chain: seq<Log>, start: int, initial: (nat, int), polls: seq<Collector.Poll>,
                         cursor: int, sent: seq<seq<Log>>, told: (nat, int), run: seq<Label>)
    requires ValidConfig(c) && Collected(chain, start, initial, polls, cursor, sent, told)
    requires After(c, INIT, run).Some? && multiset(Accepts(run)) == multiset(Fed(c, Flatten(sent)))
    requires !After(c, INIT, run).value.cancelled
    ensures exists more :: ReachesBy(c, After(c, INIT, run).value, more, chain, start, cursor)
  {
    ComesToRest(c, run);
    var t := After(c, INIT, run).value;
    var more :| RestsBy(c, t, more);
    AfterConcat(c, INIT, run, more);
    AcceptsConcat(run, more);
    ChainToTees(c, chain, start, initial, polls, cursor, sent, told, run + more);
    assert ReachesBy(c, t, more, chain, start, cursor);
  }
}

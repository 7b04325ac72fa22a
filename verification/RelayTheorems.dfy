/** What the invariant means for whole runs of the pipeline. */
module RelayTheorems {
  import opened Terms
  import opened Sequences
  import opened Signers
  import opened Instructions
  import opened FdcHandler
  import opened Relay
  import opened RelayInvariant
  import opened RelayTermination
  import opened Transparency
  import Deduplication
  import FdcTables
  import Verifier
  import Post
  import Router

  // ---------- conservation and finality ----------

  /** Emission log: what the sender took, then what is still on the channel. */
  function Emissions(s: State): seq<nat> {
    s.taken + s.out
  }

  /** In every reachable state each accepted instruction is in exactly one place, nothing is emitted
      twice, and at most CAPACITY emissions wait on the channel. */
  lemma Conservation(c: Config, run: seq<Label>)
    requires ValidConfig(c) && After(c, INIT, run).Some?
    ensures var s := After(c, INIT, run).value;
            Conserved(s) && Distinct(Emissions(s)) && |s.out| <= 50
  {
    InvInit(c);
    InvAfter(c, INIT, run);
    var s := After(c, INIT, run).value;
    forall id | id in Emissions(s) ensures multiset(Emissions(s))[id] <= 1 {
      assert Places(s, id) <= 1;
    }
    DistinctIfCounts(Emissions(s));
  }

  /** Final places only grow, and an object that was emitted is never written again. */
  predicate Extends(s: State, t: State) {
    && Emissions(s) <= Emissions(t) && s.taken <= t.taken
    && s.closed <= t.closed && s.dropped <= t.dropped && s.abandoned <= t.abandoned && s.delivered <= t.delivered
    && |s.items| <= |t.items|
    && (forall id | id in Emissions(s) && id < |s.items| :: t.items[id].value == s.items[id].value)
  }

  lemma ExtendsSettled(c: Config, s: State, k: nat, it: Item, p: Progress)
    requires Conserved(s) && k < |s.jobs| && s.jobs[k].id < |s.items| && Settled(c, s, k, it, p).Some?
    ensures Extends(s, Settled(c, s, k, it, p).value)
  {
    HeldAlone(s, k);
    var s' := Settled(c, s, k, it, p).value;
    if p.Emitted? {
      assert Emissions(s') == Emissions(s) + [s.jobs[k].id];
    } else {
      assert Emissions(s') == Emissions(s);
    }
  }

  lemma ExtendsStep(c: Config, s: State, l: Label)
    requires Conserved(s) && Transition(c, s, l).Some?
    ensures Extends(s, Transition(c, s, l).value)
  {
    var s' := Transition(c, s, l).value;
    match l
    case Step(k, a) =>
      var it, pc := s.items[s.jobs[k].id], s.jobs[k].pc;
      var p := Advance(c.handler, it.value, pc, a);
      ExtendsSettled(c, s, k, Moved(it, pc, a, p.value), p);
    case Take => assert Emissions(s') == Emissions(s);
    case Accept(_, _, _) => assert Emissions(s') == Emissions(s);
    case Dispatch(k) => assert Emissions(s') == Emissions(s);
    case _ => assert Emissions(s') == Emissions(s) && s'.items == s.items;
  }

  lemma {:induction false} ExtendsAfter(c: Config, s: State, run: seq<Label>)
    requires ValidConfig(c) && Inv(c, s) && After(c, s, run).Some?
    ensures Extends(s, After(c, s, run).value)
    decreases run
  {
    if run != [] {
      var next := Transition(c, s, run[0]).value;
      ExtendsStep(c, s, run[0]);
      InvStep(c, s, run[0]);
      ExtendsAfter(c, next, run[1..]);
    }
  }

  /** Frozen after emission, and final places are final: over any continuation of any run. */
  lemma EmittedIsFrozen(c: Config, run: seq<Label>, more: seq<Label>)
    requires ValidConfig(c) && After(c, INIT, run).Some? && After(c, After(c, INIT, run).value, more).Some?
    ensures Extends(After(c, INIT, run).value, After(c, After(c, INIT, run).value, more).value)
  {
    InvInit(c);
    InvAfter(c, INIT, run);
    ExtendsAfter(c, After(c, INIT, run).value, more);
  }

  /** An entry of the configuration has the request's type and source, and this queue. */
  ghost predicate EntryServes(c: Config, r: FdcRequest, q: string) {
    exists n :: n in c.source.verifiers && FdcTables.Serves(c.source.verifiers[n], r) &&
      c.source.verifiers[n].queue == q
  }

  /** The item's event passed the filter, its operation is one its processor handles, an FDC item has the
      queue of its request, and its TEEs are the event's distinct machines. */
  ghost predicate Admitted(c: Config, it: Item) {
    var e := it.origin.event;
    && Router.Passes(c.router, e)
    && (match it.kind
        case Attested(q) =>
          e.opType == FDC2 && e.opCommand == Prove && e.message.RequestDoc? && EntryServes(c, e.message.request, q)
        case Restore => e.opType == Wallet && e.opCommand in {KeyDataProviderRestore, KeyDirectRestore}
        case Plain => (e.opType, e.opCommand) in c.router.validPairs - Router.SPECIAL_PAIRS)
    && it.value.event == e
    && Deduplication.ListsFirstOccurrences(it.value.tees, e.machines)
  }

  lemma QueueIsEntrys(c: Config, message: Bytes)
    requires ValidConfig(c) && FdcTables.QueueFor(c.fdc, message).Some?
    ensures message.RequestDoc? && EntryServes(c, message.request, FdcTables.QueueFor(c.fdc, message).value)
  {
    FdcTables.RequestGoesToEntry(c.fdc, c.source, message.request);
    var n :| n in c.source.verifiers && FdcTables.Serves(c.source.verifiers[n], message.request);
    assert FdcTables.QueueFor(c.fdc, message) == Some(c.source.verifiers[n].queue);
  }

  lemma OkIsAdmitted(c: Config, it: Item)
    requires ValidConfig(c) && ItemOk(c, it)
    ensures Admitted(c, it)
  {
    var l := Log(0, 0, 0, Some(it.origin.event));
    Router.FateExactly(c.router, l);
    if it.kind.Attested? {
      QueueIsEntrys(c, it.origin.event.message);
    }
    Router.ClassExactly(c.router, it.origin.event.opType, it.origin.event.opCommand);
    Deduplication.DedupListsFirstOccurrences(it.origin.event.machines);
  }

  /** Only admitted events become instructions. */
  lemma OnlyAdmittedAccepted(c: Config, run: seq<Label>, id: nat)
    requires ValidConfig(c) && After(c, INIT, run).Some? && id < |After(c, INIT, run).value.items|
    ensures Admitted(c, After(c, INIT, run).value.items[id])
  {
    InvInit(c);
    InvAfter(c, INIT, run);
    OkIsAdmitted(c, After(c, INIT, run).value.items[id]);
  }

  /** In cosigner mode the filter's address is that of the key the relay signs with. */
  predicate FiltersByOwnKey(c: Config) {
    c.router.filterer.CosignerFilterer? ==> c.router.filterer.address == OfKey(c.handler.signer.key)
  }

  /** A cosigner handles only what it cosigns. */
  lemma CosignerHandlesOnlyItsOwn(c: Config, run: seq<Label>, id: nat)
    requires ValidConfig(c) && c.router.filterer.CosignerFilterer? && FiltersByOwnKey(c)
    requires After(c, INIT, run).Some? && id < |After(c, INIT, run).value.items|
    ensures OfKey(c.handler.signer.key) in After(c, INIT, run).value.items[id].origin.event.cosigners
  {
    OnlyAdmittedAccepted(c, run, id);
  }

  // ---------- attempts, queries and posts ----------

  function PostsOf(asked: seq<Answer>): nat {
    if asked == [] then 0
    else PostsOf(asked[..|asked| - 1]) +
         match asked[|asked| - 1]
         case Posted(e) => Post.Posts(e, Verifier.MAX_POSTS)
         case PanicsAfterPosts(e) => Post.Posts(e, Verifier.MAX_POSTS)
         case _ => 0
  }

  lemma {:induction false} PostsBound(asked: seq<Answer>)
    ensures PostsOf(asked) <= Verifier.MAX_POSTS * |asked|
  {
    if asked != [] {
      PostsBound(asked[..|asked| - 1]);
      match asked[|asked| - 1]
      case Posted(e) => Post.PostCount(e, 3, Post.FirstFinal(e, 0, 3));
      case PanicsAfterPosts(e) => Post.PostCount(e, 3, Post.FirstFinal(e, 0, 3));
      case _ =>
    }
  }

  /** The limit the machine works with is the number configured for the item's queue. */
  lemma LimitIsConfigured(c: Config, it: Item)
    requires ValidConfig(c) && ItemOk(c, it) && it.kind.Attested?
    ensures it.kind.queue in c.source.queues && MaxAttempts(c, it.kind) == c.source.queues[it.kind.queue].maxAttempts
  {
    FdcTables.QueuesAsConfigured(c.fdc, c.source, it.kind.queue);
  }

  /** Attempts, queries and posts are bounded by the configured max_attempts; VERIFIED is remembered exactly, is
      never asked for again, and no other body ever reaches the message to be signed. */
  lemma QueriesAreBounded(c: Config, run: seq<Label>, id: nat)
    requires ValidConfig(c) && After(c, INIT, run).Some? && id < |After(c, INIT, run).value.items|
    requires After(c, INIT, run).value.items[id].kind.Attested?
    ensures After(c, INIT, run).value.items[id].kind.queue in c.source.queues
    ensures var it := After(c, INIT, run).value.items[id];
            var limit := c.source.queues[it.kind.queue].maxAttempts;
            && |it.asked| <= it.attempts <= limit && PostsOf(it.asked) <= 3 * limit
            && (forall k | 0 <= k < |it.asked| && Consumed(it.asked[k]) :: k == |it.asked| - 1)
            && (it.value.data.fixedMessage != EMPTY <==> exists k :: 0 <= k < |it.asked| && Consumed(it.asked[k]))
            && (forall k | 0 <= k < |it.asked| && Consumed(it.asked[k]) ::
                  it.value.data.fixedMessage == Raw(Verifier.VerifiedBody(it.asked[k].exchange).value))
  {
    InvInit(c);
    InvAfter(c, INIT, run);
    var it := After(c, INIT, run).value.items[id];
    assert ItemOk(c, it);
    LimitIsConfigured(c, it);
    PostsBound(it.asked);
  }

  /** The verifier lookup of a queued instruction succeeds on every attempt. */
  lemma LookupNeverFails(c: Config, run: seq<Label>, k: nat, a: Answer)
    requires ValidConfig(c) && After(c, INIT, run).Some? && k < |After(c, INIT, run).value.jobs|
    requires After(c, INIT, run).value.jobs[k].pc.Decode? && !a.Panics?
    ensures var s := After(c, INIT, run).value;
            s.jobs[k].id < |s.items| && Advance(c.handler, s.items[s.jobs[k].id].value, Decode, a).Next?
  {
    InvInit(c);
    InvAfter(c, INIT, run);
    var s := After(c, INIT, run).value;
    AdvanceOk(c, s.items[s.jobs[k].id], Decode, a);
  }

  // ---------- retry transparency and deliveries ----------

  predicate HonestLabel(c: Config, s: State, l: Label) {
    l.Step? && l.k < |s.jobs| ==>
      match s.jobs[l.k].pc
      case SignResponse(digest) => Honest(c.handler.signer, [digest], ReplyOf(l.answer))
      case SignTees(hashes) => Honest(c.handler.signer, hashes, ReplyOf(l.answer))
      case _ => true
  }

  predicate HonestRun(c: Config, s: State, run: seq<Label>)
    decreases run
  {
    run != [] ==>
      HonestLabel(c, s, run[0]) &&
      (Transition(c, s, run[0]).Some? ==> HonestRun(c, Transition(c, s, run[0]).value, run[1..]))
  }

  predicate Endorsed(c: Config, it: Item) {
    it.kind.Attested? ==>
      it.value.data.originalMessage.RequestDoc? &&
      it.value.data.variableMessage == SignatureBytes(By(c.handler.signer.key,
        TextHash(ResponseDigest(c.handler, it.value, it.value.data.originalMessage.request))))
  }

  predicate SignedRight(c: Config, it: Item) {
    it.value.signatures == SignAll(c.handler.signer.key, Hashes(it.value, c.handler.chainId))
  }

  predicate Finished(c: Config, it: Item) {
    Endorsed(c, it) && SignedRight(c, it)
  }

  predicate JobHonest(c: Config, it: Item, pc: Pc) {
    && (pc.HashTees? || pc.SignTees? || pc.Send? ==> Endorsed(c, it))
    && (pc.Send? ==> SignedRight(c, it))
  }

  predicate JobsHonest(c: Config, items: seq<Item>, jobs: seq<Job>) {
    forall k | 0 <= k < |jobs| :: jobs[k].id < |items| && JobHonest(c, items[jobs[k].id], jobs[k].pc)
  }

  predicate AllFinished(c: Config, items: seq<Item>, ids: seq<nat>) {
    forall id | id in ids :: id < |items| && Finished(c, items[id])
  }

  predicate HonestInv(c: Config, s: State) {
    JobsHonest(c, s.items, s.jobs) && AllFinished(c, s.items, s.out) && AllFinished(c, s.items, s.taken)
  }

  lemma AdvanceHonest(c: Config, it: Item, pc: Pc, a: Answer)
    requires !c.handler.signer.Other? && JobOk(c, it, pc) && JobHonest(c, it, pc)
    requires pc.SignResponse? ==> Honest(c.handler.signer, [pc.digest], ReplyOf(a))
    requires pc.SignTees? ==> Honest(c.handler.signer, pc.hashes, ReplyOf(a))
    ensures var p := Advance(c.handler, it.value, pc, a);
            var it' := Moved(it, pc, a, p.value);
            (p.Next? ==> JobHonest(c, it', p.pc)) && (p.Emitted? ==> Finished(c, it'))
  {
    match pc
    case SignResponse(d) =>
      SignerContract(c.handler.signer, [d], ReplyOf(a));
      assert SignAll(c.handler.signer.key, [d]) == [By(c.handler.signer.key, TextHash(d))];
    case SignTees(hashes) =>
      SignerContract(c.handler.signer, hashes, ReplyOf(a));
      var p := Advance(c.handler, it.value, pc, a);
      assert p.Next? ==> Hashes(p.value, c.handler.chainId) == hashes;
    case _ =>
  }

  lemma HonestSettled(c: Config, s: State, k: nat, it: Item, p: Progress)
    requires Conserved(s) && HonestInv(c, s)
    requires k < |s.jobs| && s.jobs[k].id < |s.items| && Settled(c, s, k, it, p).Some?
    requires (p.Next? ==> JobHonest(c, it, p.pc)) && (p.Emitted? ==> Finished(c, it))
    ensures HonestInv(c, Settled(c, s, k, it, p).value)
  {
    HeldAlone(s, k);
    var id, rest := s.jobs[k].id, RemoveAt(s.jobs, k);
    forall i | 0 <= i < |rest|
      ensures rest[i].id != id && rest[i].id < |s.items| && JobHonest(c, s.items[rest[i].id], rest[i].pc)
    {
      assert rest[i] == s.jobs[if i < k then i else i + 1];
    }
  }

  lemma HonestStep(c: Config, s: State, l: Label)
    requires ValidConfig(c) && !c.handler.signer.Other?
    requires Inv(c, s) && HonestInv(c, s) && HonestLabel(c, s, l) && Transition(c, s, l).Some?
    ensures HonestInv(c, Transition(c, s, l).value)
  {
    match l
    case Step(k, a) =>
      var it, pc := s.items[s.jobs[k].id], s.jobs[k].pc;
      AdvanceHonest(c, it, pc, a);
      var p := Advance(c.handler, it.value, pc, a);
      HonestSettled(c, s, k, Moved(it, pc, a, p.value), p);
    case Dispatch(k) => HonestDispatched(c, s, k);
    case _ => HonestOther(c, s, l);
  }

  lemma HonestDispatched(c: Config, s: State, k: nat)
    requires Conserved(s) && HonestInv(c, s) && Dispatched(s, k).Some?
    ensures HonestInv(c, Dispatched(s, k).value)
  {
    QueuedAlone(s, k);
  }

  lemma HonestOther(c: Config, s: State, l: Label)
    requires HonestInv(c, s) && !l.Step? && !l.Dispatch? && Transition(c, s, l).Some?
    ensures HonestInv(c, Transition(c, s, l).value)
  {
    match l
    case Accept(_, _, _) =>
    case Take => assert forall id | id in s.out[1..] :: id in s.out;
    case _ =>
  }

  lemma {:induction false} HonestAfter(c: Config, s: State, run: seq<Label>)
    requires ValidConfig(c) && !c.handler.signer.Other?
    requires Inv(c, s) && HonestInv(c, s) && HonestRun(c, s, run) && After(c, s, run).Some?
    ensures HonestInv(c, After(c, s, run).value)
    decreases run
  {
    if run != [] {
      HonestStep(c, s, run[0]);
      InvStep(c, s, run[0]);
      HonestAfter(c, Transition(c, s, run[0]).value, run[1..]);
    }
  }

  /** The body of the VERIFIED answer consumed. */
  function ConsumedBody(it: Item): seq<Byte>
    requires it.asked != [] && Consumed(it.asked[|it.asked| - 1])
  {
    Verifier.VerifiedBody(it.asked[|it.asked| - 1].exchange).value
  }

  /** The item is what the parsed event alone leads to, given the VERIFIED body it consumed. */
  predicate Clean(c: Config, it: Item) {
    && it.asked != [] && Consumed(it.asked[|it.asked| - 1])
    && it.origin.data.originalMessage.RequestDoc?
    && it.value == CleanEmission(c.handler, it.origin, ConsumedBody(it))
  }

  lemma FinishedIsClean(c: Config, it: Item)
    requires ItemOk(c, it) && Verified(it) && Finished(c, it) && it.kind.Attested?
    ensures Clean(c, it)
  {
    var body := ConsumedBody(it);
    var clean := CleanEmission(c.handler, it.origin, body);
    assert it.origin.data.(fixedMessage := Raw(body)).(variableMessage := it.value.data.variableMessage) ==
        it.value.data;
    assert clean.data == it.value.data;
    assert Hashes(clean, c.handler.chainId) == Hashes(it.value, c.handler.chainId);
  }

  /** A plain instruction is the parsed event and its signatures, nothing else. */
  predicate SignedAsParsed(c: Config, it: Item) {
    it.value == FromEvent(it.origin.event, it.origin.data.timestamp).(
                  signatures := SignAll(c.handler.signer.key, Hashes(it.origin, c.handler.chainId)))
  }

  lemma FinishedIsAsParsed(c: Config, it: Item)
    requires ItemOk(c, it) && Finished(c, it) && it.kind.Plain?
    ensures SignedAsParsed(c, it)
  {
    assert Hashes(it.origin, c.handler.chainId) == Hashes(it.value, c.handler.chainId);
  }

  lemma EmittedIsFinished(c: Config, run: seq<Label>, id: nat)
    requires ValidConfig(c) && !c.handler.signer.Other? && After(c, INIT, run).Some? && HonestRun(c, INIT, run)
    requires id in Emissions(After(c, INIT, run).value)
    ensures id < |After(c, INIT, run).value.items|
    ensures var it := After(c, INIT, run).value.items[id];
            ItemOk(c, it) && Verified(it) && Finished(c, it)
  {
    InvInit(c);
    InvAfter(c, INIT, run);
    HonestAfter(c, INIT, run);
  }

  /** Retry transparency: whatever failed, panicked or was cancelled before, an emitted attested
      instruction is a function of its event and of the one VERIFIED body consumed, and a plain one of
      its event alone. */
  lemma RetriesAreTransparent(c: Config, run: seq<Label>, id: nat)
    requires ValidConfig(c) && !c.handler.signer.Other? && After(c, INIT, run).Some? && HonestRun(c, INIT, run)
    requires id in Emissions(After(c, INIT, run).value)
    ensures id < |After(c, INIT, run).value.items|
    ensures var it := After(c, INIT, run).value.items[id];
            && (it.kind.Attested? ==> Clean(c, it))
            && (it.kind.Plain? ==> SignedAsParsed(c, it))
  {
    EmittedIsFinished(c, run, id);
    var it := After(c, INIT, run).value.items[id];
    if it.kind.Attested? {
      FinishedIsClean(c, it);
    }
    if it.kind.Plain? {
      FinishedIsAsParsed(c, it);
    }
  }

  /** Nothing fails, the verifier answers what it finally answered, and the signer is honest. */
  function CleanOracle(c: Config, it: Item): Oracle
    requires Clean(c, it)
  {
    var h := c.handler;
    var digest := ResponseDigest(h, it.value, it.origin.data.originalMessage.request);
    (stage: Stage) =>
      match stage
      case AtQuery => it.asked[|it.asked| - 1]
      case AtSignResponse => Replied(Signatures(SignAll(h.signer.key, [digest])))
      case AtSignTees => Replied(Signatures(SignAll(h.signer.key, Hashes(it.value, h.chainId))))
      case _ => Works
  }

  lemma CleanOracleIsFailureFree(c: Config, it: Item)
    requires Clean(c, it)
    ensures FailureFree(c.handler, it.origin, ConsumedBody(it), CleanOracle(c, it))
  {
  }

  lemma CleanOracleSucceeds(c: Config, it: Item)
    requires ValidConfig(c) && ItemOk(c, it) && it.kind.Attested? && Clean(c, it)
    ensures Run(c.handler, it.origin, Decode, CleanOracle(c, it)) == Emitted(it.value)
  {
    CleanOracleIsFailureFree(c, it);
    AttestedIsServed(c, it.origin.event);
    CleanAttempt(c.handler, it.origin, ConsumedBody(it), CleanOracle(c, it));
  }

  /** One failure-free Handle of the parsed event emits the item as it is, for the body it consumed. */
  ghost predicate OneAttemptEmits(c: Config, it: Item) {
    && it.asked != [] && Consumed(it.asked[|it.asked| - 1]) && it.origin.data.originalMessage.RequestDoc?
    && exists oracle: Oracle ::
         FailureFree(c.handler, it.origin, ConsumedBody(it), oracle) &&
         Run(c.handler, it.origin, Decode, oracle) == Emitted(it.value)
  }

  /** Retry transparency end to end: over every run, what is emitted for an attested instruction is what one
      failure-free Handle of its freshly parsed event emits. */
  lemma RetriesEqualOneAttempt(c: Config, run: seq<Label>, id: nat)
    requires ValidConfig(c) && !c.handler.signer.Other? && After(c, INIT, run).Some? && HonestRun(c, INIT, run)
    requires id in Emissions(After(c, INIT, run).value)
    ensures id < |After(c, INIT, run).value.items|
    ensures var it := After(c, INIT, run).value.items[id]; it.kind.Attested? ==> OneAttemptEmits(c, it)
  {
    EmittedIsFinished(c, run, id);
    var it := After(c, INIT, run).value.items[id];
    if it.kind.Attested? {
      FinishedIsClean(c, it);
      CleanOracleIsFailureFree(c, it);
      CleanOracleSucceeds(c, it);
    }
  }

  lemma CleanCommits(c: Config, it: Item, k: Config, other: Item)
    requires Clean(c, it) && Clean(k, other) && it.value.data.variableMessage == other.value.data.variableMessage
    ensures c.handler.signer.key == k.handler.signer.key
    ensures SameAttestation(c, it, k, other)
  {
    var r, s := it.origin.data.originalMessage.request, other.origin.data.originalMessage.request;
    CarriesDigest(c, it);
    CarriesDigest(k, other);
    DigestCommits(c.handler, it.value, r, k.handler, other.value, s);
  }

  lemma CarriesDigest(c: Config, it: Item)
    requires Clean(c, it)
    ensures it.value.data.variableMessage ==
              SignatureBytes(By(c.handler.signer.key, TextHash(
                ResponseDigest(c.handler, it.value, it.origin.data.originalMessage.request))))
  {
  }

  /** Same chain, same request, same verified body, same cosigners and threshold, same block time. */
  predicate SameAttestation(c: Config, it: Item, k: Config, other: Item) {
    && c.handler.chainId == k.handler.chainId
    && it.origin.data.originalMessage == other.origin.data.originalMessage
    && it.value.data.fixedMessage == other.value.data.fixedMessage
    && it.value.event.cosigners == other.value.event.cosigners
    && it.value.event.cosignersThreshold == other.value.event.cosignersThreshold
    && it.value.data.timestamp == other.value.data.timestamp
  }

  /** Two FDC instructions carry the same endorsement. */
  predicate SameEndorsement(it: Item, that: Item) {
    it.kind.Attested? && that.kind.Attested? && it.value.data.variableMessage == that.value.data.variableMessage
  }

  /** An endorsement cannot be moved: if two emitted FDC instructions, of any two honest runs of any two relays,
      carry the same endorsement, they attest the same thing under the same key. */
  lemma EndorsementsCommit(c: Config, run: seq<Label>, id: nat, k: Config, other: seq<Label>, otherId: nat)
    requires ValidConfig(c) && !c.handler.signer.Other? && After(c, INIT, run).Some? && HonestRun(c, INIT, run)
    requires ValidConfig(k) && !k.handler.signer.Other? && After(k, INIT, other).Some? && HonestRun(k, INIT, other)
    requires id in Emissions(After(c, INIT, run).value) && otherId in Emissions(After(k, INIT, other).value)
    ensures id < |After(c, INIT, run).value.items| && otherId < |After(k, INIT, other).value.items|
    ensures var it, that := After(c, INIT, run).value.items[id], After(k, INIT, other).value.items[otherId];
            SameEndorsement(it, that) ==>
              c.handler.signer.key == k.handler.signer.key && SameAttestation(c, it, k, that)
  {
    RetriesAreTransparent(c, run, id);
    RetriesAreTransparent(k, other, otherId);
    var it, that := After(c, INIT, run).value.items[id], After(k, INIT, other).value.items[otherId];
    if SameEndorsement(it, that) {
      CleanCommits(c, it, k, that);
    }
  }

  /** The verifier's last answer was VERIFIED with this body. */
  predicate AnsweredVerified(it: Item, body: seq<Byte>) {
    it.asked != [] &&
    var last := it.asked[|it.asked| - 1];
    && last.Posted? && Verifier.Respond(last.exchange).Ok?
    && Verifier.Respond(last.exchange).value.status == "VERIFIED" && Verifier.Respond(last.exchange).value.body == body
  }

  /** Everything an emitted instruction holds, written out from its event, its block time and the verified body:
      the event's fields, the two extra messages, and a signature for each of the event's distinct machines. */
  predicate EmittedAs(c: Config, it: Item) {
    var e, blockTime, d, key := it.origin.event, it.origin.data.timestamp, it.value.data, c.handler.signer.key;
    && Copies(d, e, blockTime) && Deduplication.ListsFirstOccurrences(it.value.tees, e.machines)
    && SignedForEach(it.value, key, c.handler.chainId)
    && (it.kind.Plain? ==> d.fixedMessage == Raw([]) && d.variableMessage == Raw([]))
    && (it.kind.Attested? ==>
          && e.message.RequestDoc? && d.fixedMessage.Raw? && AnsweredVerified(it, d.fixedMessage.octets)
          && Endorses(d.variableMessage, key, c.handler.chainId, e.message.request, d.fixedMessage.octets, e, blockTime)
          && !EndorsesBare(d.variableMessage))
  }

  lemma CleanIsEmittedAs(c: Config, it: Item)
    requires ItemOk(c, it) && it.kind.Attested? && Clean(c, it)
    ensures EmittedAs(c, it)
  {
    var exchange := it.asked[|it.asked| - 1].exchange;
    FromEventCopies(it.origin.event, it.origin.data.timestamp);
    CleanExactly(c.handler, it.origin, ConsumedBody(it));
    Verifier.VerifiedBodyExactly(exchange);
  }

  lemma OtherIsEmittedAs(c: Config, it: Item)
    requires ItemOk(c, it) && !it.kind.Attested? && SignedRight(c, it)
    ensures EmittedAs(c, it)
  {
    FromEventCopies(it.origin.event, it.origin.data.timestamp);
    SignAllForEach(it.value, c.handler.signer.key, c.handler.chainId);
    SkeletonCopies(it);
  }

  lemma SkeletonCopies(it: Item)
    requires OnlyExtrasDiffer(it.origin, it.value) && Copies(it.origin.data, it.origin.event, it.origin.data.timestamp)
    ensures Copies(it.value.data, it.origin.event, it.origin.data.timestamp)
  {
    var d, o := it.value.data, it.origin.data;
    assert d.(fixedMessage := o.fixedMessage, variableMessage := o.variableMessage).instructionId == d.instructionId;
  }

  /** Over every honest run: every emitted instruction is what its event, its block and the verifier say. */
  lemma EmittedExactly(c: Config, run: seq<Label>, id: nat)
    requires ValidConfig(c) && !c.handler.signer.Other? && After(c, INIT, run).Some? && HonestRun(c, INIT, run)
    requires id in Emissions(After(c, INIT, run).value)
    ensures id < |After(c, INIT, run).value.items|
    ensures EmittedAs(c, After(c, INIT, run).value.items[id])
  {
    EmittedIsFinished(c, run, id);
    var it := After(c, INIT, run).value.items[id];
    if it.kind.Attested? {
      FinishedIsClean(c, it);
      CleanIsEmittedAs(c, it);
    } else {
      OtherIsEmittedAs(c, it);
    }
  }

  /** A delivery for this TEE of this item: the event's fields, the machine's id and address, the item's extra
      messages, and the key's signature over exactly that. */
  predicate DeliveredAs(c: Config, it: Item, tee: nat, m: Prepared) {
    && m.Ready? && tee < |it.value.tees| && it.value.tees[tee] in it.origin.event.machines
    && Copies(m.data, it.origin.event, it.origin.data.timestamp)
    && m.data.teeId == it.value.tees[tee].teeId && m.url == it.value.tees[tee].url
    && m.data.fixedMessage == it.value.data.fixedMessage && m.data.variableMessage == it.value.data.variableMessage
    && m.signature == By(c.handler.signer.key, TextHash(InstructionHash(c.handler.chainId, m.data)))
  }

  lemma PreparedAs(c: Config, it: Item, tee: nat)
    requires EmittedAs(c, it) && tee < |it.value.tees|
    ensures DeliveredAs(c, it, tee, PrepareInstruction(it.value, tee))
  {
    assert it.value.tees[tee] in it.value.tees;
  }

  lemma DeliveredIsTaken(c: Config, run: seq<Label>, k: nat)
    requires ValidConfig(c) && After(c, INIT, run).Some? && k < |After(c, INIT, run).value.delivered|
    ensures After(c, INIT, run).value.delivered[k].ticket.id in Emissions(After(c, INIT, run).value)
  {
    InvInit(c);
    InvAfter(c, INIT, run);
    var s := After(c, INIT, run).value;
    assert s.delivered[k].ticket.id in s.taken;
  }

  /** Over every honest run: every delivered message is its event's, for one of its machines. */
  lemma DeliveredExactly(c: Config, run: seq<Label>, k: nat)
    requires ValidConfig(c) && !c.handler.signer.Other? && After(c, INIT, run).Some? && HonestRun(c, INIT, run)
    requires k < |After(c, INIT, run).value.delivered|
    ensures var s := After(c, INIT, run).value;
            var d := s.delivered[k];
            d.ticket.id < |s.items| && EmittedAs(c, s.items[d.ticket.id]) &&
            DeliveredAs(c, s.items[d.ticket.id], d.ticket.tee, d.message)
  {
    DeliveriesVerify(c, run, k);
    DeliveredIsTaken(c, run, k);
    var d := After(c, INIT, run).value.delivered[k];
    EmittedExactly(c, run, d.ticket.id);
    PreparedAs(c, After(c, INIT, run).value.items[d.ticket.id], d.ticket.tee);
  }

  /** Every delivered message verifies for exactly its data, TEE and chain, and each TEE of each
      instruction the sender took has exactly one message, pending or delivered. */
  lemma DeliveriesVerify(c: Config, run: seq<Label>, k: nat)
    requires ValidConfig(c) && !c.handler.signer.Other? && After(c, INIT, run).Some? && HonestRun(c, INIT, run)
    requires k < |After(c, INIT, run).value.delivered|
    ensures var s := After(c, INIT, run).value;
            var d := s.delivered[k];
            && Ledger(s)
            && d.ticket.id < |s.items| && d.ticket.tee < |s.items[d.ticket.id].value.tees|
            && var v := s.items[d.ticket.id].value;
            && d.message == PrepareInstruction(v, d.ticket.tee) && d.message.Ready?
            && d.message.data.teeId == v.tees[d.ticket.tee].teeId
            && d.message.data.(teeId := v.data.teeId) == v.data
            && Verifies(OfKey(c.handler.signer.key), InstructionHash(c.handler.chainId, d.message.data),
                d.message.signature)
  {
    InvInit(c);
    InvAfter(c, INIT, run);
    HonestAfter(c, INIT, run);
    DeliveryVerifies(c, After(c, INIT, run).value, k);
  }

  lemma DeliveryVerifies(c: Config, s: State, k: nat)
    requires Ledger(s) && DeliveredFromItems(s) && AllFinished(c, s.items, s.taken) && k < |s.delivered|
    ensures var d := s.delivered[k];
            && d.ticket.id < |s.items| && d.ticket.tee < |s.items[d.ticket.id].value.tees|
            && var v := s.items[d.ticket.id].value;
            && d.message == PrepareInstruction(v, d.ticket.tee) && d.message.Ready?
            && d.message.data.teeId == v.tees[d.ticket.tee].teeId
            && d.message.data.(teeId := v.data.teeId) == v.data
            && Verifies(OfKey(c.handler.signer.key), InstructionHash(c.handler.chainId, d.message.data),
                d.message.signature)
  {
    var d := s.delivered[k];
    assert Keys(s.delivered)[k] == d.ticket;
    assert d.ticket in multiset(Keys(s.delivered));
    var it := s.items[d.ticket.id];
    assert Finished(c, it);
    SignedMessagesVerify(it.value, c.handler.signer.key, c.handler.chainId, d.ticket.tee);
  }

  /** What an accepted event can cost at most, in the numbers of its queue and its distinct machines: ten steps
      for each attempt its queue allows, one for each machine, and seven. */
  lemma WorkPerInstruction(c: Config, e: Event, timestamp: nat, stamp: int)
    requires ValidConfig(c) && KindOf(c, e).Some?
    ensures exists tees: seq<Machine> :: Deduplication.ListsFirstOccurrences(tees, e.machines) &&
              AcceptCost(c, Accept(e, timestamp, stamp)) ==
                |tees| + 7 + match KindOf(c, e).value
                             case Attested(q) => if q in c.source.queues then 10 * c.source.queues[q].maxAttempts else 0
                             case _ => 0
  {
    FromEventCopies(e, timestamp);
    assert Deduplication.ListsFirstOccurrences(FromEvent(e, timestamp).tees, e.machines);
    if KindOf(c, e).value.Attested? {
      AttestedIsServed(c, e);
      FdcTables.QueuesAsConfigured(c.fdc, c.source, KindOf(c, e).value.queue);
    }
  }

  /** In cosigner mode every delivered message names the relay's own key among its cosigners and is signed
      with it. */
  lemma DeliveriesAreCosigned(c: Config, run: seq<Label>, k: nat)
    requires ValidConfig(c) && !c.handler.signer.Other? && After(c, INIT, run).Some? && HonestRun(c, INIT, run)
    requires c.router.filterer.CosignerFilterer? && FiltersByOwnKey(c) && k < |After(c, INIT, run).value.delivered|
    ensures var m := After(c, INIT, run).value.delivered[k].message;
            && m.Ready? && OfKey(c.handler.signer.key) in m.data.cosigners
            && Verifies(OfKey(c.handler.signer.key), InstructionHash(c.handler.chainId, m.data), m.signature)
  {
    DeliveriesVerify(c, run, k);
    var s := After(c, INIT, run).value;
    var id := s.delivered[k].ticket.id;
    CosignerHandlesOnlyItsOwn(c, run, id);
    InvInit(c);
    InvAfter(c, INIT, run);
    CosignersKept(c, s.items[id]);
  }

  lemma CosignersKept(c: Config, it: Item)
    requires ItemOk(c, it)
    ensures it.value.data.cosigners == it.origin.event.cosigners
  {
    assert it.origin.data.cosigners == it.value.data.cosigners;
  }
}

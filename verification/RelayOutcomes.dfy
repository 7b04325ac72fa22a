/** Why an instruction ended where it did. */
module RelayOutcomes {
  import opened Terms
  import opened FdcHandler
  import opened Relay
  import opened RelayInvariant
  import opened RelayTheorems
  import Verifier

  /** The query was answered REJECTED. */
  predicate Rejected(a: Answer) {
    a.Posted? && Verifier.Respond(a.exchange).Ok? && Verifier.Respond(a.exchange).value.status == Verifier.REJECTED
  }

  predicate Refused(it: Item) {
    it.kind.Attested? ==> it.asked != [] && Rejected(it.asked[|it.asked| - 1])
  }

  predicate AllRefused(items: seq<Item>, ids: seq<nat>) {
    forall id | id in ids :: id < |items| && Refused(items[id])
  }

  predicate AllExhausted(c: Config, items: seq<Item>, ids: seq<nat>) {
    forall id | id in ids :: id < |items| && items[id].attempts >= MaxAttempts(c, items[id].kind)
  }

  predicate Explained(c: Config, s: State) {
    && AllRefused(s.items, s.closed)
    && AllExhausted(c, s.items, s.dropped)
    && (s.abandoned != [] ==> s.cancelled)
  }

  /** A processor gives an FDC instruction up without error only on REJECTED. */
  lemma ClosedIsRefused(c: Config, it: Item, pc: Pc, a: Answer)
    requires JobOk(c, it, pc) && Advance(c.handler, it.value, pc, a).Closed?
    ensures Refused(Moved(it, pc, a, Advance(c.handler, it.value, pc, a).value))
  {
    assert pc.Query? || pc.Fetch?;
  }

  lemma ExplainedSettled(c: Config, s: State, k: nat, it: Item, p: Progress)
    requires Conserved(s) && Explained(c, s) && k < |s.jobs| && s.jobs[k].id < |s.items| &&
              Settled(c, s, k, it, p).Some?
    requires it.kind == s.items[s.jobs[k].id].kind && it.attempts == s.items[s.jobs[k].id].attempts
    requires p.Closed? ==> Refused(it)
    ensures Explained(c, Settled(c, s, k, it, p).value)
  {
    HeldAlone(s, k);
    NotClosed(s, k);
  }

  lemma NotClosed(s: State, k: nat)
    requires Conserved(s) && k < |s.jobs|
    ensures s.jobs[k].id !in s.closed
  {
    assert Ids(s.jobs)[k] == s.jobs[k].id;
    assert s.jobs[k].id in multiset(Ids(s.jobs));
    assert Places(s, s.jobs[k].id) <= 1;
  }

  lemma ExplainedDispatched(c: Config, s: State, k: nat)
    requires Conserved(s) && Explained(c, s) && Dispatched(s, k).Some?
    ensures Explained(c, Dispatched(s, k).value)
  {
    assert s.queued[k] in multiset(s.queued);
    assert Places(s, s.queued[k]) <= 1;
  }

  lemma ExplainedStepped(c: Config, s: State, k: nat, a: Answer)
    requires Conserved(s) && ItemsOk(c, s) && Explained(c, s) && Stepped(c, s, k, a).Some?
    ensures Explained(c, Stepped(c, s, k, a).value)
  {
    var it, pc := s.items[s.jobs[k].id], s.jobs[k].pc;
    var p := Advance(c.handler, it.value, pc, a);
    if p.Closed? {
      ClosedIsRefused(c, it, pc, a);
    }
    ExplainedSettled(c, s, k, Moved(it, pc, a, p.value), p);
  }

  lemma ExplainedOther(c: Config, s: State, l: Label)
    requires Explained(c, s) && Transition(c, s, l).Some? && !l.Step? && !l.Dispatch?
    ensures Explained(c, Transition(c, s, l).value)
  {
  }

  lemma ExplainedStep(c: Config, s: State, l: Label)
    requires Inv(c, s) && Explained(c, s) && Transition(c, s, l).Some?
    ensures Explained(c, Transition(c, s, l).value)
  {
    match l
    case Step(k, a) => ExplainedStepped(c, s, k, a);
    case Dispatch(k) => ExplainedDispatched(c, s, k);
    case _ => ExplainedOther(c, s, l);
  }

  lemma {:induction false} ExplainedAfter(c: Config, s: State, run: seq<Label>)
    requires ValidConfig(c) && Inv(c, s) && Explained(c, s) && After(c, s, run).Some?
    ensures Explained(c, After(c, s, run).value)
    decreases run
  {
    if run != [] {
      ExplainedStep(c, s, run[0]);
      InvStep(c, s, run[0]);
      ExplainedAfter(c, Transition(c, s, run[0]).value, run[1..]);
    }
  }

  /** Every end of an FDC instruction has its reason: emitted after a VERIFIED answer, closed on REJECTED,
      dropped after exactly max_attempts attempts, left in the queue only at shutdown. */
  predicate HasReason(c: Config, s: State, id: nat)
    requires id < |s.items|
  {
    var it := s.items[id];
    && (id in s.out || id in s.taken ==> it.asked != [] && Consumed(it.asked[|it.asked| - 1]))
    && (id in s.closed ==> it.asked != [] && Rejected(it.asked[|it.asked| - 1]) && it.value.data.fixedMessage == EMPTY)
    && it.kind.Attested? && it.kind.queue in c.source.queues
    && (id in s.dropped ==> it.attempts == c.source.queues[it.kind.queue].maxAttempts)
    && (id in s.queued || id in s.waiting ==> it.attempts < c.source.queues[it.kind.queue].maxAttempts)
    && (id in s.abandoned ==> s.cancelled)
  }

  lemma EndsHaveReasons(c: Config, run: seq<Label>, id: nat)
    requires ValidConfig(c) && After(c, INIT, run).Some? && id < |After(c, INIT, run).value.items|
    requires After(c, INIT, run).value.items[id].kind.Attested?
    ensures HasReason(c, After(c, INIT, run).value, id)
  {
    InvInit(c);
    InvAfter(c, INIT, run);
    ExplainedAfter(c, INIT, run);
    EndHasReason(c, After(c, INIT, run).value, id);
  }

  lemma EndHasReason(c: Config, s: State, id: nat)
    requires ValidConfig(c) && ItemsOk(c, s) && Explained(c, s) && id < |s.items| && s.items[id].kind.Attested?
    ensures HasReason(c, s, id)
  {
    assert ItemOk(c, s.items[id]);
    LimitIsConfigured(c, s.items[id]);
  }

  // ---------- what a verdict does ----------

  /** Where the instruction goes after one more failed attempt. */
  predicate RetriedOrDropped(c: Config, next: State, id: nat) {
    id < |next.items| && next.items[id].kind.Attested? && next.items[id].kind.queue in c.source.queues &&
    if next.items[id].attempts < c.source.queues[next.items[id].kind.queue].maxAttempts then id in next.waiting
    else id in next.dropped
  }

  lemma VerdictStep(c: Config, s: State, k: nat, a: Answer)
    requires k < |s.jobs| && s.jobs[k].id < |s.items| && s.jobs[k].pc.Query? && Stepped(c, s, k, a).Some?
    requires a.Posted?
    ensures var p := Advance(c.handler, s.items[s.jobs[k].id].value, s.jobs[k].pc, a);
            var response := Verifier.Respond(a.exchange);
            && (response.Ok? && response.value.status == "VERIFIED" ==>
                  p.Next? && p.pc.HashResponse? && p.value.data.fixedMessage == Raw(response.value.body))
            && (response.Ok? && response.value.status == "REJECTED" ==> p.Closed?)
            && (response.Ok? && response.value.status == "RETRY" ==> p.Failed?)
            && (response.Err? ==> p.Failed?)
  {
  }

  /** What a step's result does to the places of the instruction it was taken for. */
  lemma SettledPlace(c: Config, s: State, k: nat, it: Item, p: Progress)
    requires k < |s.jobs| && s.jobs[k].id < |s.items| && Settled(c, s, k, it, p).Some?
    ensures var id, next := s.jobs[k].id, Settled(c, s, k, it, p).value;
            && id < |next.items| && next.items[id] == it
            && (p.Closed? ==> id in next.closed)
            && (p.Next? ==> k < |next.jobs| && next.jobs[k] == Job(id, p.pc))
            && (p.Failed? || p.Panicked? || (next.waiting == s.waiting && next.dropped == s.dropped))
            && (p.Failed? || p.Panicked? ==>
                  if it.attempts < MaxAttempts(c, it.kind) then id in next.waiting else id in next.dropped)
  {
  }

  /** What the answer of a query made of the instruction. */
  predicate Decided(c: Config, next: State, k: nat, id: nat, response: Result<Verifier.Response, Verifier.Violation>) {
    && id < |next.items|
    && (response.Ok? && response.value.status == "VERIFIED" ==>
          && next.items[id].value.data.fixedMessage == Raw(response.value.body)
          && k < |next.jobs| && next.jobs[k].id == id && next.jobs[k].pc.HashResponse?)
    && (response.Ok? && response.value.status == "REJECTED" ==> id in next.closed)
    && (response.Err? || response.value.status == "RETRY" ==> RetriedOrDropped(c, next, id))
  }

  lemma QueryNeverBlocks(c: Config, s: State, k: nat, a: Answer)
    requires k < |s.jobs| && s.jobs[k].id < |s.items| && s.jobs[k].pc.Query?
    ensures Stepped(c, s, k, a).Some?
  {
  }

  /** In every state keeping the invariant: VERIFIED stores the body and goes on to sign it, REJECTED closes the
      instruction for good, RETRY and every failed query put it up for another attempt, or drop it after the last
      one the configuration allows. */
  lemma VerdictDecides(c: Config, s: State, k: nat, a: Answer)
    requires ValidConfig(c) && Inv(c, s) && k < |s.jobs| && s.jobs[k].pc.Query? && a.Posted?
    ensures s.jobs[k].id < |s.items| && Stepped(c, s, k, a).Some?
    ensures Decided(c, Stepped(c, s, k, a).value, k, s.jobs[k].id, Verifier.Respond(a.exchange))
  {
    JobIsOk(c, s, k);
    QueryNeverBlocks(c, s, k, a);
    var it, pc := s.items[s.jobs[k].id], s.jobs[k].pc;
    var p := Advance(c.handler, it.value, pc, a);
    LimitIsConfigured(c, it);
    VerdictStep(c, s, k, a);
    SettledPlace(c, s, k, Moved(it, pc, a, p.value), p);
  }

  /** What makes a step of Handle fail, by where it stands: a panic, a query without a usable answer, a hashing
      error, a signer that does not answer, one that does not sign the digest exactly once, or sends another number
      of signatures than there are TEEs, and cancellation while sending. */
  predicate FailsAt(c: Config, it: Item, pc: Pc, a: Answer) {
    var signer := c.handler.signer;
    a.Panics? ||
    match pc
    case Decode => false
    case Query(_) =>
      || !a.Posted?
      || Verifier.Respond(a.exchange).Err? || Verifier.Respond(a.exchange).value.status == "RETRY"
    case HashResponse(_) => a.Fails?
    case SignResponse(_) => !a.Replied? || a.reply.Unavailable? || (!signer.Local? && |a.reply.signatures| != 1)
    case Fetch => false
    case HashTees => a.Fails? && it.value.tees != []
    case SignTees(hashes) =>
      !a.Replied? || a.reply.Unavailable? || (signer.Remote? && |a.reply.signatures| != |it.value.tees|)
    case Send => a.Fails?
  }

  ghost predicate FailureIsExact(c: Config, it: Item, pc: Pc, a: Answer) {
    var p := Advance(c.handler, it.value, pc, a);
    p.Failed? || p.Panicked? <==> FailsAt(c, it, pc, a)
  }

  lemma FailsExactly(c: Config, it: Item, pc: Pc, a: Answer)
    requires ValidConfig(c) && ItemOk(c, it) && JobOk(c, it, pc) && it.kind.Attested?
    ensures FailureIsExact(c, it, pc, a)
  {
    if pc.Decode? {
      AdvanceOk(c, it, pc, a);
    } else if pc.Query? {
      QueryFailsExactly(c, it, pc.request, a);
    } else if pc.SignResponse? || pc.SignTees? {
      SigningFailsExactly(c, it, pc, a);
    }
  }

  lemma QueryFailsExactly(c: Config, it: Item, request: FdcRequest, a: Answer)
    ensures FailureIsExact(c, it, Query(request), a)
  {
    if a.Posted? && Verifier.Respond(a.exchange).Ok? {
      Verifier.VerdictIsKnown(a.exchange);
    }
  }

  lemma SigningFailsExactly(c: Config, it: Item, pc: Pc, a: Answer)
    requires pc.SignResponse? || (pc.SignTees? && |pc.hashes| == |it.value.tees|)
    ensures FailureIsExact(c, it, pc, a)
  {
  }

  /** In every state keeping the invariant: exactly those steps fail, and a failed one puts the FDC instruction up
      for another attempt, or drops it after the last one the configuration allows. */
  lemma FailureDecides(c: Config, s: State, k: nat, a: Answer)
    requires ValidConfig(c) && Inv(c, s) && k < |s.jobs| && Stepped(c, s, k, a).Some?
    requires s.jobs[k].id < |s.items| && s.items[s.jobs[k].id].kind.Attested?
    ensures var next, id := Stepped(c, s, k, a).value, s.jobs[k].id;
            if FailsAt(c, s.items[id], s.jobs[k].pc, a) then RetriedOrDropped(c, next, id)
            else id !in next.waiting && id !in next.dropped
  {
    JobIsOk(c, s, k);
    var it, pc := s.items[s.jobs[k].id], s.jobs[k].pc;
    var p := Advance(c.handler, it.value, pc, a);
    LimitIsConfigured(c, it);
    FailsExactly(c, it, pc, a);
    HeldIsUnfinished(s, k);
    SettledPlace(c, s, k, Moved(it, pc, a, p.value), p);
  }

  lemma HeldIsUnfinished(s: State, k: nat)
    requires Conserved(s) && k < |s.jobs|
    ensures s.jobs[k].id !in s.waiting && s.jobs[k].id !in s.dropped
  {
    assert Ids(s.jobs)[k] == s.jobs[k].id;
    assert s.jobs[k].id in multiset(Ids(s.jobs));
    assert Places(s, s.jobs[k].id) <= 1;
  }

  lemma JobIsOk(c: Config, s: State, k: nat)
    requires ItemsOk(c, s) && k < |s.jobs|
    ensures s.jobs[k].id < |s.items|
    ensures ItemOk(c, s.items[s.jobs[k].id]) && JobOk(c, s.items[s.jobs[k].id], s.jobs[k].pc)
  {
  }
}

/** The concurrent pipeline from routed instruction to delivery.

    Processors, queue workers, retry timers, the sender and its per-TEE goroutines interleave
    freely; one label is one uninterruptible step. Instruction objects live in `items` and are
    referred to by index, as the Go code passes references; a step of a processor writes the object it
    holds, and the sender's goroutines read the object at the time they run. */
module Relay {
  import opened Terms
  import opened Sequences
  import opened Instructions
  import opened FdcHandler
  import FdcTables
  import Verifier
  import Router

  /** Built from one configuration: the tables, the router and the signing handler. */
  datatype Config = Config(handler: Handler, fdc: FdcTables.Fdc, source: FdcTables.Config, router: Router.Router)

  predicate ValidConfig(c: Config) {
    && FdcTables.BuiltFrom(c.fdc, c.source) && FdcTables.QueuesDeclared(c.source)
    && c.handler.servers == c.fdc.servers
    && forall q | q in c.fdc.queues :: c.fdc.queues[q].maxAttempts >= 1
  }

  datatype Kind = Plain | Restore | Attested(queue: string)

  /** origin is the object as parsed; attempts and asked record its history: how often it was
      dispatched and how the environment answered its verifier queries. */
  datatype Item = Item(kind: Kind, origin: Value, value: Value, stamp: int, attempts: nat, asked: seq<Answer>)

  datatype Job = Job(id: nat, pc: Pc)

  datatype Ticket = Ticket(id: nat, tee: nat)

  datatype Delivery = Delivery(ticket: Ticket, message: Prepared)

  /** queued: in a priority queue; waiting: timing out before a retry; jobs: held by a processor;
      out: on the channel to the sender; taken: received by the sender; closed: finished with nothing
      to send; dropped: failed for good; abandoned: left in a queue at shutdown. The sender and the queue
      workers may leave once the pipeline is cancelled; stopped names the queues without a worker. */
  datatype State = State(
    items: seq<Item>, queued: seq<nat>, waiting: seq<nat>, jobs: seq<Job>, out: seq<nat>, taken: seq<nat>,
    closed: seq<nat>, dropped: seq<nat>, abandoned: seq<nat>,
    sends: seq<Ticket>, delivered: seq<Delivery>, cancelled: bool, senderGone: bool, stopped: set<string>)

  const INIT := State([], [], [], [], [], [], [], [], [], [], [], false, false, {})

  datatype Label =
    | Accept(event: Event, timestamp: nat, stamp: int)
    | Dispatch(k: nat)
    | Step(k: nat, answer: Answer)
    | Requeue(k: nat)
    | Take
    | Deliver(k: nat)
    | Cancel
    | SenderExit
    | WorkerExit(queue: string)
    | AbandonQueued(k: nat)
    | AbandonWaiting(k: nat)

  /** Which processor takes an event, if any: filter, router class, and for FDC the queue lookup. */
  function KindOf(c: Config, e: Event): Option<Kind> {
    if Router.FiltersOut(c.router.filterer, e) then None else
    match Router.InstClass(c.router, e.opType, e.opCommand)
    case Invalid => None
    case Plain => Some(Plain)
    case Backup => Some(Restore)
    case Fdc =>
      match FdcTables.QueueFor(c.fdc, e.message)
      case None => None
      case Some(q) => Some(Attested(q))
  }

  function MaxAttempts(c: Config, kind: Kind): int {
    if kind.Attested? && kind.queue in c.fdc.queues then c.fdc.queues[kind.queue].maxAttempts else 0
  }

  /** Weight.Less. */
  predicate Less(w: int, t: int) {
    t < w
  }

  /** The priority queue serves an entry no other entry of its queue is ordered above. */
  predicate Foremost(s: State, k: nat)
    requires k < |s.queued|
  {
    s.queued[k] < |s.items| &&
    forall i | 0 <= i < |s.queued| && s.queued[i] < |s.items| &&
               s.items[s.queued[i]].kind == s.items[s.queued[k]].kind ::
      !Less(s.items[s.queued[k]].stamp, s.items[s.queued[i]].stamp)
  }

  function Tickets(id: nat, n: nat): (ts: seq<Ticket>)
    ensures |ts| == n
  {
    if n == 0 then [] else Tickets(id, n - 1) + [Ticket(id, n - 1)]
  }

  function Accepted(c: Config, s: State, event: Event, timestamp: nat, stamp: int): Option<State> {
    match KindOf(c, event)
    case None => None
    case Some(kind) =>
      var v, id := FromEvent(event, timestamp), |s.items|;
      var s' := s.(items := s.items + [Item(kind, v, v, stamp, 0, [])]);
      Some(if kind.Attested? then s'.(queued := s.queued + [id])
           else s'.(jobs := s.jobs + [Job(id, if kind.Plain? then HashTees else Fetch)]))
  }

  /** The queue still has its worker. */
  predicate Served(s: State, kind: Kind) {
    kind.Attested? ==> kind.queue !in s.stopped
  }

  function Dispatched(s: State, k: nat): Option<State> {
    if k >= |s.queued| || !Foremost(s, k) || !Served(s, s.items[s.queued[k]].kind) then None else
    var id := s.queued[k];
    Some(s.(items := s.items[id := s.items[id].(attempts := s.items[id].attempts + 1)],
            queued := RemoveAt(s.queued, k), jobs := s.jobs + [Job(id, Decode)]))
  }

  /** The item after a step from pc answered by a that left the object as v. */
  function Moved(it: Item, pc: Pc, a: Answer, v: Value): Item {
    it.(value := v, asked := if pc.Query? then it.asked + [a] else it.asked)
  }

  /** What becomes of job k and its item after a step with result p. */
  function Settled(c: Config, s: State, k: nat, it: Item, p: Progress): Option<State>
    requires k < |s.jobs| && s.jobs[k].id < |s.items|
  {
    var id := s.jobs[k].id;
    var s' := s.(items := s.items[id := it], jobs := RemoveAt(s.jobs, k));
    match p
    case Next(_, pc) => Some(s'.(jobs := s.jobs[k := Job(id, pc)]))
    case Closed(_) => Some(s'.(closed := s.closed + [id]))
    case Emitted(_) => if |s.out| < CAPACITY then Some(s'.(out := s.out + [id])) else None
    case _ =>
      if it.attempts < MaxAttempts(c, it.kind) then Some(s'.(waiting := s.waiting + [id]))
      else Some(s'.(dropped := s.dropped + [id]))
  }

  function Stepped(c: Config, s: State, k: nat, a: Answer): Option<State> {
    if k >= |s.jobs| || s.jobs[k].id >= |s.items| then None else
    var job, it := s.jobs[k], s.items[s.jobs[k].id];
    if job.pc.Send? && a.Fails? && !s.cancelled then None else
    var p := Advance(c.handler, it.value, job.pc, a);
    Settled(c, s, k, Moved(it, job.pc, a, p.value), p)
  }

  function Requeued(s: State, k: nat): Option<State> {
    if k >= |s.waiting| then None
    else Some(s.(waiting := RemoveAt(s.waiting, k), queued := s.queued + [s.waiting[k]]))
  }

  function Taken(s: State): Option<State> {
    if s.senderGone || s.out == [] || s.out[0] >= |s.items| then None else
    Some(s.(out := s.out[1..], taken := s.taken + [s.out[0]],
            sends := s.sends + Tickets(s.out[0], |s.items[s.out[0]].value.tees|)))
  }

  function Delivered(s: State, k: nat): Option<State> {
    if k >= |s.sends| || s.sends[k].id >= |s.items| then None else
    var t := s.sends[k];
    Some(s.(sends := RemoveAt(s.sends, k),
            delivered := s.delivered + [Delivery(t, PrepareInstruction(s.items[t.id].value, t.tee))]))
  }

  function QueuedAbandoned(s: State, k: nat): Option<State> {
    if k >= |s.queued| || !s.cancelled then None
    else Some(s.(queued := RemoveAt(s.queued, k), abandoned := s.abandoned + [s.queued[k]]))
  }

  function WaitingAbandoned(s: State, k: nat): Option<State> {
    if k >= |s.waiting| || !s.cancelled then None
    else Some(s.(waiting := RemoveAt(s.waiting, k), abandoned := s.abandoned + [s.waiting[k]]))
  }

  function Transition(c: Config, s: State, l: Label): Option<State> {
    match l
    case Accept(event, timestamp, stamp) => Accepted(c, s, event, timestamp, stamp)
    case Dispatch(k) => Dispatched(s, k)
    case Step(k, a) => Stepped(c, s, k, a)
    case Requeue(k) => Requeued(s, k)
    case Take => Taken(s)
    case Deliver(k) => Delivered(s, k)
    case Cancel => if s.cancelled then None else Some(s.(cancelled := true))
    case SenderExit => if s.cancelled && !s.senderGone then Some(s.(senderGone := true)) else None
    case WorkerExit(q) =>
      if s.cancelled && q in c.fdc.queues && q !in s.stopped then Some(s.(stopped := s.stopped + {q})) else None
    case AbandonQueued(k) => QueuedAbandoned(s, k)
    case AbandonWaiting(k) => WaitingAbandoned(s, k)
  }

  /** The state after a run, if every label was enabled in turn. */
  function After(c: Config, s: State, run: seq<Label>): Option<State>
    decreases run
  {
    if run == [] then Some(s) else
    match Transition(c, s, run[0])
    case None => None
    case Some(next) => After(c, next, run[1..])
  }

  // ---------- what holds of every reachable state ----------

  function Ids(jobs: seq<Job>): (ids: seq<nat>)
    ensures |ids| == |jobs| && forall k | 0 <= k < |jobs| :: ids[k] == jobs[k].id
  {
    seq(|jobs|, k requires 0 <= k < |jobs| => jobs[k].id)
  }

  /** How many of the places hold instruction id, counting repetitions. */
  function Places(s: State, id: nat): nat {
    multiset(s.queued)[id] + multiset(s.waiting)[id] + multiset(Ids(s.jobs))[id] + multiset(s.out)[id] +
    multiset(s.taken)[id] + multiset(s.closed)[id] + multiset(s.dropped)[id] + multiset(s.abandoned)[id]
  }

  /** Each accepted instruction is in exactly one place, once, and the channel keeps to its capacity. */
  ghost predicate Conserved(s: State) {
    (forall id: nat :: Places(s, id) == if id < |s.items| then 1 else 0) && |s.out| <= CAPACITY
  }

  /** The query was answered VERIFIED and the answer was used. */
  predicate Consumed(a: Answer) {
    a.Posted? && Verifier.VerifiedBody(a.exchange).Some?
  }

  /** What the object remembers of its queries: the body of a consumed VERIFIED answer. */
  function Memory(asked: seq<Answer>): Bytes {
    if asked != [] && Consumed(asked[|asked| - 1]) then Raw(Verifier.VerifiedBody(asked[|asked| - 1].exchange).value)
    else EMPTY
  }

  predicate NoQueryAfterVerified(asked: seq<Answer>) {
    forall k | 0 <= k < |asked| - 1 :: !Consumed(asked[k])
  }

  predicate ItemOk(c: Config, it: Item) {
    && it.origin == FromEvent(it.origin.event, it.origin.data.timestamp)
    && KindOf(c, it.origin.event) == Some(it.kind)
    && OnlyExtrasDiffer(it.origin, it.value)
    && NoQueryAfterVerified(it.asked)
    && |it.asked| <= it.attempts <= MaxAttempts(c, it.kind)
    && (it.kind.Attested? ==> it.value.data.fixedMessage == Memory(it.asked))
    && (it.kind.Plain? ==> it.value.data == it.origin.data)
  }

  predicate JobOk(c: Config, it: Item, pc: Pc) {
    var message := it.value.data.originalMessage;
    match pc
    case Decode => it.kind.Attested? && |it.asked| < it.attempts
    case Query(r) => it.kind.Attested? && |it.asked| < it.attempts && Memory(it.asked) == EMPTY &&
        message == RequestDoc(r)
    case HashResponse(r) => it.kind.Attested? && Verified(it) && message == RequestDoc(r)
    case SignResponse(d) =>
      it.kind.Attested? && Verified(it) && message.RequestDoc? &&
          d == ResponseDigest(c.handler, it.value, message.request)
    case Fetch => it.kind.Restore?
    case HashTees => Verified(it)
    case SignTees(hashes) => Verified(it) && hashes == Hashes(it.value, c.handler.chainId)
    case Send => Verified(it)
  }

  predicate Idle(c: Config, it: Item) {
    it.kind.Attested? && it.attempts < MaxAttempts(c, it.kind)
  }

  predicate Verified(it: Item) {
    it.kind.Attested? ==> Memory(it.asked) != EMPTY
  }

  predicate AllItemsOk(c: Config, items: seq<Item>) {
    forall id | 0 <= id < |items| :: ItemOk(c, items[id])
  }

  predicate AllJobsOk(c: Config, items: seq<Item>, jobs: seq<Job>) {
    forall k | 0 <= k < |jobs| :: jobs[k].id < |items| && JobOk(c, items[jobs[k].id], jobs[k].pc)
  }

  predicate AllIdle(c: Config, items: seq<Item>, ids: seq<nat>) {
    forall id | id in ids :: id < |items| && Idle(c, items[id])
  }

  predicate AllVerified(items: seq<Item>, ids: seq<nat>) {
    forall id | id in ids :: id < |items| && Verified(items[id])
  }

  predicate ItemsOk(c: Config, s: State) {
    && AllItemsOk(c, s.items)
    && AllJobsOk(c, s.items, s.jobs)
    && AllIdle(c, s.items, s.queued) && AllIdle(c, s.items, s.waiting)
    && AllVerified(s.items, s.out) && AllVerified(s.items, s.taken)
  }

  function Keys(ds: seq<Delivery>): (ts: seq<Ticket>)
    ensures |ts| == |ds| && forall k | 0 <= k < |ds| :: ts[k] == ds[k].ticket
  {
    seq(|ds|, k requires 0 <= k < |ds| => ds[k].ticket)
  }

  /** The sender owes each TEE of each instruction it took exactly one message: pending or delivered. */
  ghost predicate Ledger(s: State) {
    forall t: Ticket ::
      multiset(s.sends)[t] + multiset(Keys(s.delivered))[t] ==
        if t.id < |s.items| && t.id in s.taken && t.tee < |s.items[t.id].value.tees| then 1 else 0
  }

  /** What was delivered is what the object still holds. */
  predicate DeliveredFromItems(s: State) {
    forall k | 0 <= k < |s.delivered| ::
      var d := s.delivered[k];
      d.ticket.id < |s.items| && d.ticket.id in s.taken &&
          d.message == PrepareInstruction(s.items[d.ticket.id].value, d.ticket.tee)
  }

  ghost predicate Inv(c: Config, s: State) {
    Conserved(s) && ItemsOk(c, s) && Ledger(s) && DeliveredFromItems(s)
  }
}

/** Work runs out, and until it has run out some step is possible. */
module RelayTermination {
  import opened Terms
  import opened Sequences
  import opened Instructions
  import opened FdcHandler
  import opened Relay
  import opened RelayInvariant

  // ---------- the measure ----------

  /** Attempts the queue may still make. */
  function Left(c: Config, it: Item): nat {
    var left := MaxAttempts(c, it.kind) - it.attempts;
    if left > 0 then left else 0
  }

  /** The steps an emission still costs: taking it, and one message per TEE. */
  function SendingCost(it: Item): nat {
    1 + |it.origin.tees|
  }

  function BaseCost(c: Config, it: Item): nat {
    10 * Left(c, it) + SendingCost(it)
  }

  function ItemOf(items: seq<Item>, id: nat): Item {
    if id < |items| then items[id] else Item(Plain, FromEvent(Event(0, 0, FDC2, Prove, [], 0, EMPTY, []), 0),
                                             FromEvent(Event(0, 0, FDC2, Prove, [], 0, EMPTY, []), 0), 0, 0, [])
  }

  function WaitingCosts(c: Config, items: seq<Item>, ids: seq<nat>): seq<nat> {
    seq(|ids|, i requires 0 <= i < |ids| => BaseCost(c, ItemOf(items, ids[i])) + 1)
  }

  function QueuedCosts(c: Config, items: seq<Item>, ids: seq<nat>): seq<nat> {
    seq(|ids|, i requires 0 <= i < |ids| => BaseCost(c, ItemOf(items, ids[i])))
  }

  function JobCosts(c: Config, items: seq<Item>, jobs: seq<Job>): seq<nat> {
    seq(|jobs|, i requires 0 <= i < |jobs| => BaseCost(c, ItemOf(items, jobs[i].id)) + 1 + StepsLeft(jobs[i].pc))
  }

  function OutCosts(items: seq<Item>, ids: seq<nat>): seq<nat> {
    seq(|ids|, i requires 0 <= i < |ids| => SendingCost(ItemOf(items, ids[i])))
  }

  /** Cancelling, and the exits of the sender and of each queue's worker. */
  function ExitsLeft(c: Config, s: State): nat {
    (if s.cancelled then 0 else 1) + (if s.senderGone then 0 else 1) + |c.fdc.queues.Keys - s.stopped|
  }

  /** An upper bound on the steps left without new instructions. */
  function Rank(c: Config, s: State): nat {
    Sum(QueuedCosts(c, s.items, s.queued)) + Sum(WaitingCosts(c, s.items, s.waiting)) +
    Sum(JobCosts(c, s.items, s.jobs)) + Sum(OutCosts(s.items, s.out)) + |s.sends| + ExitsLeft(c, s)
  }

  /** What an accepted event adds to the bound. */
  function AcceptCost(c: Config, l: Label): nat {
    match l
    case Accept(e, timestamp, stamp) =>
      (match KindOf(c, e)
       case None => 0
       case Some(kind) =>
         10 * (if MaxAttempts(c, kind) > 0 then MaxAttempts(c, kind) else 0) + |FromEvent(e, timestamp).tees| + 7)
    case _ => 0
  }

  // ---------- sums under the container operations ----------

  lemma CostsFrame(c: Config, s: State, items': seq<Item>)
    requires forall id | id in s.queued || id in s.waiting || id in s.out :: ItemOf(items', id) == ItemOf(s.items, id)
    ensures QueuedCosts(c, items', s.queued) == QueuedCosts(c, s.items, s.queued)
    ensures WaitingCosts(c, items', s.waiting) == WaitingCosts(c, s.items, s.waiting)
    ensures OutCosts(items', s.out) == OutCosts(s.items, s.out)
  {
  }

  lemma JobCostsFrame(c: Config, items: seq<Item>, items': seq<Item>, jobs: seq<Job>)
    requires forall k | 0 <= k < |jobs| :: ItemOf(items', jobs[k].id) == ItemOf(items, jobs[k].id)
    ensures JobCosts(c, items', jobs) == JobCosts(c, items, jobs)
  {
  }

  lemma SumOne(n: nat)
    ensures Sum([n]) == n
  {
  }

  lemma AppendQueued(c: Config, items: seq<Item>, ids: seq<nat>, id: nat)
    ensures Sum(QueuedCosts(c, items, ids + [id])) == Sum(QueuedCosts(c, items, ids)) + BaseCost(c, ItemOf(items, id))
  {
    assert QueuedCosts(c, items, ids + [id]) == QueuedCosts(c, items, ids) + [BaseCost(c, ItemOf(items, id))];
    SumAppend(QueuedCosts(c, items, ids), [BaseCost(c, ItemOf(items, id))]);
    SumOne(BaseCost(c, ItemOf(items, id)));
  }

  lemma RemoveQueued(c: Config, items: seq<Item>, ids: seq<nat>, k: nat)
    requires k < |ids|
    ensures Sum(QueuedCosts(c, items, ids)) ==
              Sum(QueuedCosts(c, items, RemoveAt(ids, k))) + BaseCost(c, ItemOf(items, ids[k]))
  {
    assert QueuedCosts(c, items, RemoveAt(ids, k)) == RemoveAt(QueuedCosts(c, items, ids), k);
    SumRemoveAt(QueuedCosts(c, items, ids), k);
  }

  lemma AppendWaiting(c: Config, items: seq<Item>, ids: seq<nat>, id: nat)
    ensures Sum(WaitingCosts(c, items, ids + [id])) ==
              Sum(WaitingCosts(c, items, ids)) + BaseCost(c, ItemOf(items, id)) + 1
  {
    assert WaitingCosts(c, items, ids + [id]) == WaitingCosts(c, items, ids) + [BaseCost(c, ItemOf(items, id)) + 1];
    SumAppend(WaitingCosts(c, items, ids), [BaseCost(c, ItemOf(items, id)) + 1]);
    SumOne(BaseCost(c, ItemOf(items, id)) + 1);
  }

  lemma RemoveWaiting(c: Config, items: seq<Item>, ids: seq<nat>, k: nat)
    requires k < |ids|
    ensures Sum(WaitingCosts(c, items, ids)) ==
              Sum(WaitingCosts(c, items, RemoveAt(ids, k))) + BaseCost(c, ItemOf(items, ids[k])) + 1
  {
    assert WaitingCosts(c, items, RemoveAt(ids, k)) == RemoveAt(WaitingCosts(c, items, ids), k);
    SumRemoveAt(WaitingCosts(c, items, ids), k);
  }

  lemma AppendJob(c: Config, items: seq<Item>, jobs: seq<Job>, j: Job)
    ensures Sum(JobCosts(c, items, jobs + [j])) ==
              Sum(JobCosts(c, items, jobs)) + BaseCost(c, ItemOf(items, j.id)) + 1 + StepsLeft(j.pc)
  {
    var cost := BaseCost(c, ItemOf(items, j.id)) + 1 + StepsLeft(j.pc);
    assert JobCosts(c, items, jobs + [j]) == JobCosts(c, items, jobs) + [cost];
    SumAppend(JobCosts(c, items, jobs), [cost]);
    SumOne(cost);
  }

  /** Job k ends: the others keep their cost whatever happens to its item. */
  lemma RemoveJob(c: Config, items: seq<Item>, items': seq<Item>, jobs: seq<Job>, k: nat)
    requires k < |jobs|
    requires forall i | 0 <= i < |jobs| && i != k :: ItemOf(items', jobs[i].id) == ItemOf(items, jobs[i].id)
    ensures Sum(JobCosts(c, items, jobs)) ==
              Sum(JobCosts(c, items', RemoveAt(jobs, k))) +
              BaseCost(c, ItemOf(items, jobs[k].id)) + 1 + StepsLeft(jobs[k].pc)
  {
    assert JobCosts(c, items', RemoveAt(jobs, k)) == RemoveAt(JobCosts(c, items, jobs), k);
    SumRemoveAt(JobCosts(c, items, jobs), k);
  }

  lemma ReplaceJob(c: Config, items: seq<Item>, items': seq<Item>, jobs: seq<Job>, k: nat, pc: Pc)
    requires k < |jobs|
    requires forall i | 0 <= i < |jobs| && i != k :: ItemOf(items', jobs[i].id) == ItemOf(items, jobs[i].id)
    requires BaseCost(c, ItemOf(items', jobs[k].id)) == BaseCost(c, ItemOf(items, jobs[k].id))
    ensures Sum(JobCosts(c, items', jobs[k := Job(jobs[k].id, pc)])) + StepsLeft(jobs[k].pc) ==
              Sum(JobCosts(c, items, jobs)) + StepsLeft(pc)
  {
    var cost := BaseCost(c, ItemOf(items, jobs[k].id)) + 1 + StepsLeft(pc);
    assert JobCosts(c, items', jobs[k := Job(jobs[k].id, pc)]) == JobCosts(c, items, jobs)[k := cost];
    SumUpdate(JobCosts(c, items, jobs), k, cost);
  }

  lemma AppendOut(items: seq<Item>, ids: seq<nat>, id: nat)
    ensures Sum(OutCosts(items, ids + [id])) == Sum(OutCosts(items, ids)) + SendingCost(ItemOf(items, id))
  {
    assert OutCosts(items, ids + [id]) == OutCosts(items, ids) + [SendingCost(ItemOf(items, id))];
    SumAppend(OutCosts(items, ids), [SendingCost(ItemOf(items, id))]);
    SumOne(SendingCost(ItemOf(items, id)));
  }

  // ---------- every step but Accept decreases the measure ----------

  /** The state with job k gone and its item rewritten. */
  function Freed(s: State, k: nat, it: Item): State
    requires k < |s.jobs| && s.jobs[k].id < |s.items|
  {
    s.(items := s.items[s.jobs[k].id := it], jobs := RemoveAt(s.jobs, k))
  }

  /** The rewritten item costs what it cost before. */
  predicate SameCost(s: State, k: nat, it: Item)
    requires k < |s.jobs| && s.jobs[k].id < |s.items|
  {
    var was := s.items[s.jobs[k].id];
    it.kind == was.kind && it.attempts == was.attempts && it.origin == was.origin
  }

  lemma RankFreed(c: Config, s: State, k: nat, it: Item)
    requires Conserved(s) && k < |s.jobs| && s.jobs[k].id < |s.items| && SameCost(s, k, it)
    ensures Rank(c, Freed(s, k, it)) + BaseCost(c, it) + 1 + StepsLeft(s.jobs[k].pc) == Rank(c, s)
  {
    HeldAlone(s, k);
    var items' := s.items[s.jobs[k].id := it];
    CostsFrame(c, s, items');
    RemoveJob(c, s.items, items', s.jobs, k);
  }

  lemma RankReplaced(c: Config, s: State, k: nat, it: Item, pc: Pc)
    requires Conserved(s) && k < |s.jobs| && s.jobs[k].id < |s.items| && SameCost(s, k, it)
    requires StepsLeft(pc) < StepsLeft(s.jobs[k].pc)
    ensures Rank(c, s.(items := s.items[s.jobs[k].id := it], jobs := s.jobs[k := Job(s.jobs[k].id, pc)])) < Rank(c, s)
  {
    HeldAlone(s, k);
    var items' := s.items[s.jobs[k].id := it];
    CostsFrame(c, s, items');
    ReplaceJob(c, s.items, items', s.jobs, k, pc);
  }

  lemma RankEmitted(c: Config, s: State, k: nat, it: Item)
    requires Conserved(s) && k < |s.jobs| && s.jobs[k].id < |s.items| && SameCost(s, k, it)
    ensures Rank(c, Freed(s, k, it).(out := s.out + [s.jobs[k].id])) < Rank(c, s)
  {
    RankFreed(c, s, k, it);
    AppendOut(Freed(s, k, it).items, s.out, s.jobs[k].id);
  }

  lemma RankToRetry(c: Config, s: State, k: nat, it: Item)
    requires Conserved(s) && k < |s.jobs| && s.jobs[k].id < |s.items| && SameCost(s, k, it)
    ensures Rank(c, Freed(s, k, it).(waiting := s.waiting + [s.jobs[k].id])) < Rank(c, s)
  {
    RankFreed(c, s, k, it);
    AppendWaiting(c, Freed(s, k, it).items, s.waiting, s.jobs[k].id);
  }

  lemma RankSettled(c: Config, s: State, k: nat, it: Item, p: Progress)
    requires Conserved(s) && k < |s.jobs| && s.jobs[k].id < |s.items| && SameCost(s, k, it)
    requires Settled(c, s, k, it, p).Some?
    requires p.Next? ==> StepsLeft(p.pc) < StepsLeft(s.jobs[k].pc)
    ensures Rank(c, Settled(c, s, k, it, p).value) < Rank(c, s)
  {
    match p
    case Next(_, pc) => RankReplaced(c, s, k, it, pc);
    case Emitted(_) => RankEmitted(c, s, k, it);
    case _ =>
      RankFreed(c, s, k, it);
      RankToRetry(c, s, k, it);
  }

  lemma RankDispatched(c: Config, s: State, k: nat)
    requires Conserved(s) && AllIdle(c, s.items, s.queued) && Dispatched(s, k).Some?
    ensures Rank(c, Dispatched(s, k).value) < Rank(c, s)
  {
    QueuedAlone(s, k);
    var s', id := Dispatched(s, k).value, s.queued[k];
    RemoveQueued(c, s.items, s.queued, k);
    CostsFrame(c, s.(queued := RemoveAt(s.queued, k)), s'.items);
    JobCostsFrame(c, s.items, s'.items, s.jobs);
    AppendJob(c, s'.items, s.jobs, Job(id, Decode));
    assert id in s.queued;
  }

  lemma HeadOut(items: seq<Item>, ids: seq<nat>)
    requires ids != []
    ensures Sum(OutCosts(items, ids)) == SendingCost(ItemOf(items, ids[0])) + Sum(OutCosts(items, ids[1..]))
  {
    assert OutCosts(items, ids)[1..] == OutCosts(items, ids[1..]);
  }

  lemma RankTaken(c: Config, s: State)
    requires AllItemsOk(c, s.items) && Taken(s).Some?
    ensures Rank(c, Taken(s).value) < Rank(c, s)
  {
    HeadOut(s.items, s.out);
    assert ItemOk(c, s.items[s.out[0]]);
  }

  lemma WorkerExitCounts(c: Config, s: State, q: string)
    requires q in c.fdc.queues && q !in s.stopped
    ensures ExitsLeft(c, s.(stopped := s.stopped + {q})) < ExitsLeft(c, s)
  {
    assert c.fdc.queues.Keys - (s.stopped + {q}) == (c.fdc.queues.Keys - s.stopped) - {q};
  }

  lemma RankOther(c: Config, s: State, l: Label)
    requires AllItemsOk(c, s.items) && Transition(c, s, l).Some? && !l.Accept? && !l.Step? && !l.Dispatch?
    ensures Rank(c, Transition(c, s, l).value) < Rank(c, s)
  {
    match l
    case Requeue(k) =>
      RemoveWaiting(c, s.items, s.waiting, k);
      AppendQueued(c, s.items, s.queued, s.waiting[k]);
    case Take => RankTaken(c, s);
    case Deliver(k) =>
    case Cancel =>
    case SenderExit =>
    case WorkerExit(q) => WorkerExitCounts(c, s, q);
    case AbandonQueued(k) => RemoveQueued(c, s.items, s.queued, k);
    case AbandonWaiting(k) => RemoveWaiting(c, s.items, s.waiting, k);
  }

  lemma RankEnqueued(c: Config, s: State, it: Item)
    requires ItemsOk(c, s)
    ensures Rank(c, s.(items := s.items + [it], queued := s.queued + [|s.items|])) == Rank(c, s) + BaseCost(c, it)
  {
    AppendFrame(c, s, it);
    AppendQueued(c, s.items + [it], s.queued, |s.items|);
  }

  lemma RankStarted(c: Config, s: State, it: Item, pc: Pc)
    requires ItemsOk(c, s)
    ensures Rank(c, s.(items := s.items + [it], jobs := s.jobs + [Job(|s.items|, pc)])) ==
              Rank(c, s) + BaseCost(c, it) + 1 + StepsLeft(pc)
  {
    AppendFrame(c, s, it);
    AppendJob(c, s.items + [it], s.jobs, Job(|s.items|, pc));
  }

  lemma AcceptCostCovers(c: Config, e: Event, timestamp: nat, stamp: int)
    requires KindOf(c, e).Some?
    ensures var v := FromEvent(e, timestamp);
            BaseCost(c, Item(KindOf(c, e).value, v, v, stamp, 0, [])) + 6 <= AcceptCost(c, Accept(e, timestamp, stamp))
  {
  }

  lemma RankAcceptedQueued(c: Config, s: State, e: Event, timestamp: nat, stamp: int)
    requires ItemsOk(c, s) && KindOf(c, e).Some? && KindOf(c, e).value.Attested?
    ensures Rank(c, Accepted(c, s, e, timestamp, stamp).value) <=
              Rank(c, s) + AcceptCost(c, Accept(e, timestamp, stamp))
  {
    var v := FromEvent(e, timestamp);
    AcceptCostCovers(c, e, timestamp, stamp);
    RankEnqueued(c, s, Item(KindOf(c, e).value, v, v, stamp, 0, []));
  }

  function FirstPc(kind: Kind): (pc: Pc)
    requires !kind.Attested?
    ensures StepsLeft(pc) <= 4
  {
    if kind.Plain? then HashTees else Fetch
  }

  lemma StartedDirectly(c: Config, s: State, e: Event, timestamp: nat, stamp: int)
    requires KindOf(c, e).Some? && !KindOf(c, e).value.Attested?
    ensures var kind, v := KindOf(c, e).value, FromEvent(e, timestamp);
            Accepted(c, s, e, timestamp, stamp) ==
              Some(s.(items := s.items + [Item(kind, v, v, stamp, 0, [])],
                      jobs := s.jobs + [Job(|s.items|, FirstPc(kind))]))
  {
  }

  lemma RankAcceptedStarted(c: Config, s: State, e: Event, timestamp: nat, stamp: int)
    requires ItemsOk(c, s) && KindOf(c, e).Some? && !KindOf(c, e).value.Attested?
    ensures Rank(c, Accepted(c, s, e, timestamp, stamp).value) <=
              Rank(c, s) + AcceptCost(c, Accept(e, timestamp, stamp))
  {
    var kind, v := KindOf(c, e).value, FromEvent(e, timestamp);
    StartedDirectly(c, s, e, timestamp, stamp);
    AcceptCostCovers(c, e, timestamp, stamp);
    RankStarted(c, s, Item(kind, v, v, stamp, 0, []), FirstPc(kind));
  }

  lemma AppendFrame(c: Config, s: State, it: Item)
    requires ItemsOk(c, s)
    ensures var items' := s.items + [it];
            && QueuedCosts(c, items', s.queued) == QueuedCosts(c, s.items, s.queued)
            && WaitingCosts(c, items', s.waiting) == WaitingCosts(c, s.items, s.waiting)
            && OutCosts(items', s.out) == OutCosts(s.items, s.out)
            && JobCosts(c, items', s.jobs) == JobCosts(c, s.items, s.jobs)
  {
    assert forall i: nat | i < |s.items| :: (s.items + [it])[i] == s.items[i];
    CostsFrame(c, s, s.items + [it]);
    JobCostsFrame(c, s.items, s.items + [it], s.jobs);
  }

  lemma RankAccepted(c: Config, s: State, e: Event, timestamp: nat, stamp: int)
    requires ItemsOk(c, s) && Accepted(c, s, e, timestamp, stamp).Some?
    ensures Rank(c, Accepted(c, s, e, timestamp, stamp).value) <=
              Rank(c, s) + AcceptCost(c, Accept(e, timestamp, stamp))
  {
    if KindOf(c, e).value.Attested? {
      RankAcceptedQueued(c, s, e, timestamp, stamp);
    } else {
      RankAcceptedStarted(c, s, e, timestamp, stamp);
    }
  }

  lemma RankStepped(c: Config, s: State, k: nat, a: Answer)
    requires Conserved(s) && Stepped(c, s, k, a).Some?
    ensures Rank(c, Stepped(c, s, k, a).value) < Rank(c, s)
  {
    var it, pc := s.items[s.jobs[k].id], s.jobs[k].pc;
    var p := Advance(c.handler, it.value, pc, a);
    RankSettled(c, s, k, Moved(it, pc, a, p.value), p);
  }

  lemma RankStep(c: Config, s: State, l: Label)
    requires ValidConfig(c) && Inv(c, s) && Transition(c, s, l).Some?
    ensures !l.Accept? ==> Rank(c, Transition(c, s, l).value) < Rank(c, s)
    ensures Rank(c, Transition(c, s, l).value) <= Rank(c, s) + AcceptCost(c, l)
  {
    match l
    case Accept(e, timestamp, stamp) => RankAccepted(c, s, e, timestamp, stamp);
    case Step(k, a) => RankStepped(c, s, k, a);
    case Dispatch(k) => RankDispatched(c, s, k);
    case _ => RankOther(c, s, l);
  }

  /** The steps of a run other than Accept. */
  function Moves(run: seq<Label>): nat {
    if run == [] then 0 else (if run[0].Accept? then 0 else 1) + Moves(run[1..])
  }

  function Supply(c: Config, run: seq<Label>): nat {
    if run == [] then 0 else AcceptCost(c, run[0]) + Supply(c, run[1..])
  }

  /** Termination: however steps interleave and whatever fails, a run makes at most as many steps as its
      accepted instructions pay for: ten per allowed attempt, one per TEE, and seven. */
  lemma {:induction false} WorkIsBounded(c: Config, s: State, run: seq<Label>)
    requires ValidConfig(c) && Inv(c, s) && After(c, s, run).Some?
    ensures Moves(run) + Rank(c, After(c, s, run).value) <= Rank(c, s) + Supply(c, run)
    decreases run
  {
    if run != [] {
      RankStep(c, s, run[0]);
      InvStep(c, s, run[0]);
      WorkIsBounded(c, Transition(c, s, run[0]).value, run[1..]);
    }
  }

  lemma RunsTerminate(c: Config, run: seq<Label>)
    requires ValidConfig(c) && After(c, INIT, run).Some?
    ensures Moves(run) <= Supply(c, run) + 2 + |c.fdc.queues.Keys|
  {
    InvInit(c);
    WorkIsBounded(c, INIT, run);
  }
}

/** Every step of the pipeline keeps the invariant. */
module RelayInvariant {
  import opened Terms
  import opened Sequences
  import opened Instructions
  import opened FdcHandler
  import opened Relay
  import FdcTables

  // ---------- places ----------

  lemma IdsRemove(jobs: seq<Job>, k: nat)
    requires k < |jobs|
    ensures multiset(Ids(jobs)) == multiset(Ids(RemoveAt(jobs, k))) + multiset{jobs[k].id}
  {
    assert Ids(RemoveAt(jobs, k)) == RemoveAt(Ids(jobs), k);
    RemoveAtMultiset(Ids(jobs), k);
  }

  lemma IdsReplace(jobs: seq<Job>, k: nat, pc: Pc)
    requires k < |jobs|
    ensures Ids(jobs[k := Job(jobs[k].id, pc)]) == Ids(jobs)
  {
  }

  lemma IdsAppend(jobs: seq<Job>, job: Job)
    ensures Ids(jobs + [job]) == Ids(jobs) + [job.id]
  {
  }

  lemma PlacesSettled(c: Config, s: State, k: nat, it: Item, p: Progress, id: nat)
    requires k < |s.jobs| && s.jobs[k].id < |s.items| && Settled(c, s, k, it, p).Some?
    ensures Places(Settled(c, s, k, it, p).value, id) == Places(s, id)
  {
    var s' := Settled(c, s, k, it, p).value;
    var held := s.jobs[k].id;
    IdsRemove(s.jobs, k);
    match p
    case Next(_, pc) =>
      IdsReplace(s.jobs, k, pc);
      assert s' == s.(items := s'.items, jobs := s'.jobs);
    case Closed(_) => assert s' == s.(items := s'.items, jobs := RemoveAt(s.jobs, k), closed := s.closed + [held]);
    case Emitted(_) => assert s' == s.(items := s'.items, jobs := RemoveAt(s.jobs, k), out := s.out + [held]);
    case Failed(_) => PlacesAfterFailure(c, s, k, it, p, id);
    case Panicked(_) => PlacesAfterFailure(c, s, k, it, p, id);
  }

  lemma PlacesAfterFailure(c: Config, s: State, k: nat, it: Item, p: Progress, id: nat)
    requires k < |s.jobs| && s.jobs[k].id < |s.items| && (p.Failed? || p.Panicked?)
    ensures Places(Settled(c, s, k, it, p).value, id) == Places(s, id)
  {
    var s', held := Settled(c, s, k, it, p).value, s.jobs[k].id;
    IdsRemove(s.jobs, k);
    assert s' == s.(items := s'.items, jobs := RemoveAt(s.jobs, k), waiting := s.waiting + [held]) ||
           s' == s.(items := s'.items, jobs := RemoveAt(s.jobs, k), dropped := s.dropped + [held]);
  }

  lemma PlacesStepped(c: Config, s: State, k: nat, a: Answer, id: nat)
    requires Stepped(c, s, k, a).Some?
    ensures Places(Stepped(c, s, k, a).value, id) == Places(s, id)
  {
    var it, pc := s.items[s.jobs[k].id], s.jobs[k].pc;
    var p := Advance(c.handler, it.value, pc, a);
    PlacesSettled(c, s, k, Moved(it, pc, a, p.value), p, id);
  }

  lemma PlacesEnqueued(s: State, it: Item, id: nat)
    ensures Places(s.(items := s.items + [it], queued := s.queued + [|s.items|]), id) ==
              Places(s, id) + if id == |s.items| then 1 else 0
  {
  }

  lemma PlacesStarted(s: State, it: Item, pc: Pc, id: nat)
    ensures Places(s.(items := s.items + [it], jobs := s.jobs + [Job(|s.items|, pc)]), id) ==
              Places(s, id) + if id == |s.items| then 1 else 0
  {
    IdsAppend(s.jobs, Job(|s.items|, pc));
  }

  lemma PlacesAccepted(c: Config, s: State, e: Event, timestamp: nat, stamp: int, id: nat)
    requires Accepted(c, s, e, timestamp, stamp).Some?
    ensures Places(Accepted(c, s, e, timestamp, stamp).value, id) == Places(s, id) + if id == |s.items| then 1 else 0
  {
    var kind, v := KindOf(c, e).value, FromEvent(e, timestamp);
    var it := Item(kind, v, v, stamp, 0, []);
    if kind.Attested? {
      PlacesEnqueued(s, it, id);
    } else {
      PlacesStarted(s, it, if kind.Plain? then HashTees else Fetch, id);
    }
  }

  lemma PlacesDispatched(s: State, k: nat, id: nat)
    requires Dispatched(s, k).Some?
    ensures Places(Dispatched(s, k).value, id) == Places(s, id)
  {
    RemoveAtMultiset(s.queued, k);
    IdsAppend(s.jobs, Job(s.queued[k], Decode));
  }

  lemma PlacesRequeued(s: State, k: nat, id: nat)
    requires Requeued(s, k).Some?
    ensures Places(Requeued(s, k).value, id) == Places(s, id)
  {
    RemoveAtMultiset(s.waiting, k);
  }

  lemma PlacesTaken(s: State, id: nat)
    requires Taken(s).Some?
    ensures Places(Taken(s).value, id) == Places(s, id)
  {
    assert s.out == [s.out[0]] + s.out[1..];
  }

  lemma PlacesAbandoned(s: State, l: Label, id: nat)
    ensures l.AbandonQueued? && QueuedAbandoned(s, l.k).Some? ==>
              Places(QueuedAbandoned(s, l.k).value, id) == Places(s, id)
    ensures l.AbandonWaiting? && WaitingAbandoned(s, l.k).Some? ==>
              Places(WaitingAbandoned(s, l.k).value, id) == Places(s, id)
  {
    if l.AbandonQueued? && l.k < |s.queued| {
      RemoveAtMultiset(s.queued, l.k);
    }
    if l.AbandonWaiting? && l.k < |s.waiting| {
      RemoveAtMultiset(s.waiting, l.k);
    }
  }

  lemma PlacesOther(c: Config, s: State, l: Label, id: nat)
    requires !l.Accept? && !l.Dispatch? && !l.Step? && Transition(c, s, l).Some?
    ensures Places(Transition(c, s, l).value, id) == Places(s, id)
  {
    match l
    case Requeue(k) => PlacesRequeued(s, k, id);
    case Take => PlacesTaken(s, id);
    case AbandonQueued(k) => PlacesAbandoned(s, l, id);
    case AbandonWaiting(k) => PlacesAbandoned(s, l, id);
    case _ =>
  }

  /** A step moves instructions between places, and only Accept adds one. */
  lemma PlacesStep(c: Config, s: State, l: Label, id: nat)
    requires Transition(c, s, l).Some?
    ensures Places(Transition(c, s, l).value, id) == Places(s, id) + if l.Accept? && id == |s.items| then 1 else 0
  {
    match l
    case Accept(e, timestamp, stamp) => PlacesAccepted(c, s, e, timestamp, stamp, id);
    case Dispatch(k) => PlacesDispatched(s, k, id);
    case Step(k, a) => PlacesStepped(c, s, k, a, id);
    case _ => PlacesOther(c, s, l, id);
  }

  lemma StepCount(c: Config, s: State, k: nat, a: Answer)
    requires Stepped(c, s, k, a).Some?
    ensures |Stepped(c, s, k, a).value.items| == |s.items|
    ensures |s.out| <= CAPACITY ==> |Stepped(c, s, k, a).value.out| <= CAPACITY
  {
  }

  lemma ItemCount(c: Config, s: State, l: Label)
    requires Transition(c, s, l).Some?
    ensures |Transition(c, s, l).value.items| == |s.items| + if l.Accept? then 1 else 0
    ensures |s.out| <= CAPACITY ==> |Transition(c, s, l).value.out| <= CAPACITY
  {
    if l.Step? {
      StepCount(c, s, l.k, l.answer);
    }
  }

  lemma ConservedStep(c: Config, s: State, l: Label)
    requires Conserved(s) && Transition(c, s, l).Some?
    ensures Conserved(Transition(c, s, l).value)
  {
    var s' := Transition(c, s, l).value;
    ItemCount(c, s, l);
    forall id: nat ensures Places(s', id) == if id < |s'.items| then 1 else 0 {
      PlacesStep(c, s, l, id);
    }
  }

  /** The instruction a processor holds is nowhere else. */
  lemma HeldAlone(s: State, k: nat)
    requires Conserved(s) && k < |s.jobs|
    ensures var id := s.jobs[k].id;
            && id !in s.queued && id !in s.waiting && id !in s.out && id !in s.taken
            && forall i | 0 <= i < |s.jobs| && i != k :: s.jobs[i].id != id
  {
    var id := s.jobs[k].id;
    IdsRemove(s.jobs, k);
    assert Places(s, id) <= 1;
    forall i | 0 <= i < |s.jobs| && i != k ensures s.jobs[i].id != id {
      var rest := RemoveAt(s.jobs, k);
      var at := if i < k then i else i - 1;
      assert Ids(rest)[at] == s.jobs[i].id;
      assert s.jobs[i].id in multiset(Ids(rest));
    }
  }

  lemma QueuedAlone(s: State, k: nat)
    requires Conserved(s) && k < |s.queued|
    ensures var id := s.queued[k];
            && id !in RemoveAt(s.queued, k) && id !in s.waiting && id !in s.out && id !in s.taken
            && forall i | 0 <= i < |s.jobs| :: s.jobs[i].id != id
  {
    var id := s.queued[k];
    RemoveAtMultiset(s.queued, k);
    assert Places(s, id) <= 1;
    forall i | 0 <= i < |s.jobs| ensures s.jobs[i].id != id {
      assert Ids(s.jobs)[i] == s.jobs[i].id;
      assert s.jobs[i].id in multiset(Ids(s.jobs));
    }
  }

  lemma TakenOnce(s: State)
    requires Conserved(s) && s.out != []
    ensures s.out[0] !in s.taken && s.out[0] !in s.out[1..]
  {
    assert s.out == [s.out[0]] + s.out[1..];
    assert Places(s, s.out[0]) <= 1;
  }

  // ---------- one processor step ----------

  /** What Accept's routing promises of an attested instruction. */
  lemma AttestedIsServed(c: Config, e: Event)
    requires ValidConfig(c) && KindOf(c, e).Some? && KindOf(c, e).value.Attested?
    ensures e.message.RequestDoc? && FdcTables.AttTypeAndSourceID(e.message.request) in c.handler.servers
    ensures KindOf(c, e).value.queue in c.fdc.queues && MaxAttempts(c, KindOf(c, e).value) >= 1
  {
    FdcTables.AcceptedFindsVerifier(c.fdc, c.source, e.message);
  }

  predicate StepOk(c: Config, it: Item, pc: Pc, a: Answer) {
    var p := Advance(c.handler, it.value, pc, a);
    var it' := Moved(it, pc, a, p.value);
    && ItemOk(c, it')
    && (p.Next? ==> JobOk(c, it', p.pc))
    && (p.Emitted? ==> Verified(it'))
  }

  lemma AskedOk(asked: seq<Answer>, a: Answer)
    requires NoQueryAfterVerified(asked) && Memory(asked) == EMPTY
    ensures NoQueryAfterVerified(asked + [a])
    ensures Memory(asked + [a]) == if Consumed(a) then Raw(Verifier.VerifiedBody(a.exchange).value) else EMPTY
  {
    forall i | 0 <= i < |asked| ensures !Consumed((asked + [a])[i]) {
      assert (asked + [a])[i] == asked[i];
      assert i == |asked| - 1 ==> Memory(asked) == EMPTY;
    }
  }

  lemma QueryOk(c: Config, it: Item, pc: Pc, a: Answer)
    requires pc.Query? && ItemOk(c, it) && JobOk(c, it, pc)
    ensures StepOk(c, it, pc, a)
  {
    AskedOk(it.asked, a);
  }

  lemma DecodeOk(c: Config, it: Item, a: Answer)
    requires ValidConfig(c) && ItemOk(c, it) && JobOk(c, it, Decode)
    ensures StepOk(c, it, Decode, a)
    ensures !a.Panics? ==> Advance(c.handler, it.value, Decode, a).Next?
  {
    AttestedIsServed(c, it.origin.event);
  }

  lemma EndorsingOk(c: Config, it: Item, pc: Pc, a: Answer)
    requires pc.HashResponse? || pc.SignResponse?
    requires ItemOk(c, it) && JobOk(c, it, pc)
    ensures StepOk(c, it, pc, a)
  {
  }

  lemma FetchOk(c: Config, it: Item, a: Answer)
    requires ItemOk(c, it) && JobOk(c, it, Fetch)
    ensures StepOk(c, it, Fetch, a)
  {
  }

  lemma SigningOk(c: Config, it: Item, pc: Pc, a: Answer)
    requires pc.HashTees? || pc.SignTees? || pc.Send?
    requires ItemOk(c, it) && JobOk(c, it, pc)
    ensures StepOk(c, it, pc, a)
  {
  }

  /** A step of a processor keeps its item's history and message consistent, and a decoding step never fails. */
  lemma AdvanceOk(c: Config, it: Item, pc: Pc, a: Answer)
    requires ValidConfig(c) && ItemOk(c, it) && JobOk(c, it, pc)
    ensures StepOk(c, it, pc, a)
    ensures pc.Decode? && !a.Panics? ==> Advance(c.handler, it.value, pc, a).Next?
  {
    match pc
    case Decode => DecodeOk(c, it, a);
    case Query(_) => QueryOk(c, it, pc, a);
    case HashResponse(_) => EndorsingOk(c, it, pc, a);
    case SignResponse(_) => EndorsingOk(c, it, pc, a);
    case Fetch => FetchOk(c, it, a);
    case _ => SigningOk(c, it, pc, a);
  }

  // ---------- frames ----------

  lemma JobsFrame(c: Config, items: seq<Item>, items': seq<Item>, jobs: seq<Job>)
    requires AllJobsOk(c, items, jobs) && |items| <= |items'|
    requires forall k | 0 <= k < |jobs| :: jobs[k].id < |items| && items'[jobs[k].id] == items[jobs[k].id]
    ensures AllJobsOk(c, items', jobs)
  {
  }

  lemma IdleFrame(c: Config, items: seq<Item>, items': seq<Item>, ids: seq<nat>)
    requires AllIdle(c, items, ids) && |items| <= |items'|
    requires forall id | id in ids :: id < |items| && items'[id] == items[id]
    ensures AllIdle(c, items', ids)
  {
  }

  lemma VerifiedFrame(items: seq<Item>, items': seq<Item>, ids: seq<nat>)
    requires AllVerified(items, ids) && |items| <= |items'|
    requires forall id | id in ids :: id < |items| && items'[id] == items[id]
    ensures AllVerified(items', ids)
  {
  }

  /** Items nobody in `s` but its job k refers to may change without effect on the rest. */
  lemma OthersFrame(c: Config, s: State, items': seq<Item>, touched: nat)
    requires ItemsOk(c, s) && |s.items| <= |items'|
    requires forall id | 0 <= id < |s.items| && id != touched :: items'[id] == s.items[id]
    ensures touched !in s.queued ==> AllIdle(c, items', s.queued)
    ensures touched !in s.waiting ==> AllIdle(c, items', s.waiting)
    ensures touched !in s.out ==> AllVerified(items', s.out)
    ensures touched !in s.taken ==> AllVerified(items', s.taken)
    ensures (forall k | 0 <= k < |s.jobs| :: s.jobs[k].id != touched) ==> AllJobsOk(c, items', s.jobs)
  {
  }

  // ---------- preservation, label by label ----------

  lemma NewItemOk(c: Config, e: Event, timestamp: nat, stamp: int)
    requires ValidConfig(c) && KindOf(c, e).Some?
    ensures var v := FromEvent(e, timestamp);
            var it := Item(KindOf(c, e).value, v, v, stamp, 0, []);
            ItemOk(c, it) && Idle(c, it) == KindOf(c, e).value.Attested?
  {
    if KindOf(c, e).value.Attested? {
      AttestedIsServed(c, e);
    }
  }

  lemma OldFrame(c: Config, s: State, it: Item)
    requires ItemsOk(c, s) && ItemOk(c, it)
    ensures ItemsOk(c, s.(items := s.items + [it]))
  {
    var items' := s.items + [it];
    JobsFrame(c, s.items, items', s.jobs);
    IdleFrame(c, s.items, items', s.queued);
    IdleFrame(c, s.items, items', s.waiting);
    VerifiedFrame(s.items, items', s.out);
    VerifiedFrame(s.items, items', s.taken);
  }

  lemma KeepEnqueued(c: Config, s: State, it: Item)
    requires ItemsOk(c, s) && ItemOk(c, it) && Idle(c, it)
    ensures ItemsOk(c, s.(items := s.items + [it], queued := s.queued + [|s.items|]))
  {
    OldFrame(c, s, it);
  }

  lemma KeepStarted(c: Config, s: State, it: Item, pc: Pc)
    requires ItemsOk(c, s) && ItemOk(c, it) && JobOk(c, it, pc)
    ensures ItemsOk(c, s.(items := s.items + [it], jobs := s.jobs + [Job(|s.items|, pc)]))
  {
    OldFrame(c, s, it);
  }

  lemma KeepAccepted(c: Config, s: State, e: Event, timestamp: nat, stamp: int)
    requires ValidConfig(c) && ItemsOk(c, s) && Accepted(c, s, e, timestamp, stamp).Some?
    ensures ItemsOk(c, Accepted(c, s, e, timestamp, stamp).value)
  {
    var kind, v := KindOf(c, e).value, FromEvent(e, timestamp);
    var it := Item(kind, v, v, stamp, 0, []);
    NewItemOk(c, e, timestamp, stamp);
    if kind.Attested? {
      KeepEnqueued(c, s, it);
    } else {
      KeepStarted(c, s, it, if kind.Plain? then HashTees else Fetch);
    }
  }

  lemma KeepDispatched(c: Config, s: State, k: nat)
    requires Conserved(s) && ItemsOk(c, s) && Dispatched(s, k).Some?
    ensures ItemsOk(c, Dispatched(s, k).value)
  {
    QueuedAlone(s, k);
    var s' := Dispatched(s, k).value;
    OthersFrame(c, s.(queued := RemoveAt(s.queued, k)), s'.items, s.queued[k]);
  }

  lemma OthersUntouched(c: Config, s: State, k: nat, it: Item)
    requires Conserved(s) && ItemsOk(c, s) && k < |s.jobs| && s.jobs[k].id < |s.items| && ItemOk(c, it)
    ensures ItemsOk(c, s.(items := s.items[s.jobs[k].id := it], jobs := RemoveAt(s.jobs, k)))
  {
    HeldAlone(s, k);
    var id, rest := s.jobs[k].id, RemoveAt(s.jobs, k);
    forall i | 0 <= i < |rest|
      ensures rest[i].id != id && rest[i].id < |s.items| && JobOk(c, s.items[rest[i].id], rest[i].pc)
    {
      assert rest[i] == s.jobs[if i < k then i else i + 1];
    }
    OthersFrame(c, s.(jobs := rest), s.items[id := it], id);
  }

  lemma KeepSettled(c: Config, s: State, k: nat, it: Item, p: Progress)
    requires Conserved(s) && ItemsOk(c, s)
    requires k < |s.jobs| && s.jobs[k].id < |s.items| && Settled(c, s, k, it, p).Some?
    requires ItemOk(c, it) && (p.Next? ==> JobOk(c, it, p.pc)) && (p.Emitted? ==> Verified(it))
    requires it.attempts < MaxAttempts(c, it.kind) ==> it.kind.Attested?
    ensures ItemsOk(c, Settled(c, s, k, it, p).value)
  {
    OthersUntouched(c, s, k, it);
    if p.Next? {
      HeldAlone(s, k);
      KeepReplaced(c, s, k, it, p.pc);
    }
  }

  lemma KeepReplaced(c: Config, s: State, k: nat, it: Item, pc: Pc)
    requires ItemsOk(c, s) && k < |s.jobs| && s.jobs[k].id < |s.items|
    requires forall i | 0 <= i < |s.jobs| && i != k :: s.jobs[i].id != s.jobs[k].id
    requires JobOk(c, it, pc)
    ensures AllJobsOk(c, s.items[s.jobs[k].id := it], s.jobs[k := Job(s.jobs[k].id, pc)])
  {
  }

  lemma KeepStepped(c: Config, s: State, k: nat, a: Answer)
    requires ValidConfig(c) && Conserved(s) && ItemsOk(c, s) && Stepped(c, s, k, a).Some?
    ensures ItemsOk(c, Stepped(c, s, k, a).value)
  {
    var it, pc := s.items[s.jobs[k].id], s.jobs[k].pc;
    AdvanceOk(c, it, pc, a);
    var p := Advance(c.handler, it.value, pc, a);
    KeepSettled(c, s, k, Moved(it, pc, a, p.value), p);
  }

  lemma KeepRequeued(c: Config, s: State, k: nat)
    requires ItemsOk(c, s) && Requeued(s, k).Some?
    ensures ItemsOk(c, Requeued(s, k).value)
  {
    var queued := s.queued + [s.waiting[k]];
    assert s.waiting[k] in s.waiting;
    assert forall id | id in queued :: id in s.queued || id in s.waiting;
  }

  lemma KeepTaken(c: Config, s: State)
    requires ItemsOk(c, s) && Taken(s).Some?
    ensures ItemsOk(c, Taken(s).value)
  {
    var taken := s.taken + [s.out[0]];
    assert s.out[0] in s.out && forall id | id in s.out[1..] :: id in s.out;
    assert forall id | id in taken :: id in s.taken || id in s.out;
  }

  lemma KeepOther(c: Config, s: State, l: Label)
    requires ItemsOk(c, s) && !l.Accept? && !l.Dispatch? && !l.Step? && Transition(c, s, l).Some?
    ensures ItemsOk(c, Transition(c, s, l).value)
  {
    match l
    case Requeue(k) => KeepRequeued(c, s, k);
    case Take => KeepTaken(c, s);
    case AbandonQueued(k) => assert forall id | id in RemoveAt(s.queued, k) :: id in s.queued;
    case AbandonWaiting(k) => assert forall id | id in RemoveAt(s.waiting, k) :: id in s.waiting;
    case _ =>
  }

  // ---------- the sender's books ----------

  lemma LedgerFrame(s: State, s': State)
    requires Ledger(s) && DeliveredFromItems(s)
    requires s'.sends == s.sends && s'.delivered == s.delivered && s'.taken == s.taken
    requires |s.items| <= |s'.items|
    requires forall id | id in s.taken :: id < |s.items| && s'.items[id].value == s.items[id].value
    ensures Ledger(s') && DeliveredFromItems(s')
  {
  }

  lemma TicketCount(id: nat, n: nat, t: Ticket)
    ensures multiset(Tickets(id, n))[t] == if t.id == id && t.tee < n then 1 else 0
  {
  }

  lemma BooksTaken(c: Config, s: State)
    requires Conserved(s) && Ledger(s) && DeliveredFromItems(s) && Taken(s).Some?
    ensures Ledger(Taken(s).value) && DeliveredFromItems(Taken(s).value)
  {
    TakenOnce(s);
    var s' := Taken(s).value;
    var id := s.out[0];
    var n := |s.items[id].value.tees|;
    forall t: Ticket ensures multiset(s'.sends)[t] == multiset(s.sends)[t] + if t.id == id && t.tee < n then 1 else 0 {
      TicketCount(id, n, t);
    }
    forall x | x in s'.taken ensures x in s.taken || x == id {
    }
  }

  lemma LedgerDelivered(s: State, k: nat)
    requires Ledger(s) && Delivered(s, k).Some?
    ensures Ledger(Delivered(s, k).value)
  {
    var s' := Delivered(s, k).value;
    RemoveAtMultiset(s.sends, k);
    assert Keys(s'.delivered) == Keys(s.delivered) + [s.sends[k]];
  }

  lemma BooksDelivered(s: State, k: nat)
    requires Ledger(s) && DeliveredFromItems(s) && Delivered(s, k).Some?
    ensures Ledger(Delivered(s, k).value) && DeliveredFromItems(Delivered(s, k).value)
  {
    LedgerDelivered(s, k);
    assert multiset(s.sends)[s.sends[k]] > 0;
  }

  lemma BooksSettled(c: Config, s: State, k: nat, it: Item, p: Progress)
    requires Conserved(s) && Ledger(s) && DeliveredFromItems(s) && AllVerified(s.items, s.taken)
    requires k < |s.jobs| && s.jobs[k].id < |s.items| && Settled(c, s, k, it, p).Some?
    ensures Ledger(Settled(c, s, k, it, p).value) && DeliveredFromItems(Settled(c, s, k, it, p).value)
  {
    HeldAlone(s, k);
    LedgerFrame(s, Settled(c, s, k, it, p).value);
  }

  lemma BooksStepped(c: Config, s: State, k: nat, a: Answer)
    requires Conserved(s) && Ledger(s) && DeliveredFromItems(s) && AllVerified(s.items, s.taken) &&
              Stepped(c, s, k, a).Some?
    ensures Ledger(Stepped(c, s, k, a).value) && DeliveredFromItems(Stepped(c, s, k, a).value)
  {
    var it, pc := s.items[s.jobs[k].id], s.jobs[k].pc;
    var p := Advance(c.handler, it.value, pc, a);
    BooksSettled(c, s, k, Moved(it, pc, a, p.value), p);
  }

  lemma BooksOther(c: Config, s: State, l: Label)
    requires Ledger(s) && DeliveredFromItems(s) && AllVerified(s.items, s.taken) && Transition(c, s, l).Some?
    requires !l.Take? && !l.Deliver? && !l.Step?
    ensures Ledger(Transition(c, s, l).value) && DeliveredFromItems(Transition(c, s, l).value)
  {
    LedgerFrame(s, Transition(c, s, l).value);
  }

  lemma KeepBooks(c: Config, s: State, l: Label)
    requires Conserved(s) && AllVerified(s.items, s.taken) && Ledger(s) && DeliveredFromItems(s) &&
              Transition(c, s, l).Some?
    ensures Ledger(Transition(c, s, l).value) && DeliveredFromItems(Transition(c, s, l).value)
  {
    match l
    case Take => BooksTaken(c, s);
    case Deliver(k) => BooksDelivered(s, k);
    case Step(k, a) => BooksStepped(c, s, k, a);
    case _ => BooksOther(c, s, l);
  }

  lemma InvStep(c: Config, s: State, l: Label)
    requires ValidConfig(c) && Inv(c, s) && Transition(c, s, l).Some?
    ensures Inv(c, Transition(c, s, l).value)
  {
    ConservedStep(c, s, l);
    match l {
      case Accept(e, timestamp, stamp) => KeepAccepted(c, s, e, timestamp, stamp);
      case Dispatch(k) => KeepDispatched(c, s, k);
      case Step(k, a) => KeepStepped(c, s, k, a);
      case _ => KeepOther(c, s, l);
    }
    KeepBooks(c, s, l);
  }

  /** The invariant holds after every run from the start. */
  lemma {:induction false} InvAfter(c: Config, s: State, run: seq<Label>)
    requires ValidConfig(c) && Inv(c, s) && After(c, s, run).Some?
    ensures Inv(c, After(c, s, run).value)
    decreases run
  {
    if run != [] {
      InvStep(c, s, run[0]);
      InvAfter(c, Transition(c, s, run[0]).value, run[1..]);
    }
  }

  lemma InvInit(c: Config)
    ensures Inv(c, INIT)
  {
    assert Ids([]) == [] && Keys([]) == [];
  }
}

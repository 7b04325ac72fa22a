/** What is always possible next: work while the pipeline runs, winding down once it is cancelled. */
module RelayProgress {
  import opened Terms
  import opened Sequences
  import opened FdcHandler
  import opened Relay
  import opened RelayInvariant
  import opened RelayTermination
  import opened RelayTheorems

  // ---------- while running ----------

  predicate Quiescent(s: State) {
    s.queued == [] && s.waiting == [] && s.jobs == [] && s.out == [] && s.sends == []
  }

  /** A step of a processor, a queue's worker, a retry timer, the sender or one of its goroutines. */
  predicate Internal(l: Label) {
    l.Dispatch? || l.Step? || l.Requeue? || l.Take? || l.Deliver?
  }

  lemma {:induction false} EarliestExists(s: State, n: nat) returns (k: nat)
    requires 0 < n <= |s.queued| && forall i | 0 <= i < |s.queued| :: s.queued[i] < |s.items|
    ensures k < n
    ensures forall i | 0 <= i < n :: s.items[s.queued[k]].stamp <= s.items[s.queued[i]].stamp
  {
    k := 0;
    if n > 1 {
      k := EarliestExists(s, n - 1);
      if s.items[s.queued[n - 1]].stamp < s.items[s.queued[k]].stamp {
        k := n - 1;
      }
    }
  }

  lemma DispatchEnabled(c: Config, s: State) returns (k: nat)
    requires AllIdle(c, s.items, s.queued) && s.queued != [] && s.stopped == {}
    ensures Dispatched(s, k).Some?
  {
    assert forall i | 0 <= i < |s.queued| :: s.queued[i] in s.queued;
    k := EarliestExists(s, |s.queued|);
  }

  /** A processor is never blocked except by a full channel, which only cancellation can interrupt. */
  lemma ProcessorBlocks(c: Config, s: State, k: nat, a: Answer)
    requires k < |s.jobs| && s.jobs[k].id < |s.items|
    ensures Stepped(c, s, k, a).None? <==>
              s.jobs[k].pc.Send? &&
              if a.Fails? then !s.cancelled else !a.Panics? && |s.out| >= 50
  {
    var p := Advance(c.handler, s.items[s.jobs[k].id].value, s.jobs[k].pc, a);
    if s.jobs[k].pc.Send? {
      assert p.Emitted? <==> !a.Fails? && !a.Panics?;
    } else {
      assert !p.Emitted?;
    }
  }

  lemma SendEnabled(s: State)
    requires Ledger(s) && s.sends != []
    ensures Delivered(s, 0).Some?
  {
    assert s.sends[0] in multiset(s.sends);
  }

  lemma JobEnabled(c: Config, s: State)
    requires AllJobsOk(c, s.items, s.jobs) && s.jobs != [] && |s.out| < CAPACITY
    ensures Stepped(c, s, 0, Works).Some?
  {
    ProcessorBlocks(c, s, 0, Works);
  }

  lemma {:induction false} ProgressFrom(c: Config, s: State) returns (l: Label)
    requires AllJobsOk(c, s.items, s.jobs) && AllIdle(c, s.items, s.queued) && AllVerified(s.items, s.out)
    requires Ledger(s) && !s.senderGone && s.stopped == {} && !Quiescent(s)
    ensures Internal(l) && Transition(c, s, l).Some?
  {
    if s.out != [] {
      assert s.out[0] in s.out;
      l := Take;
    } else if s.jobs != [] {
      JobEnabled(c, s);
      l := Step(0, Works);
    } else if s.waiting != [] {
      l := Requeue(0);
    } else if s.sends != [] {
      SendEnabled(s);
      l := Deliver(0);
    } else {
      var k := DispatchEnabled(c, s);
      l := Dispatch(k);
    }
  }

  /** The sender and the workers leave only after cancellation. */
  predicate StaffedUntilCancelled(s: State) {
    !s.cancelled ==> !s.senderGone && s.stopped == {}
  }

  lemma StaffedStep(c: Config, s: State, l: Label)
    requires StaffedUntilCancelled(s) && Transition(c, s, l).Some?
    ensures StaffedUntilCancelled(Transition(c, s, l).value)
    ensures s.cancelled ==> Transition(c, s, l).value.cancelled
  {
  }

  lemma {:induction false} StaffedAfter(c: Config, s: State, run: seq<Label>)
    requires StaffedUntilCancelled(s) && After(c, s, run).Some?
    ensures StaffedUntilCancelled(After(c, s, run).value)
    decreases run
  {
    if run != [] {
      StaffedStep(c, s, run[0]);
      StaffedAfter(c, Transition(c, s, run[0]).value, run[1..]);
    }
  }

  /** No deadlock while the pipeline runs: until all accepted work has reached a final place and all
      messages are out, some processor, timer, queue or sender step is enabled. */
  lemma NoDeadlock(c: Config, run: seq<Label>) returns (l: Label)
    requires ValidConfig(c) && After(c, INIT, run).Some?
    requires !After(c, INIT, run).value.cancelled && !Quiescent(After(c, INIT, run).value)
    ensures Internal(l) && Transition(c, After(c, INIT, run).value, l).Some?
  {
    InvInit(c);
    InvAfter(c, INIT, run);
    StaffedAfter(c, INIT, run);
    l := ProgressFrom(c, After(c, INIT, run).value);
  }

  predicate AllInternal(run: seq<Label>) {
    forall i | 0 <= i < |run| :: Internal(run[i])
  }

  ghost predicate RestsBy(c: Config, s: State, run: seq<Label>) {
    && AllInternal(run) && |run| <= Rank(c, s) && After(c, s, run).Some?
    && Quiescent(After(c, s, run).value) && !After(c, s, run).value.cancelled
  }

  lemma InternalKeepsUp(c: Config, s: State, l: Label)
    requires Internal(l) && Transition(c, s, l).Some?
    ensures Transition(c, s, l).value.cancelled == s.cancelled
  {
  }

  lemma AfterCons(c: Config, s: State, l: Label, rest: seq<Label>)
    requires Transition(c, s, l).Some?
    ensures After(c, s, [l] + rest) == After(c, Transition(c, s, l).value, rest)
  {
    assert ([l] + rest)[1..] == rest;
  }

  lemma RestsCons(c: Config, s: State, l: Label, rest: seq<Label>)
    requires Internal(l) && Transition(c, s, l).Some? && Rank(c, Transition(c, s, l).value) < Rank(c, s)
    requires RestsBy(c, Transition(c, s, l).value, rest)
    ensures RestsBy(c, s, [l] + rest)
  {
    AfterCons(c, s, l, rest);
  }

  lemma RestStep(c: Config, s: State) returns (l: Label)
    requires ValidConfig(c) && Inv(c, s) && StaffedUntilCancelled(s) && !s.cancelled && !Quiescent(s)
    ensures Internal(l) && Transition(c, s, l).Some?
    ensures var next := Transition(c, s, l).value;
            Inv(c, next) && StaffedUntilCancelled(next) && !next.cancelled && Rank(c, next) < Rank(c, s)
  {
    l := ProgressFrom(c, s);
    InvStep(c, s, l);
    RankStep(c, s, l);
    StaffedStep(c, s, l);
    InternalKeepsUp(c, s, l);
  }

  lemma RestsNow(c: Config, s: State)
    requires Quiescent(s) && !s.cancelled
    ensures RestsBy(c, s, [])
  {
  }

  lemma RestsAfterStep(c: Config, s: State, l: Label)
    requires Internal(l) && Transition(c, s, l).Some?
    requires Rank(c, Transition(c, s, l).value) < Rank(c, s)
    requires exists rest :: RestsBy(c, Transition(c, s, l).value, rest)
    ensures exists run :: RestsBy(c, s, run)
  {
    var rest :| RestsBy(c, Transition(c, s, l).value, rest);
    RestsCons(c, s, l, rest);
  }

  lemma {:induction false} RestsFrom(c: Config, s: State, bound: nat)
    requires ValidConfig(c) && Inv(c, s) && StaffedUntilCancelled(s) && !s.cancelled && Rank(c, s) <= bound
    ensures exists run :: RestsBy(c, s, run)
    decreases bound
  {
    if Quiescent(s) {
      RestsNow(c, s);
    } else {
      var l := RestStep(c, s);
      var next := Transition(c, s, l).value;
      RestsFrom(c, next, bound - 1);
      RestsAfterStep(c, s, l);
    }
  }

  /** From every reachable uncancelled state the pipeline can come to rest by its own steps, in a bounded
      number of them. */
  lemma ComesToRest(c: Config, run: seq<Label>)
    requires ValidConfig(c) && After(c, INIT, run).Some? && !After(c, INIT, run).value.cancelled
    ensures exists more :: RestsBy(c, After(c, INIT, run).value, more)
  {
    InvInit(c);
    InvAfter(c, INIT, run);
    StaffedAfter(c, INIT, run);
    RestsFrom(c, After(c, INIT, run).value, Rank(c, After(c, INIT, run).value));
  }

  // ---------- the order of dispatch ----------

  /** Origin, kind and stamp are for good, and only a dispatch counts an attempt. */
  predicate Steady(was: Item, it: Item, dispatched: bool) {
    it.origin == was.origin && it.kind == was.kind && it.stamp == was.stamp &&
    it.attempts == was.attempts + if dispatched then 1 else 0
  }

  lemma SettledSteady(c: Config, s: State, k: nat, a: Answer, id: nat)
    requires Stepped(c, s, k, a).Some? && id < |s.items|
    ensures |Stepped(c, s, k, a).value.items| == |s.items| &&
              Steady(s.items[id], Stepped(c, s, k, a).value.items[id], false)
  {
    var it, pc := s.items[s.jobs[k].id], s.jobs[k].pc;
    var p := Advance(c.handler, it.value, pc, a);
    assert Settled(c, s, k, Moved(it, pc, a, p.value), p).value.items ==
        s.items[s.jobs[k].id := Moved(it, pc, a, p.value)];
  }

  lemma ItemSteady(c: Config, s: State, l: Label, id: nat)
    requires Transition(c, s, l).Some? && id < |s.items|
    ensures var s' := Transition(c, s, l).value;
            id < |s'.items| && Steady(s.items[id], s'.items[id], l.Dispatch? && s.queued[l.k] == id)
  {
    match l
    case Step(k, a) => SettledSteady(c, s, k, a, id);
    case _ =>
  }

  lemma {:induction false} AttemptsNeverFall(c: Config, s: State, run: seq<Label>, id: nat)
    requires After(c, s, run).Some? && id < |s.items|
    ensures id < |After(c, s, run).value.items| && s.items[id].attempts <= After(c, s, run).value.items[id].attempts
    decreases run
  {
    if run != [] {
      ItemSteady(c, s, run[0], id);
      AttemptsNeverFall(c, Transition(c, s, run[0]).value, run[1..], id);
    }
  }

  lemma StaysQueued(c: Config, s: State, l: Label, id: nat)
    requires Transition(c, s, l).Some? && id in s.queued
    requires l.Dispatch? || l.AbandonQueued? ==> s.queued[l.k] != id
    ensures id in Transition(c, s, l).value.queued
  {
    if l.Dispatch? || l.AbandonQueued? {
      RemoveAtMultiset(s.queued, l.k);
      assert id in multiset(RemoveAt(s.queued, l.k));
    }
  }

  /** A queue's worker can start on an instruction exactly if it is still there and no instruction of its own queue
      was stamped earlier; other queues do not matter. */
  lemma DispatchExactly(s: State, k: nat)
    requires k < |s.queued| && forall i | 0 <= i < |s.queued| :: s.queued[i] < |s.items|
    requires s.items[s.queued[k]].kind.Attested?
    ensures Dispatched(s, k).Some? <==>
              && s.items[s.queued[k]].kind.queue !in s.stopped
              && forall id | id in s.queued && s.items[id].kind == s.items[s.queued[k]].kind ::
                   s.items[s.queued[k]].stamp <= s.items[id].stamp
  {
    assert forall i | 0 <= i < |s.queued| :: s.queued[i] in s.queued;
  }

  lemma DispatchIsEarliest(s: State, k: nat, id: nat)
    requires Dispatched(s, k).Some? && id in s.queued && id < |s.items| && s.items[id].kind == s.items[s.queued[k]].kind
    ensures s.items[s.queued[k]].stamp <= s.items[id].stamp
  {
    var i :| 0 <= i < |s.queued| && s.queued[i] == id;
    assert !Less(s.items[s.queued[k]].stamp, s.items[s.queued[i]].stamp);
  }

  lemma QueuedStep(c: Config, s: State, l: Label, early: nat, late: nat)
    requires Transition(c, s, l).Some? && early in s.queued && early < |s.items| && late < |s.items|
    requires s.items[early].kind == s.items[late].kind && s.items[early].stamp < s.items[late].stamp
    ensures !(l.Dispatch? && s.queued[l.k] == late)
    ensures var next := Transition(c, s, l).value;
            || early in next.queued || early in next.abandoned
            || (l.Dispatch? && s.queued[l.k] == early)
  {
    if l.Dispatch? {
      if s.queued[l.k] == late {
        DispatchIsEarliest(s, l.k, early);
      }
    }
    if l.Dispatch? || l.AbandonQueued? ==> s.queued[l.k] != early {
      StaysQueued(c, s, l, early);
    }
  }

  lemma AbandonedStays(c: Config, s: State, run: seq<Label>, id: nat)
    requires ValidConfig(c) && Inv(c, s) && After(c, s, run).Some? && id in s.abandoned
    ensures id in After(c, s, run).value.abandoned
  {
    ExtendsAfter(c, s, run);
  }

  /** What `early` got by the end of a run: an attempt of its own, or it was left behind at shutdown. */
  predicate ServedOrLeft(s: State, t: State, id: nat)
    requires id < |s.items|
  {
    id < |t.items| && (s.items[id].attempts < t.items[id].attempts || id in t.abandoned)
  }

  /** No overtaking, over every continuation of every reachable state: while an instruction is queued, no
      later-stamped one of its queue gets an attempt, first or repeated, before it does or shutdown drops it. */
  lemma {:induction false} NoOvertaking(c: Config, s: State, run: seq<Label>, early: nat, late: nat)
    requires ValidConfig(c) && Inv(c, s) && After(c, s, run).Some?
    requires early in s.queued && early < |s.items| && late < |s.items|
    requires s.items[early].kind == s.items[late].kind && s.items[early].stamp < s.items[late].stamp
    requires late < |After(c, s, run).value.items| &&
              s.items[late].attempts < After(c, s, run).value.items[late].attempts
    ensures ServedOrLeft(s, After(c, s, run).value, early)
    decreases run
  {
    if run != [] {
      var next := Transition(c, s, run[0]).value;
      ItemSteady(c, s, run[0], early);
      ItemSteady(c, s, run[0], late);
      QueuedStep(c, s, run[0], early, late);
      InvStep(c, s, run[0]);
      AttemptsNeverFall(c, next, run[1..], early);
      if early in next.abandoned {
        AbandonedStays(c, next, run[1..], early);
      } else if early in next.queued && next.items[early].attempts == s.items[early].attempts {
        NoOvertaking(c, next, run[1..], early, late);
      }
    }
  }

  // ---------- once cancelled ----------

  /** A step that needs neither the sender nor a queue's worker. */
  predicate Parting(l: Label) {
    l.Step? || l.Deliver? || l.AbandonQueued? || l.AbandonWaiting?
  }

  /** Nothing is left but what the sender did not take from the channel. */
  predicate WoundDown(s: State) {
    s.queued == [] && s.waiting == [] && s.jobs == [] && s.sends == []
  }

  /** With the sender and all workers gone and the channel full, a processor can still give up, an entry can
      still be abandoned and a message can still go out. */
  lemma {:induction false} PartingEnabled(c: Config, s: State) returns (l: Label)
    requires AllJobsOk(c, s.items, s.jobs) && Ledger(s) && s.cancelled && !WoundDown(s)
    ensures Parting(l) && Transition(c, s, l).Some?
    ensures Emissions(Transition(c, s, l).value) == Emissions(s) && Transition(c, s, l).value.out == s.out
  {
    if s.jobs != [] {
      ProcessorBlocks(c, s, 0, Fails);
      l := Step(0, Fails);
    } else if s.queued != [] {
      l := AbandonQueued(0);
    } else if s.waiting != [] {
      l := AbandonWaiting(0);
    } else {
      SendEnabled(s);
      l := Deliver(0);
    }
  }

  predicate AllParting(run: seq<Label>) {
    forall i | 0 <= i < |run| :: Parting(run[i])
  }

  ghost predicate WindsDownBy(c: Config, s: State, run: seq<Label>) {
    && AllParting(run) && |run| <= Rank(c, s) && After(c, s, run).Some?
    && WoundDown(After(c, s, run).value) && After(c, s, run).value.out == s.out
  }

  lemma WindsDownCons(c: Config, s: State, l: Label, rest: seq<Label>)
    requires Parting(l) && Transition(c, s, l).Some? && Transition(c, s, l).value.out == s.out
    requires Rank(c, Transition(c, s, l).value) < Rank(c, s) && WindsDownBy(c, Transition(c, s, l).value, rest)
    ensures WindsDownBy(c, s, [l] + rest)
  {
    AfterCons(c, s, l, rest);
  }

  lemma PartingStep(c: Config, s: State) returns (l: Label)
    requires ValidConfig(c) && Inv(c, s) && s.cancelled && !WoundDown(s)
    ensures Parting(l) && Transition(c, s, l).Some?
    ensures var next := Transition(c, s, l).value;
            Inv(c, next) && next.cancelled && next.out == s.out && Rank(c, next) < Rank(c, s)
  {
    l := PartingEnabled(c, s);
    InvStep(c, s, l);
    RankStep(c, s, l);
    StaysCancelled(c, s, l);
  }

  lemma WoundDownNow(c: Config, s: State)
    requires WoundDown(s)
    ensures WindsDownBy(c, s, [])
  {
  }

  lemma WindsDownAfterStep(c: Config, s: State, l: Label)
    requires Parting(l) && Transition(c, s, l).Some? && Transition(c, s, l).value.out == s.out
    requires Rank(c, Transition(c, s, l).value) < Rank(c, s)
    requires exists rest :: WindsDownBy(c, Transition(c, s, l).value, rest)
    ensures exists run :: WindsDownBy(c, s, run)
  {
    var rest :| WindsDownBy(c, Transition(c, s, l).value, rest);
    WindsDownCons(c, s, l, rest);
  }

  lemma {:induction false} WindsDownFrom(c: Config, s: State, bound: nat)
    requires ValidConfig(c) && Inv(c, s) && s.cancelled && Rank(c, s) <= bound
    ensures exists run :: WindsDownBy(c, s, run)
    decreases bound
  {
    if WoundDown(s) {
      WoundDownNow(c, s);
    } else {
      var l := PartingStep(c, s);
      var next := Transition(c, s, l).value;
      WindsDownFrom(c, next, bound - 1);
      WindsDownAfterStep(c, s, l);
    }
  }

  lemma StaysCancelled(c: Config, s: State, l: Label)
    requires s.cancelled && Transition(c, s, l).Some?
    ensures Transition(c, s, l).value.cancelled
  {
  }

  /** From every reachable cancelled state, whoever has left already, all processors can end, all queue
      entries be abandoned and all messages already fanned out be delivered; what the sender left on the
      channel stays there. */
  lemma WindsDown(c: Config, run: seq<Label>)
    requires ValidConfig(c) && After(c, INIT, run).Some? && After(c, INIT, run).value.cancelled
    ensures exists more :: WindsDownBy(c, After(c, INIT, run).value, more)
  {
    InvInit(c);
    InvAfter(c, INIT, run);
    WindsDownFrom(c, After(c, INIT, run).value, Rank(c, After(c, INIT, run).value));
  }

  /** And it must come to that: after cancellation a run that can go on only by accepting more has wound
      down, and the sender and all workers have left. By RunsTerminate every run gets there. */
  lemma StopsOnlyWoundDown(c: Config, run: seq<Label>)
    requires ValidConfig(c) && After(c, INIT, run).Some? && After(c, INIT, run).value.cancelled
    requires forall l: Label | !l.Accept? :: Transition(c, After(c, INIT, run).value, l).None?
    ensures var t := After(c, INIT, run).value;
            WoundDown(t) && t.senderGone && c.fdc.queues.Keys <= t.stopped
  {
    InvInit(c);
    InvAfter(c, INIT, run);
    StuckIsWoundDown(c, After(c, INIT, run).value);
  }

  lemma StuckIsWoundDown(c: Config, t: State)
    requires AllJobsOk(c, t.items, t.jobs) && Ledger(t) && t.cancelled
    requires forall l: Label | !l.Accept? :: Transition(c, t, l).None?
    ensures WoundDown(t) && t.senderGone && c.fdc.queues.Keys <= t.stopped
  {
    if !WoundDown(t) {
      var l := PartingEnabled(c, t);
    }
    assert Transition(c, t, SenderExit).None?;
    forall q | q in c.fdc.queues ensures q in t.stopped {
      assert Transition(c, t, WorkerExit(q)).None?;
    }
  }
}

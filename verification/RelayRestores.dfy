/** Emitted restores, over whole runs of the pipeline. */
module RelayRestores {
  import opened Terms
  import opened Sequences
  import opened Signers
  import opened Instructions
  import opened FdcHandler
  import opened Relay
  import opened RelayInvariant
  import opened RelayOutcomes
  import opened RelayTheorems
  import opened Backup
  import opened BackupTheorems

  /** The outside as each instruction's fetch meets it. */
  type Worlds = nat -> World

  function FetchOf(c: Config, w: World, v: Value): Answer {
    Answers(c.handler.chainId, w, v)(AtFetch)
  }

  /** A fetch is answered as Backup.Process answers it, or panics. */
  predicate FetchesThrough(c: Config, s: State, l: Label, worlds: Worlds) {
    l.Step? && l.k < |s.jobs| && s.jobs[l.k].pc.Fetch? && s.jobs[l.k].id < |s.items| ==>
      l.answer.Panics? || l.answer == FetchOf(c, worlds(s.jobs[l.k].id), s.items[s.jobs[l.k].id].value)
  }

  predicate FetchesRun(c: Config, s: State, run: seq<Label>, worlds: Worlds)
    decreases run
  {
    run != [] ==>
      FetchesThrough(c, s, run[0], worlds) &&
      (Transition(c, s, run[0]).Some? ==> FetchesRun(c, Transition(c, s, run[0]).value, run[1..], worlds))
  }

  /** The object holds the messages fetched for the event as parsed. */
  predicate Restored(c: Config, it: Item, w: World) {
    it.kind.Restore? ==>
      FetchOf(c, w, it.origin).Fetched? && it.value.data == Spliced(it.origin, FetchOf(c, w, it.origin)).data
  }

  predicate JobRestored(c: Config, it: Item, pc: Pc, w: World) {
    if pc.Fetch? then it.value == it.origin else Restored(c, it, w)
  }

  predicate JobsRestored(c: Config, items: seq<Item>, jobs: seq<Job>, worlds: Worlds) {
    forall k | 0 <= k < |jobs| :: jobs[k].id < |items| &&
        JobRestored(c, items[jobs[k].id], jobs[k].pc, worlds(jobs[k].id))
  }

  predicate AllRestored(c: Config, items: seq<Item>, ids: seq<nat>, worlds: Worlds) {
    forall id | id in ids :: id < |items| && Restored(c, items[id], worlds(id))
  }

  /** A closed restore had nothing to send. */
  predicate ClosedIdle(c: Config, it: Item, w: World) {
    it.kind.Restore? ==> FetchOf(c, w, it.origin).NothingToSend?
  }

  predicate AllClosedIdle(c: Config, items: seq<Item>, ids: seq<nat>, worlds: Worlds) {
    forall id | id in ids :: id < |items| && ClosedIdle(c, items[id], worlds(id))
  }

  predicate RestoreInv(c: Config, s: State, worlds: Worlds) {
    AllClosedIdle(c, s.items, s.closed, worlds) &&
    JobsRestored(c, s.items, s.jobs, worlds) && AllRestored(c, s.items, s.out, worlds) &&
        AllRestored(c, s.items, s.taken, worlds)
  }

  lemma AdvanceRestored(c: Config, it: Item, pc: Pc, a: Answer, w: World)
    requires ItemOk(c, it) && JobOk(c, it, pc) && JobRestored(c, it, pc, w)
    requires pc.Fetch? ==> a.Panics? || a == FetchOf(c, w, it.value)
    ensures var p := Advance(c.handler, it.value, pc, a);
            var it' := Moved(it, pc, a, p.value);
            && (p.Next? ==> !p.pc.Fetch? && Restored(c, it', w)) && (p.Emitted? ==> Restored(c, it', w))
            && (p.Closed? ==> ClosedIdle(c, it', w))
  {
  }

  lemma JobsUntouched(c: Config, s: State, k: nat, it: Item, worlds: Worlds)
    requires Conserved(s) && JobsRestored(c, s.items, s.jobs, worlds) && k < |s.jobs| && s.jobs[k].id < |s.items|
    ensures JobsRestored(c, s.items[s.jobs[k].id := it], RemoveAt(s.jobs, k), worlds)
  {
    HeldAlone(s, k);
    var rest := RemoveAt(s.jobs, k);
    forall i | 0 <= i < |rest|
      ensures rest[i].id != s.jobs[k].id && rest[i].id < |s.items| &&
                JobRestored(c, s.items[rest[i].id], rest[i].pc, worlds(rest[i].id))
    {
      assert rest[i] == s.jobs[if i < k then i else i + 1];
    }
  }

  lemma OthersRestored(c: Config, s: State, k: nat, it: Item, worlds: Worlds)
    requires Conserved(s) && RestoreInv(c, s, worlds) && k < |s.jobs| && s.jobs[k].id < |s.items|
    ensures RestoreInv(c, s.(items := s.items[s.jobs[k].id := it], jobs := RemoveAt(s.jobs, k)), worlds)
  {
    HeldAlone(s, k);
    NotClosed(s, k);
    JobsUntouched(c, s, k, it, worlds);
  }

  lemma JobReplacedRestored(c: Config, s: State, k: nat, it: Item, pc: Pc, worlds: Worlds)
    requires Conserved(s) && JobsRestored(c, s.items, s.jobs, worlds) && k < |s.jobs| && s.jobs[k].id < |s.items|
    requires !pc.Fetch? && Restored(c, it, worlds(s.jobs[k].id))
    ensures JobsRestored(c, s.items[s.jobs[k].id := it], s.jobs[k := Job(s.jobs[k].id, pc)], worlds)
  {
    HeldAlone(s, k);
  }

  lemma RestoredSettled(c: Config, s: State, k: nat, it: Item, p: Progress, worlds: Worlds)
    requires Conserved(s) && RestoreInv(c, s, worlds)
    requires k < |s.jobs| && s.jobs[k].id < |s.items| && Settled(c, s, k, it, p).Some?
    requires p.Next? ==> !p.pc.Fetch? && Restored(c, it, worlds(s.jobs[k].id))
    requires p.Emitted? ==> Restored(c, it, worlds(s.jobs[k].id))
    requires p.Closed? ==> ClosedIdle(c, it, worlds(s.jobs[k].id))
    ensures RestoreInv(c, Settled(c, s, k, it, p).value, worlds)
  {
    OthersRestored(c, s, k, it, worlds);
    if p.Next? {
      JobReplacedRestored(c, s, k, it, p.pc, worlds);
    }
  }

  lemma RestoredStepped(c: Config, s: State, k: nat, a: Answer, worlds: Worlds)
    requires Inv(c, s) && RestoreInv(c, s, worlds) && FetchesThrough(c, s, Step(k, a), worlds) &&
              Stepped(c, s, k, a).Some?
    ensures RestoreInv(c, Stepped(c, s, k, a).value, worlds)
  {
    var it, pc := s.items[s.jobs[k].id], s.jobs[k].pc;
    AdvanceRestored(c, it, pc, a, worlds(s.jobs[k].id));
    var p := Advance(c.handler, it.value, pc, a);
    RestoredSettled(c, s, k, Moved(it, pc, a, p.value), p, worlds);
  }

  lemma RestoredDispatched(c: Config, s: State, k: nat, worlds: Worlds)
    requires Conserved(s) && ItemsOk(c, s) && RestoreInv(c, s, worlds) && Dispatched(s, k).Some?
    ensures RestoreInv(c, Dispatched(s, k).value, worlds)
  {
    QueuedAlone(s, k);
    assert s.queued[k] in s.queued;
  }

  lemma RestoredAccepted(c: Config, s: State, l: Label, worlds: Worlds)
    requires RestoreInv(c, s, worlds) && l.Accept? && Transition(c, s, l).Some?
    ensures RestoreInv(c, Transition(c, s, l).value, worlds)
  {
  }

  lemma RestoredOther(c: Config, s: State, l: Label, worlds: Worlds)
    requires RestoreInv(c, s, worlds) && !l.Step? && !l.Dispatch? && !l.Accept? && Transition(c, s, l).Some?
    ensures RestoreInv(c, Transition(c, s, l).value, worlds)
  {
    if l.Take? {
      assert s.out[0] in s.out && forall id | id in s.out[1..] :: id in s.out;
    }
  }

  lemma RestoredStep(c: Config, s: State, l: Label, worlds: Worlds)
    requires Inv(c, s) && RestoreInv(c, s, worlds) && FetchesThrough(c, s, l, worlds) && Transition(c, s, l).Some?
    ensures RestoreInv(c, Transition(c, s, l).value, worlds)
  {
    match l
    case Step(k, a) => RestoredStepped(c, s, k, a, worlds);
    case Dispatch(k) => RestoredDispatched(c, s, k, worlds);
    case Accept(_, _, _) => RestoredAccepted(c, s, l, worlds);
    case _ => RestoredOther(c, s, l, worlds);
  }

  lemma {:induction false} RestoredAfter(c: Config, s: State, run: seq<Label>, worlds: Worlds)
    requires ValidConfig(c) && Inv(c, s) && RestoreInv(c, s, worlds)
    requires FetchesRun(c, s, run, worlds) && After(c, s, run).Some?
    ensures RestoreInv(c, After(c, s, run).value, worlds)
    decreases run
  {
    if run != [] {
      RestoredStep(c, s, run[0], worlds);
      InvStep(c, s, run[0]);
      RestoredAfter(c, Transition(c, s, run[0]).value, run[1..], worlds);
    }
  }

  /** A direct restore carries precisely the envelope of the requested source TEE's answer. */
  ghost predicate SoundDirectRestore(chainId: nat, w: World, v: Value, fixed: Bytes) {
    && |v.tees| == 1 && v.data.originalMessage.DirectRestoreDoc? && w.action.Some?
    && FromSource(chainId, v.data.originalMessage.directRestore, w.action.value)
    && fixed == w.action.value.result.data
  }

  /** The fetched messages in the parsed event's data, validated by the restore's own kind, and one signature
      valid for its one destination. */
  ghost predicate SoundRestore(c: Config, it: Item, w: World) {
    && FetchOf(c, w, it.origin).Fetched?
    && it.value == Spliced(it.origin, FetchOf(c, w, it.origin)).(
                     signatures := SignAll(c.handler.signer.key, Hashes(it.value, c.handler.chainId)))
    && it.origin.event.opType == Wallet
    && match it.origin.event.opCommand
       case KeyDataProviderRestore =>
         SoundProviderRestore(c.handler.chainId, w, it.origin, it.value.data.fixedMessage,
             it.value.data.variableMessage)
       case KeyDirectRestore => SoundDirectRestore(c.handler.chainId, w, it.origin, it.value.data.fixedMessage)
       case _ => false
  }

  lemma RestoredIsSound(c: Config, it: Item, w: World)
    requires ItemOk(c, it) && it.kind.Restore? && Restored(c, it, w) && SignedRight(c, it)
    ensures SoundRestore(c, it, w)
  {
    var a := FetchOf(c, w, it.origin);
    match it.origin.event.opCommand
    case KeyDataProviderRestore => ProviderRestoreSound(c.handler.chainId, w, it.origin);
    case KeyDirectRestore => DirectAcceptsExactlySource(c.handler.chainId, w, it.origin);
    case _ =>
  }

  /** Over every run: whatever the outside answered each fetch, an emitted restore is sound. */
  lemma EmittedRestoresAreSound(c: Config, run: seq<Label>, worlds: Worlds, id: nat)
    requires ValidConfig(c) && !c.handler.signer.Other? && After(c, INIT, run).Some? && HonestRun(c, INIT, run)
    requires FetchesRun(c, INIT, run, worlds) && id in Emissions(After(c, INIT, run).value)
    ensures id < |After(c, INIT, run).value.items|
    ensures var it := After(c, INIT, run).value.items[id]; it.kind.Restore? ==> SoundRestore(c, it, worlds(id))
  {
    EmittedIsFinished(c, run, id);
    InvInit(c);
    RestoredAfter(c, INIT, run, worlds);
    var it := After(c, INIT, run).value.items[id];
    if it.kind.Restore? {
      RestoredIsSound(c, it, worlds(id));
    }
  }

  /** A backup of this request, for its one destination, all in order, whose owners do not include the signer. */
  predicate NotAnOwner(w: World, v: Value) {
    && BackupInOrder(w, v) && w.identity.Some?
    && w.identity.value !in w.backup.value.blob.backup.providers.owners
    && w.identity.value !in w.backup.value.blob.backup.admins.owners
  }

  lemma NothingToSendExactly(c: Config, w: World, v: Value)
    ensures FetchOf(c, w, v).NothingToSend? <==>
              v.event.opCommand == KeyDataProviderRestore && NotAnOwner(w, v) && w.encodesMeta
  {
  }

  /** Over every run: a restore ends without error and without a message only for a data-provider restore whose
      backup is in order and names the signer in neither list. */
  lemma ClosedRestoresHadNothingToSend(c: Config, run: seq<Label>, worlds: Worlds, id: nat)
    requires ValidConfig(c) && After(c, INIT, run).Some? && FetchesRun(c, INIT, run, worlds)
    requires id in After(c, INIT, run).value.closed
    ensures id < |After(c, INIT, run).value.items|
    ensures var it := After(c, INIT, run).value.items[id];
            it.kind.Restore? ==>
              it.origin.event.opCommand == KeyDataProviderRestore && NotAnOwner(worlds(id), it.origin)
  {
    InvInit(c);
    RestoredAfter(c, INIT, run, worlds);
    NothingToSendExactly(c, worlds(id), After(c, INIT, run).value.items[id].origin);
  }
}

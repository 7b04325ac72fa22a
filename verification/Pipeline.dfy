/** Shutdown of the pipeline: who waits for whom on the bounded channels, and who can always leave.

    Tracked goroutines are those Client.Wait waits for: collector, router, sender, and a worker and a
    drain per FDC queue. Everything started with a bare `go` is a task. The contents of instructions do
    not matter here, only how many TEEs each has. Dequeue of the priority library may run the handler
    itself or on a goroutine of its own; both are allowed. After the last attempt the error goes to the
    queue's Errors channel, which has `slots` places and is emptied by the queue's drain. */
module Pipeline {
  import opened Sequences
  import opened Terms

  datatype Route = NoProcessor | ToProcessor | ToQueue(queue: nat, attempts: nat)

  datatype Entry = Entry(tees: nat, route: Route)

  datatype Collector = Polling | Pushing(batch: seq<Entry>) | CollectorGone
  datatype Router = Selecting | Handling(rest: seq<Entry>) | RouterGone
  datatype Sender = Receiving | Fanning(left: nat) | SenderGone
  datatype Worker =
    | Looping | Dequeuing | Serving(tees: nat, left: nat) | Sending(tees: nat, left: nat) | Reporting | Stopped

  /** Processing goroutines: of plain and backup instructions, and of queued ones, which know their queue
      and the attempts they have left. */
  datatype Task =
    | Working(tees: nat) | Blocked(tees: nat)
    | Adding(queue: nat, tees: nat, left: nat)
    | Attempting(queue: nat, tees: nat, left: nat)
    | AttemptSending(queue: nat, tees: nat, left: nat)
    | ReportingError(queue: nat)

  datatype Queued = Queued(queue: nat, tees: nat, left: nat)

  datatype State = State(
    collector: Collector, batches: seq<seq<Entry>>, router: Router, tasks: seq<Task>,
    queued: seq<Queued>, workers: seq<Worker>, drains: seq<bool>, errors: seq<nat>,
    out: seq<nat>, sender: Sender, sends: nat, cancelled: bool, slots: nat)

  function Init(queues: nat, slots: nat): State {
    State(Polling, [], Selecting, [], [], seq(queues, _ => Looping), seq(queues, _ => true), [],
          [], Receiving, 0, false, slots)
  }

  datatype Label =
    | Cancel
    | Poll(logs: seq<Entry>) | Push | CollectorExit
    | ReceiveBatch | HandleLog | FinishBatch | RouterExit
    | TaskReady(k: nat) | TaskSend(k: nat) | TaskAbort(k: nat) | TaskEnd(k: nat) | TaskAdd(k: nat)
    | TaskReport(k: nat)
    | WorkerLoop(i: nat) | WorkerTake(i: nat, k: nat, inline: bool) | WorkerReturn(i: nat)
    | WorkerReady(i: nat) | WorkerSend(i: nat) | WorkerFail(i: nat) | WorkerClose(i: nat) | WorkerExit(i: nat)
    | WorkerReport(i: nat)
    | DrainLog(i: nat, k: nat) | DrainExit(i: nat)
    | ReceiveInstruction | Spawn | FinishFan | SenderExit
    | SendDone

  // ---------- steps, goroutine by goroutine ----------

  function CollectorStep(s: State, l: Label): Option<State> {
    match (s.collector, l)
    case (Polling, Poll(logs)) => Some(if logs == [] then s else s.(collector := Pushing(logs)))
    case (Polling, CollectorExit) => if s.cancelled then Some(s.(collector := CollectorGone)) else None
    case (Pushing(batch), Push) =>
      if |s.batches| < CAPACITY then Some(s.(batches := s.batches + [batch], collector := Polling)) else None
    case (Pushing(_), CollectorExit) => if s.cancelled then Some(s.(collector := CollectorGone)) else None
    case _ => None
  }

  function TaskFor(l: Entry): seq<Task> {
    match l.route
    case NoProcessor => []
    case ToProcessor => [Working(l.tees)]
    case ToQueue(q, attempts) => [Adding(q, l.tees, attempts)]
  }

  function RouterStep(s: State, l: Label): Option<State> {
    match (s.router, l)
    case (Selecting, ReceiveBatch) =>
      if s.batches != [] then Some(s.(batches := s.batches[1..], router := Handling(s.batches[0]))) else None
    case (Selecting, RouterExit) => if s.cancelled then Some(s.(router := RouterGone)) else None
    case (Handling(rest), HandleLog) =>
      if rest != [] then Some(s.(router := Handling(rest[1..]), tasks := s.tasks + TaskFor(rest[0]))) else None
    case (Handling(rest), FinishBatch) => if rest == [] then Some(s.(router := Selecting)) else None
    case _ => None
  }

  function SenderStep(s: State, l: Label): Option<State> {
    match (s.sender, l)
    case (Receiving, ReceiveInstruction) =>
      if s.out != [] then Some(s.(out := s.out[1..], sender := Fanning(s.out[0]))) else None
    case (Receiving, SenderExit) => if s.cancelled then Some(s.(sender := SenderGone)) else None
    case (Fanning(left), Spawn) =>
      if left > 0 then Some(s.(sender := Fanning(left - 1), sends := s.sends + 1)) else None
    case (Fanning(left), FinishFan) => if left == 0 then Some(s.(sender := Receiving)) else None
    case _ => None
  }

  /** The Errors channel of a queue has room. */
  predicate HasSlot(s: State, queue: nat) {
    multiset(s.errors)[queue] < s.slots
  }

  /** A failed attempt waits to be added again, or to be reported after the last one. */
  function TaskFailed(s: State, k: nat, queue: nat, tees: nat, left: nat): State
    requires k < |s.tasks|
  {
    s.(tasks := s.tasks[k := if left > 0 then Adding(queue, tees, left) else ReportingError(queue)])
  }

  function WorkerFailed(s: State, i: nat, tees: nat, left: nat): State
    requires i < |s.workers|
  {
    if left > 0 then s.(workers := s.workers[i := Looping], tasks := s.tasks + [Adding(i, tees, left)])
    else s.(workers := s.workers[i := Reporting])
  }

  function TaskStep(s: State, l: Label, k: nat): Option<State>
    requires k < |s.tasks|
  {
    var ended := s.(tasks := RemoveAt(s.tasks, k));
    match (s.tasks[k], l)
    case (Working(tees), TaskReady(_)) => Some(s.(tasks := s.tasks[k := Blocked(tees)]))
    case (Working(_), TaskEnd(_)) => Some(ended)
    case (Blocked(tees), TaskSend(_)) => if |s.out| < CAPACITY then Some(ended.(out := s.out + [tees])) else None
    case (Blocked(_), TaskAbort(_)) => if s.cancelled then Some(ended) else None
    case (Adding(q, tees, left), TaskAdd(_)) => Some(ended.(queued := s.queued + [Queued(q, tees, left)]))
    case (Adding(_, _, _), TaskAbort(_)) => if s.cancelled then Some(ended) else None
    case (Attempting(q, tees, left), TaskReady(_)) => Some(s.(tasks := s.tasks[k := AttemptSending(q, tees, left)]))
    case (Attempting(q, tees, left), TaskAbort(_)) => Some(TaskFailed(s, k, q, tees, left))
    case (Attempting(_, _, _), TaskEnd(_)) => Some(ended)
    case (AttemptSending(_, tees, _), TaskSend(_)) =>
      if |s.out| < CAPACITY then Some(ended.(out := s.out + [tees])) else None
    case (AttemptSending(q, tees, left), TaskAbort(_)) =>
      if s.cancelled then Some(TaskFailed(s, k, q, tees, left)) else None
    case (ReportingError(q), TaskReport(_)) =>
      if HasSlot(s, q) then Some(ended.(errors := s.errors + [q])) else None
    case (ReportingError(_), TaskAbort(_)) => if s.cancelled then Some(ended) else None
    case _ => None
  }

  function WorkerStep(s: State, l: Label, i: nat): Option<State>
    requires i < |s.workers|
  {
    var looping := s.(workers := s.workers[i := Looping]);
    match (s.workers[i], l)
    case (Looping, WorkerLoop(_)) => if s.cancelled then None else Some(s.(workers := s.workers[i := Dequeuing]))
    case (Looping, WorkerExit(_)) => if s.cancelled then Some(s.(workers := s.workers[i := Stopped])) else None
    case (Dequeuing, WorkerTake(_, k, inline)) => Took(s, i, k, inline)
    case (Dequeuing, WorkerReturn(_)) => if s.cancelled then Some(looping) else None
    case (Serving(tees, left), WorkerReady(_)) => Some(s.(workers := s.workers[i := Sending(tees, left)]))
    case (Serving(tees, left), WorkerFail(_)) => Some(WorkerFailed(s, i, tees, left))
    case (Serving(_, _), WorkerClose(_)) => Some(looping)
    case (Sending(tees, _), WorkerSend(_)) => if |s.out| < CAPACITY then Some(looping.(out := s.out + [tees])) else None
    case (Sending(tees, left), WorkerFail(_)) => if s.cancelled then Some(WorkerFailed(s, i, tees, left)) else None
    case (Reporting, WorkerReport(_)) =>
      if HasSlot(s, i) then Some(looping.(errors := s.errors + [i])) else None
    case (Reporting, WorkerReturn(_)) => if s.cancelled then Some(looping) else None
    case _ => None
  }

  function Took(s: State, i: nat, k: nat, inline: bool): Option<State>
    requires i < |s.workers|
  {
    if k >= |s.queued| || s.queued[k].queue != i || s.queued[k].left == 0 then None else
    var item, taken := s.queued[k], s.(queued := RemoveAt(s.queued, k));
    Some(if inline then taken.(workers := s.workers[i := Serving(item.tees, item.left - 1)])
         else taken.(workers := s.workers[i := Looping], tasks := s.tasks + [Attempting(i, item.tees, item.left - 1)]))
  }

  function DrainStep(s: State, l: Label, i: nat): Option<State>
    requires i < |s.drains|
  {
    if !s.drains[i] then None else
    match l
    case DrainLog(_, k) =>
      if k < |s.errors| && s.errors[k] == i then Some(s.(errors := RemoveAt(s.errors, k))) else None
    case DrainExit(_) => if s.cancelled then Some(s.(drains := s.drains[i := false])) else None
    case _ => None
  }

  /** The goroutine that takes a step. */
  datatype Who = TheCollector | TheRouter | TheSender | WorkerOf(i: nat) | DrainOf(i: nat) | Untracked(k: nat) | Outside

  function Owner(l: Label): Who {
    match l
    case Cancel => Outside
    case SendDone => Outside
    case Poll(_) | Push | CollectorExit => TheCollector
    case ReceiveBatch | HandleLog | FinishBatch | RouterExit => TheRouter
    case ReceiveInstruction | Spawn | FinishFan | SenderExit => TheSender
    case TaskReady(k) => Untracked(k)
    case TaskSend(k) => Untracked(k)
    case TaskAbort(k) => Untracked(k)
    case TaskEnd(k) => Untracked(k)
    case TaskAdd(k) => Untracked(k)
    case TaskReport(k) => Untracked(k)
    case WorkerLoop(i) => WorkerOf(i)
    case WorkerTake(i, _, _) => WorkerOf(i)
    case WorkerReturn(i) => WorkerOf(i)
    case WorkerReady(i) => WorkerOf(i)
    case WorkerSend(i) => WorkerOf(i)
    case WorkerFail(i) => WorkerOf(i)
    case WorkerClose(i) => WorkerOf(i)
    case WorkerExit(i) => WorkerOf(i)
    case WorkerReport(i) => WorkerOf(i)
    case DrainLog(i, _) => DrainOf(i)
    case DrainExit(i) => DrainOf(i)
  }

  function Transition(s: State, l: Label): Option<State> {
    match Owner(l)
    case TheCollector => CollectorStep(s, l)
    case TheRouter => RouterStep(s, l)
    case TheSender => SenderStep(s, l)
    case WorkerOf(i) => if i < |s.workers| then WorkerStep(s, l, i) else None
    case DrainOf(i) => if i < |s.drains| then DrainStep(s, l, i) else None
    case Untracked(k) => if k < |s.tasks| then TaskStep(s, l, k) else None
    case Outside =>
      if l.Cancel? then if s.cancelled then None else Some(s.(cancelled := true))
      else if s.sends > 0 then Some(s.(sends := s.sends - 1)) else None
  }

  function After(s: State, run: seq<Label>): Option<State>
    decreases run
  {
    if run == [] then Some(s) else
    match Transition(s, run[0])
    case None => None
    case Some(next) => After(next, run[1..])
  }

  predicate Gone(s: State, who: Who) {
    match who
    case TheCollector => s.collector.CollectorGone?
    case TheRouter => s.router.RouterGone?
    case TheSender => s.sender.SenderGone?
    case WorkerOf(i) => i < |s.workers| ==> s.workers[i].Stopped?
    case DrainOf(i) => i < |s.drains| ==> !s.drains[i]
    case _ => true
  }

  /** Client.Wait returns. */
  ghost predicate AllGone(s: State) {
    forall who :: Gone(s, who)
  }

  // ---------- every tracked goroutine can leave ----------

  /** A step towards the exit that waits for nobody, once cancelled. */
  function WayOut(s: State, who: Who): Label {
    match who
    case TheCollector => CollectorExit
    case TheRouter =>
      (match s.router
       case Handling(rest) => if rest == [] then FinishBatch else HandleLog
       case _ => RouterExit)
    case TheSender =>
      (match s.sender
       case Fanning(left) => if left == 0 then FinishFan else Spawn
       case _ => SenderExit)
    case WorkerOf(i) =>
      if i >= |s.workers| then Cancel else
      (match s.workers[i]
       case Dequeuing => WorkerReturn(i)
       case Reporting => WorkerReturn(i)
       case Serving(_, _) => WorkerFail(i)
       case Sending(_, _) => WorkerFail(i)
       case _ => WorkerExit(i))
    case DrainOf(i) => DrainExit(i)
    case _ => Cancel
  }

  function RouterSteps(r: Router): nat {
    match r
    case Selecting => 1
    case Handling(rest) => 2 + |rest|
    case RouterGone => 0
  }

  function SenderSteps(s: Sender): nat {
    match s
    case Receiving => 1
    case Fanning(left) => 2 + left
    case SenderGone => 0
  }

  function WorkerSteps(w: Worker): nat {
    match w
    case Stopped => 0
    case Looping => 1
    case Serving(_, _) => 3
    case Sending(_, _) => 3
    case _ => 2
  }

  function DrainSteps(running: bool): nat {
    if running then 1 else 0
  }

  /** How many steps the tracked goroutines need to leave by the shortest way. */
  function ExitSteps(s: State): nat {
    (if s.collector.CollectorGone? then 0 else 1) + RouterSteps(s.router) + SenderSteps(s.sender) +
    Total(s.workers, WorkerSteps) + Total(s.drains, DrainSteps)
  }

  lemma WorkerLeaves(s: State, i: nat)
    requires s.cancelled && i < |s.workers| && !s.workers[i].Stopped?
    ensures var t := Transition(s, WayOut(s, WorkerOf(i)));
            t.Some? && t.value.cancelled && ExitSteps(t.value) < ExitSteps(s)
  {
    var w := s.workers[i];
    var failing := w.Serving? || w.Sending?;
    var next := if w.Looping? then Stopped else if failing && w.left == 0 then Reporting else Looping;
    TotalUpdate(s.workers, i, next, WorkerSteps);
  }

  /** After cancellation no tracked goroutine is stuck, whatever the channels hold: it has an enabled step
      of its own that brings it nearer to its exit. */
  lemma NobodyStuck(s: State, who: Who)
    requires s.cancelled && !Gone(s, who)
    ensures Owner(WayOut(s, who)) == who
    ensures var t := Transition(s, WayOut(s, who));
            t.Some? && t.value.cancelled && ExitSteps(t.value) < ExitSteps(s)
  {
    match who
    case WorkerOf(i) => WorkerLeaves(s, i);
    case DrainOf(i) => TotalUpdate(s.drains, i, false, DrainSteps);
    case _ =>
  }

  /** Only tracked goroutines move. */
  predicate AllTracked(run: seq<Label>) {
    forall i | 0 <= i < |run| :: !Owner(run[i]).Untracked? && !Owner(run[i]).Outside?
  }

  ghost predicate LeavesBy(s: State, run: seq<Label>) {
    AllTracked(run) && |run| <= ExitSteps(s) && After(s, run).Some? && AllGone(After(s, run).value)
  }

  lemma LeavesAfterStep(s: State, l: Label)
    requires Transition(s, l).Some? && !Owner(l).Untracked? && !Owner(l).Outside?
    requires ExitSteps(Transition(s, l).value) < ExitSteps(s)
    requires exists rest :: LeavesBy(Transition(s, l).value, rest)
    ensures exists run :: LeavesBy(s, run)
  {
    var next := Transition(s, l).value;
    var rest :| LeavesBy(next, rest);
    assert ([l] + rest)[1..] == rest;
    assert After(s, [l] + rest) == After(next, rest);
    assert LeavesBy(s, [l] + rest);
  }

  /** From every state after cancellation, all channels full or not, the tracked goroutines can all leave,
      in at most ExitSteps steps, all of them their own. */
  lemma {:induction false} ShutdownReachable(s: State)
    requires s.cancelled
    ensures exists run :: LeavesBy(s, run)
    decreases ExitSteps(s)
  {
    if AllGone(s) {
      var run: seq<Label> := [];
      assert LeavesBy(s, run);
    } else {
      var who :| !Gone(s, who);
      NobodyStuck(s, who);
      ShutdownReachable(Transition(s, WayOut(s, who)).value);
      LeavesAfterStep(s, WayOut(s, who));
    }
  }

  // ---------- the bounds ----------

  predicate Bounded(s: State) {
    |s.batches| <= 50 && |s.out| <= 50
  }

  lemma TaskKeepsBounds(s: State, l: Label, k: nat)
    requires Bounded(s) && k < |s.tasks| && TaskStep(s, l, k).Some?
    ensures Bounded(TaskStep(s, l, k).value)
  {
  }

  lemma WorkerKeepsBounds(s: State, l: Label, i: nat)
    requires Bounded(s) && i < |s.workers| && WorkerStep(s, l, i).Some?
    ensures Bounded(WorkerStep(s, l, i).value)
  {
  }

  lemma KeepsBounds(s: State, l: Label)
    requires Bounded(s) && Transition(s, l).Some?
    ensures Bounded(Transition(s, l).value)
  {
    match Owner(l)
    case Untracked(k) => TaskKeepsBounds(s, l, k);
    case WorkerOf(i) => WorkerKeepsBounds(s, l, i);
    case _ =>
  }

  lemma {:induction false} BoundedAfter(s: State, run: seq<Label>)
    requires Bounded(s) && After(s, run).Some?
    ensures Bounded(After(s, run).value)
    decreases run
  {
    if run != [] {
      KeepsBounds(s, run[0]);
      BoundedAfter(Transition(s, run[0]).value, run[1..]);
    }
  }

  /** Both channels hold at most 50 entries in every reachable state, and a send waits exactly while its channel
      holds 50. */
  lemma ChannelsAreBounded(queues: nat, slots: nat, run: seq<Label>)
    requires After(Init(queues, slots), run).Some?
    ensures var t := After(Init(queues, slots), run).value;
            && Bounded(t)
            && (t.collector.Pushing? ==> (Transition(t, Push).None? <==> |t.batches| == 50))
            && (forall k | 0 <= k < |t.tasks| && (t.tasks[k].Blocked? || t.tasks[k].AttemptSending?) ::
                  Transition(t, TaskSend(k)).None? <==> |t.out| == 50)
            && (forall i | 0 <= i < |t.workers| && t.workers[i].Sending? ::
                  Transition(t, WorkerSend(i)).None? <==> |t.out| == 50)
  {
    BoundedAfter(Init(queues, slots), run);
  }

  // ---------- reports do not block while the drains live ----------

  /** A task that may report knows a queue with a drain. */
  predicate QueueOk(queues: nat, t: Task) {
    match t
    case Attempting(q, _, _) => q < queues
    case AttemptSending(q, _, _) => q < queues
    case ReportingError(q) => q < queues
    case _ => true
  }

  predicate AllQueuesOk(queues: nat, tasks: seq<Task>) {
    forall t | t in tasks :: QueueOk(queues, t)
  }

  ghost predicate Fits(errors: seq<nat>, slots: nat) {
    forall q: nat :: multiset(errors)[q] <= slots
  }

  predicate DrainsLive(s: State) {
    |s.drains| == |s.workers| && (!s.cancelled ==> forall i | 0 <= i < |s.drains| :: s.drains[i])
  }

  /** The drains live until cancellation, there is one per worker, every report is for a queue that has one, and
      the Errors channels keep to their capacity. */
  ghost predicate Drained(s: State) {
    DrainsLive(s) && AllQueuesOk(|s.drains|, s.tasks) && Fits(s.errors, s.slots)
  }

  lemma RemoveFits(errors: seq<nat>, k: nat, slots: nat)
    requires k < |errors| && Fits(errors, slots)
    ensures Fits(RemoveAt(errors, k), slots)
  {
    RemoveAtMultiset(errors, k);
    forall q: nat ensures multiset(RemoveAt(errors, k))[q] <= slots {
      assert multiset(RemoveAt(errors, k))[q] <= multiset(errors)[q];
    }
  }

  lemma AppendFits(errors: seq<nat>, q: nat, slots: nat)
    requires Fits(errors, slots) && multiset(errors)[q] < slots
    ensures Fits(errors + [q], slots)
  {
    forall p: nat ensures multiset(errors + [q])[p] <= slots {
      assert multiset(errors + [q])[p] == multiset(errors)[p] + if p == q then 1 else 0;
    }
  }

  lemma TasksStayOk(queues: nat, tasks: seq<Task>, k: nat, t: Task)
    requires AllQueuesOk(queues, tasks) && k < |tasks|
    ensures AllQueuesOk(queues, RemoveAt(tasks, k))
    ensures QueueOk(queues, t) ==> AllQueuesOk(queues, tasks[k := t])
    ensures QueueOk(queues, tasks[k])
  {
    assert tasks[k] in tasks;
  }

  lemma RouterKeepsDrained(s: State, l: Label)
    requires Drained(s) && RouterStep(s, l).Some?
    ensures Drained(RouterStep(s, l).value)
  {
  }

  /** What a task that did not end has become. */
  function NextTask(s: State, l: Label, k: nat): Task
    requires k < |s.tasks|
  {
    match (s.tasks[k], l)
    case (Working(tees), _) => Blocked(tees)
    case (Attempting(q, tees, left), TaskReady(_)) => AttemptSending(q, tees, left)
    case (Attempting(q, tees, left), _) => if left > 0 then Adding(q, tees, left) else ReportingError(q)
    case (AttemptSending(q, tees, left), _) => if left > 0 then Adding(q, tees, left) else ReportingError(q)
    case (t, _) => t
  }

  lemma TaskStepShape(s: State, l: Label, k: nat)
    requires k < |s.tasks| && TaskStep(s, l, k).Some?
    ensures var t := TaskStep(s, l, k).value;
            && t.tasks in {RemoveAt(s.tasks, k), s.tasks[k := NextTask(s, l, k)]}
            && t.drains == s.drains && t.workers == s.workers && t.cancelled == s.cancelled && t.slots == s.slots
            && (t.errors != s.errors ==>
                  s.tasks[k].ReportingError? && HasSlot(s, s.tasks[k].queue) &&
                  t.errors == s.errors + [s.tasks[k].queue])
  {
  }

  lemma TaskKeepsDrained(s: State, l: Label, k: nat)
    requires Drained(s) && k < |s.tasks| && TaskStep(s, l, k).Some?
    ensures Drained(TaskStep(s, l, k).value)
  {
    TaskStepShape(s, l, k);
    TasksStayOk(|s.drains|, s.tasks, k, NextTask(s, l, k));
    if s.tasks[k].ReportingError? && HasSlot(s, s.tasks[k].queue) {
      AppendFits(s.errors, s.tasks[k].queue, s.slots);
    }
  }

  lemma WorkerStepShape(s: State, l: Label, i: nat)
    requires i < |s.workers| && WorkerStep(s, l, i).Some?
    ensures var t := WorkerStep(s, l, i).value;
            && |t.workers| == |s.workers| && t.drains == s.drains && t.cancelled == s.cancelled && t.slots == s.slots
            && (t.tasks != s.tasks ==>
                  exists task :: t.tasks == s.tasks + [task] && (task.Attempting? ==> task.queue == i) &&
                                 (task.Adding? || task.Attempting?))
            && (t.errors != s.errors ==> HasSlot(s, i) && t.errors == s.errors + [i])
  {
  }

  lemma WorkerKeepsDrained(s: State, l: Label, i: nat)
    requires Drained(s) && i < |s.workers| && WorkerStep(s, l, i).Some?
    ensures Drained(WorkerStep(s, l, i).value)
  {
    WorkerStepShape(s, l, i);
    if HasSlot(s, i) {
      AppendFits(s.errors, i, s.slots);
    }
  }

  lemma DrainKeepsDrained(s: State, l: Label, i: nat)
    requires Drained(s) && i < |s.drains| && DrainStep(s, l, i).Some?
    ensures Drained(DrainStep(s, l, i).value)
  {
    if l.DrainLog? {
      RemoveFits(s.errors, l.k, s.slots);
    }
  }

  lemma OthersKeepDrained(s: State, l: Label)
    requires Drained(s) && Transition(s, l).Some?
    requires Owner(l).TheCollector? || Owner(l).TheSender? || Owner(l).Outside?
    ensures Drained(Transition(s, l).value)
  {
  }

  lemma SlotsAreFixed(s: State, l: Label)
    requires Transition(s, l).Some?
    ensures Transition(s, l).value.slots == s.slots
  {
    if Owner(l).Untracked? {
      TaskStepShape(s, l, Owner(l).k);
    }
    if Owner(l).WorkerOf? {
      WorkerStepShape(s, l, Owner(l).i);
    }
  }

  lemma KeepsDrained(s: State, l: Label)
    requires Drained(s) && Transition(s, l).Some?
    ensures Drained(Transition(s, l).value)
  {
    match Owner(l)
    case TheRouter => RouterKeepsDrained(s, l);
    case WorkerOf(i) => WorkerKeepsDrained(s, l, i);
    case DrainOf(i) => DrainKeepsDrained(s, l, i);
    case Untracked(k) => TaskKeepsDrained(s, l, k);
    case _ => OthersKeepDrained(s, l);
  }

  lemma {:induction false} DrainedAfter(s: State, run: seq<Label>)
    requires Drained(s) && After(s, run).Some?
    ensures Drained(After(s, run).value) && After(s, run).value.slots == s.slots
    decreases run
  {
    if run != [] {
      KeepsDrained(s, run[0]);
      SlotsAreFixed(s, run[0]);
      DrainedAfter(Transition(s, run[0]).value, run[1..]);
    }
  }

  /** There is room for a report, or the queue's drain can make room now. */
  ghost predicate CanReport(s: State, queue: nat) {
    HasSlot(s, queue) ||
    exists k: nat :: Transition(s, DrainLog(queue, k)).Some? && HasSlot(Transition(s, DrainLog(queue, k)).value, queue)
  }

  lemma DrainMakesRoom(s: State, queue: nat)
    requires Drained(s) && !s.cancelled && queue < |s.drains| && s.slots > 0
    ensures CanReport(s, queue)
  {
    if !HasSlot(s, queue) {
      assert queue in multiset(s.errors);
      var k: nat :| k < |s.errors| && s.errors[k] == queue;
      RemoveAtMultiset(s.errors, k);
      assert Owner(DrainLog(queue, k)) == DrainOf(queue);
      assert Transition(s, DrainLog(queue, k)) == Some(s.(errors := RemoveAt(s.errors, k)));
    }
  }

  /** In every reachable state that is not cancelled, no worker and no processing goroutine is stuck with the
      error of a last attempt: its queue's drain is alive and makes room. Once cancelled, NobodyStuck applies. */
  lemma ReportersNeverStuck(queues: nat, slots: nat, run: seq<Label>)
    requires slots > 0 && After(Init(queues, slots), run).Some? && !After(Init(queues, slots), run).value.cancelled
    ensures var t := After(Init(queues, slots), run).value;
            && (forall i: nat | i < |t.workers| && t.workers[i].Reporting? :: CanReport(t, i))
            && (forall k: nat | k < |t.tasks| && t.tasks[k].ReportingError? :: CanReport(t, t.tasks[k].queue))
  {
    var t := After(Init(queues, slots), run).value;
    DrainedAfter(Init(queues, slots), run);
    forall i: nat | i < |t.workers| && t.workers[i].Reporting? ensures CanReport(t, i) {
      DrainMakesRoom(t, i);
    }
    forall k: nat | k < |t.tasks| && t.tasks[k].ReportingError? ensures CanReport(t, t.tasks[k].queue) {
      assert t.tasks[k] in t.tasks;
      DrainMakesRoom(t, t.tasks[k].queue);
    }
  }

  // ---------- once the collector has left, everything runs out ----------

  function RouteCost(l: Entry): nat {
    match l.route
    case NoProcessor => 1
    case ToProcessor => 2 * l.tees + 5
    case ToQueue(_, attempts) => 2 * l.tees + 6 + 4 * attempts
  }

  function BatchCost(batch: seq<Entry>): nat {
    2 + Total(batch, RouteCost)
  }

  function RouterCost(r: Router): nat {
    match r
    case Selecting => 1
    case Handling(rest) => BatchCost(rest)
    case RouterGone => 0
  }

  function TaskCost(t: Task): nat {
    match t
    case Working(tees) => 2 * tees + 4
    case Blocked(tees) => 2 * tees + 3
    case Adding(_, tees, left) => 2 * tees + 5 + 4 * left
    case Attempting(_, tees, left) => 2 * tees + 7 + 4 * left
    case AttemptSending(_, tees, left) => 2 * tees + 6 + 4 * left
    case ReportingError(_) => 2
  }

  function QueuedCost(q: Queued): nat {
    2 * q.tees + 4 + 4 * q.left
  }

  function WorkerCost(w: Worker): nat {
    match w
    case Stopped => 0
    case Looping => 1
    case Dequeuing => 2
    case Serving(tees, left) => 2 * tees + 9 + 4 * left
    case Sending(tees, left) => 2 * tees + 8 + 4 * left
    case Reporting => 3
  }

  function OutCost(tees: nat): nat {
    2 * tees + 2
  }

  function SenderCost(s: Sender): nat {
    match s
    case Receiving => 1
    case Fanning(left) => 2 + 2 * left
    case SenderGone => 0
  }

  /** Buffered batches, remaining events, tasks, attempts left, buffered instructions, pending sends. */
  function Remaining(s: State): nat {
    Total(s.batches, BatchCost) + RouterCost(s.router) + Total(s.tasks, TaskCost) + Total(s.queued, QueuedCost) +
    Total(s.workers, WorkerCost) + Total(s.drains, DrainSteps) + |s.errors| + Total(s.out, OutCost) +
    SenderCost(s.sender) + s.sends
  }

  predicate Draining(s: State) {
    s.collector.CollectorGone? && s.cancelled
  }

  lemma RouterRunsOut(s: State, l: Label)
    requires RouterStep(s, l).Some?
    ensures Remaining(RouterStep(s, l).value) < Remaining(s)
  {
    match l
    case ReceiveBatch => TotalHead(s.batches, BatchCost);
    case HandleLog =>
      var rest := s.router.rest;
      TotalHead(rest, RouteCost);
      match rest[0].route {
        case NoProcessor => assert s.tasks + [] == s.tasks;
        case ToProcessor => TotalAppend(s.tasks, Working(rest[0].tees), TaskCost);
        case ToQueue(q, attempts) => TotalAppend(s.tasks, Adding(q, rest[0].tees, attempts), TaskCost);
      }
    case _ =>
  }

  lemma SenderRunsOut(s: State, l: Label)
    requires SenderStep(s, l).Some?
    ensures Remaining(SenderStep(s, l).value) < Remaining(s)
  {
    if l.ReceiveInstruction? {
      TotalHead(s.out, OutCost);
    }
  }

  lemma PlainTaskRunsOut(s: State, l: Label, k: nat)
    requires k < |s.tasks| && (s.tasks[k].Working? || s.tasks[k].Blocked?) && TaskStep(s, l, k).Some?
    ensures Remaining(TaskStep(s, l, k).value) < Remaining(s)
  {
    TotalRemove(s.tasks, k, TaskCost);
    match l
    case TaskReady(_) => TotalUpdate(s.tasks, k, Blocked(s.tasks[k].tees), TaskCost);
    case TaskSend(_) => TotalAppend(s.out, s.tasks[k].tees, OutCost);
    case _ =>
  }

  lemma QueueTaskRunsOut(s: State, l: Label, k: nat)
    requires k < |s.tasks| && (s.tasks[k].Adding? || s.tasks[k].ReportingError?) && TaskStep(s, l, k).Some?
    ensures Remaining(TaskStep(s, l, k).value) < Remaining(s)
  {
    TotalRemove(s.tasks, k, TaskCost);
    if l.TaskAdd? {
      TotalAppend(s.queued, Queued(s.tasks[k].queue, s.tasks[k].tees, s.tasks[k].left), QueuedCost);
    }
  }

  lemma AttemptRunsOut(s: State, l: Label, k: nat)
    requires k < |s.tasks| && (s.tasks[k].Attempting? || s.tasks[k].AttemptSending?) && TaskStep(s, l, k).Some?
    ensures Remaining(TaskStep(s, l, k).value) < Remaining(s)
  {
    var task := s.tasks[k];
    TotalRemove(s.tasks, k, TaskCost);
    match l
    case TaskReady(_) => TotalUpdate(s.tasks, k, AttemptSending(task.queue, task.tees, task.left), TaskCost);
    case TaskSend(_) => TotalAppend(s.out, task.tees, OutCost);
    case TaskAbort(_) =>
      var next := if task.left > 0 then Adding(task.queue, task.tees, task.left) else ReportingError(task.queue);
      TotalUpdate(s.tasks, k, next, TaskCost);
    case _ =>
  }

  lemma TaskRunsOut(s: State, l: Label, k: nat)
    requires k < |s.tasks| && TaskStep(s, l, k).Some?
    ensures Remaining(TaskStep(s, l, k).value) < Remaining(s)
  {
    if s.tasks[k].Working? || s.tasks[k].Blocked? {
      PlainTaskRunsOut(s, l, k);
    } else if s.tasks[k].Adding? || s.tasks[k].ReportingError? {
      QueueTaskRunsOut(s, l, k);
    } else {
      AttemptRunsOut(s, l, k);
    }
  }

  lemma IdleWorkerRunsOut(s: State, l: Label, i: nat)
    requires s.cancelled && i < |s.workers| && !s.workers[i].Serving? && !s.workers[i].Sending? &&
              WorkerStep(s, l, i).Some?
    ensures Remaining(WorkerStep(s, l, i).value) < Remaining(s)
  {
    match l
    case WorkerExit(_) => TotalUpdate(s.workers, i, Stopped, WorkerCost);
    case WorkerTake(_, k, inline) => TakeRunsOut(s, i, k, inline);
    case _ => TotalUpdate(s.workers, i, Looping, WorkerCost);
  }

  lemma WorkerFailRunsOut(s: State, i: nat)
    requires i < |s.workers| && (s.workers[i].Serving? || s.workers[i].Sending?)
    ensures Remaining(WorkerFailed(s, i, s.workers[i].tees, s.workers[i].left)) < Remaining(s)
  {
    var worker := s.workers[i];
    if worker.left > 0 {
      TotalUpdate(s.workers, i, Looping, WorkerCost);
      TotalAppend(s.tasks, Adding(i, worker.tees, worker.left), TaskCost);
    } else {
      TotalUpdate(s.workers, i, Reporting, WorkerCost);
    }
  }

  lemma BusyWorkerRunsOut(s: State, l: Label, i: nat)
    requires i < |s.workers| && (s.workers[i].Serving? || s.workers[i].Sending?) && WorkerStep(s, l, i).Some?
    ensures Remaining(WorkerStep(s, l, i).value) < Remaining(s)
  {
    var worker := s.workers[i];
    TotalUpdate(s.workers, i, Looping, WorkerCost);
    match l
    case WorkerReady(_) => TotalUpdate(s.workers, i, Sending(worker.tees, worker.left), WorkerCost);
    case WorkerFail(_) => WorkerFailRunsOut(s, i);
    case WorkerSend(_) => TotalAppend(s.out, worker.tees, OutCost);
    case _ =>
  }

  lemma WorkerRunsOut(s: State, l: Label, i: nat)
    requires s.cancelled && i < |s.workers| && WorkerStep(s, l, i).Some?
    ensures Remaining(WorkerStep(s, l, i).value) < Remaining(s)
  {
    if s.workers[i].Serving? || s.workers[i].Sending? {
      BusyWorkerRunsOut(s, l, i);
    } else {
      IdleWorkerRunsOut(s, l, i);
    }
  }

  lemma TakeRunsOut(s: State, i: nat, k: nat, inline: bool)
    requires i < |s.workers| && s.workers[i].Dequeuing? && Took(s, i, k, inline).Some?
    ensures Remaining(Took(s, i, k, inline).value) < Remaining(s)
  {
    var item := s.queued[k];
    TotalRemove(s.queued, k, QueuedCost);
    if inline {
      TotalUpdate(s.workers, i, Serving(item.tees, item.left - 1), WorkerCost);
    } else {
      TotalUpdate(s.workers, i, Looping, WorkerCost);
      TotalAppend(s.tasks, Attempting(i, item.tees, item.left - 1), TaskCost);
    }
  }

  lemma DrainRunsOut(s: State, l: Label, i: nat)
    requires i < |s.drains| && DrainStep(s, l, i).Some?
    ensures Remaining(DrainStep(s, l, i).value) < Remaining(s)
  {
    TotalUpdate(s.drains, i, false, DrainSteps);
  }

  lemma StillDraining(s: State, l: Label)
    requires Draining(s) && Transition(s, l).Some?
    ensures Draining(Transition(s, l).value) && !Owner(l).TheCollector? && !l.Cancel?
  {
  }

  /** Every step of every goroutine, tracked or not, uses up some of what remains. */
  lemma StepsRunOut(s: State, l: Label)
    requires Draining(s) && Transition(s, l).Some?
    ensures Remaining(Transition(s, l).value) < Remaining(s)
  {
    StillDraining(s, l);
    match Owner(l)
    case TheRouter => RouterRunsOut(s, l);
    case TheSender => SenderRunsOut(s, l);
    case WorkerOf(i) => WorkerRunsOut(s, l, i);
    case DrainOf(i) => DrainRunsOut(s, l, i);
    case Untracked(k) => TaskRunsOut(s, l, k);
    case _ =>
  }

  lemma {:induction false} RunsEnd(s: State, run: seq<Label>)
    requires Draining(s) && After(s, run).Some?
    ensures Draining(After(s, run).value) && |run| + Remaining(After(s, run).value) <= Remaining(s)
    decreases run
  {
    if run != [] {
      StepsRunOut(s, run[0]);
      StillDraining(s, run[0]);
      RunsEnd(Transition(s, run[0]).value, run[1..]);
    }
  }

  lemma {:induction false} CollectorLeavesCancelled(s: State, run: seq<Label>)
    requires s.collector.CollectorGone? ==> s.cancelled
    requires After(s, run).Some?
    ensures After(s, run).value.collector.CollectorGone? ==> After(s, run).value.cancelled
    decreases run
  {
    if run != [] {
      CollectorLeavesCancelled(Transition(s, run[0]).value, run[1..]);
    }
  }

  /** Shutdown cannot fail to finish: in every run, whatever happened before the collector left, at most
      Remaining steps follow, and the run cannot stop before every tracked goroutine has left and every
      task has ended. */
  lemma ShutdownInevitable(queues: nat, slots: nat, before: seq<Label>, run: seq<Label>)
    requires After(Init(queues, slots), before).Some?
    requires After(Init(queues, slots), before).value.collector.CollectorGone?
    requires After(After(Init(queues, slots), before).value, run).Some?
    ensures var s := After(Init(queues, slots), before).value;
            var t := After(s, run).value;
            && |run| <= Remaining(s)
            && ((forall l :: Transition(t, l).None?) ==> AllGone(t) && t.tasks == [] && t.sends == 0)
  {
    CollectorLeavesCancelled(Init(queues, slots), before);
    var s := After(Init(queues, slots), before).value;
    RunsEnd(s, run);
    var t := After(s, run).value;
    if forall l :: Transition(t, l).None? {
      QuietIsGone(t);
    }
  }

  /** Once cancelled, a state in which nothing can move is one in which everything has left. */
  lemma QuietIsGone(t: State)
    requires t.cancelled && forall l :: Transition(t, l).None?
    ensures AllGone(t) && t.tasks == [] && t.sends == 0
  {
    forall who ensures Gone(t, who) {
      if !Gone(t, who) {
        NobodyStuck(t, who);
      }
    }
    if t.tasks != [] || t.sends > 0 {
      LeftoversMove(t);
    }
  }

  lemma LeftoversMove(t: State)
    requires t.cancelled && (t.tasks != [] || t.sends > 0)
    ensures exists l :: Transition(t, l).Some?
  {
    if t.sends > 0 {
      assert Transition(t, SendDone).Some?;
    } else {
      var l := if t.tasks[0].Working? then TaskEnd(0) else TaskAbort(0);
      assert Owner(l) == Untracked(0) && TaskStep(t, l, 0).Some?;
      assert Transition(t, l).Some?;
    }
  }
}

/**
  Overlapped operations of the IOCP backend (src/iocp/mod.rs, src/iocp/net.rs): how a reference to the memory an
  operation writes to is handed to the completion port, and taken back by the thread that dequeues the completion.

  A future creates the task, clones it, makes the system call with the clone and forgets it; from then on that
  reference is the operation's.  Every step of every thread is one action; `Port` is a completion port with any
  number of operations and threads.
*/
module Overlapped {
  import opened Prelude

  type ThreadId = nat

  /** Where the future that owns the task is; the number of handles it has follows from it. */
  datatype Stage =
    | Initial
    | Created                    // OverlappedTask::new
    | Cloned                     // the clone for for_operation exists
    | Refused                    // the call failed, the clone is still there
    | Accepted(complete: bool)   // the call succeeded, mem::forget to come; maybe it has completed at once
    | Pending
    | Registered                 // in a later poll: registered, the status still to be read
    | Cancelling                 // dropped while pending
    | Leaving                    // about to drop its handle
    | Gone

  datatype Operation =
    | NotSubmitted
    | InKernel
    | Queued                     // its completion is in the port
    | Reclaimed(who: ThreadId)    // dequeued, Arc::from_raw done
    | Notified(who: ThreadId)
    | Released

  datatype Task = Task(stage: Stage, op: Operation, strong: int, woken: bool, submissions: nat, reclaims: nat)

  /** `busy` are the threads with a dequeued completion in hand. */
  datatype Port = Port(tasks: seq<Task>, queue: seq<nat>, busy: map<ThreadId, nat>)

  /** Steps on one task: the future's, and the kernel's. */
  datatype TaskStep =
    | Create | Clone | Call(ok: bool, complete: bool) | DropClone | Forget
    | Register | ReadStatus | Abandon | Cancel | LetGo
    | Complete

  datatype Action =
    | NewFuture
    | On(t: nat, step: TaskStep)
    | Dequeue(w: ThreadId) | Notify(w: ThreadId) | Release(w: ThreadId)    // a thread in poll_iocp

  const EMPTY: Port := Port([], [], map[])
  const FRESH: Task := Task(Initial, NotSubmitted, 0, false, 0, 0)

  predicate StepEnabled(k: Task, a: TaskStep)
  {
    match a
    case Create => k.stage == Initial
    case Clone => k.stage == Created
    case Call(_, _) => k.stage == Cloned
    case DropClone => k.stage == Refused
    case Forget => k.stage.Accepted?
    case Register => k.stage == Pending
    case ReadStatus => k.stage == Registered
    case Abandon => k.stage == Pending || k.stage == Initial
    case Cancel => k.stage == Cancelling
    case LetGo => k.stage == Leaving
    case Complete => k.op == InKernel
  }

  function Step(k: Task, a: TaskStep): Task
    requires StepEnabled(k, a)
  {
    match a
    case Create => k.(stage := Created, strong := 1)
    case Clone => k.(stage := Cloned, strong := k.strong + 1)
    case Call(ok, complete) =>
      if ok then k.(stage := Accepted(complete), op := InKernel, submissions := k.submissions + 1) else k.(stage := Refused)
    case DropClone => k.(stage := Leaving, strong := k.strong - 1)
    case Forget => k.(stage := if k.stage.complete then Leaving else Pending)
    case Register => k.(stage := Registered, woken := false)
    case ReadStatus => k.(stage := if k.op == InKernel then Pending else Leaving)
    case Abandon => k.(stage := if k.stage == Pending then Cancelling else Gone)
    case Cancel => k.(stage := Leaving)
    case LetGo => k.(stage := Gone, strong := k.strong - 1)
    case Complete => k.(op := Queued)
  }

  predicate Enabled(p: Port, a: Action)
  {
    match a
    case NewFuture => true
    case On(t, step) => t < |p.tasks| && StepEnabled(p.tasks[t], step)
    case Dequeue(w) => w !in p.busy && p.queue != [] && p.queue[0] < |p.tasks|
    case Notify(w) => w in p.busy && p.busy[w] < |p.tasks| && p.tasks[p.busy[w]].op == Reclaimed(w)
    case Release(w) => w in p.busy && p.busy[w] < |p.tasks| && p.tasks[p.busy[w]].op == Notified(w)
  }

  function Put(p: Port, t: nat, k: Task): Port
    requires t < |p.tasks|
  {
    p.(tasks := p.tasks[t := k])
  }

  function Apply(p: Port, a: Action): Port
    requires Enabled(p, a)
  {
    match a
    case NewFuture => p.(tasks := p.tasks + [FRESH])
    case On(t, step) => Put(p, t, Step(p.tasks[t], step)).(queue := if step == Complete then p.queue + [t] else p.queue)
    case Dequeue(w) =>
      var t := p.queue[0];
      Put(p, t, p.tasks[t].(op := Reclaimed(w))).(queue := p.queue[1..], busy := p.busy[w := t])
    case Notify(w) =>
      var t := p.busy[w];
      Put(p, t, p.tasks[t].(op := Notified(w), woken := true))
    case Release(w) =>
      var t := p.busy[w];
      var k := p.tasks[t];
      Put(p, t, k.(op := Released, strong := k.strong - 1, reclaims := k.reclaims + 1)).(busy := p.busy - {w})
  }

  // ---------------------------------------------------------------------------------------------------------
  // What every step keeps

  /** Handles the future has; the forgotten clone is no longer one of them. */
  function Handles(stage: Stage): nat
  {
    if stage == Initial || stage == Gone then 0 else if stage == Cloned || stage == Refused then 2 else 1
  }

  /** The operation, or the thread that dequeued it, has the reference that was handed to the port. */
  predicate Outstanding(op: Operation) { op.InKernel? || op.Queued? || op.Reclaimed? || op.Notified? }

  predicate BeforeCall(stage: Stage) { stage == Initial || stage == Created || stage == Cloned || stage == Refused }

  /** The strong count: the handles of the future, and the reference of an operation in progress. */
  predicate CountOK(k: Task) { k.strong == Handles(k.stage) + (if Outstanding(k.op) then 1 else 0) }

  /** Nothing is submitted before the call, and one operation at most. */
  predicate CallOK(k: Task)
  {
    && k.submissions == One(k.op != NotSubmitted) && k.reclaims == One(k.op == Released)
    && (BeforeCall(k.stage) ==> k.op == NotSubmitted)
    && (Awaiting(k.stage) || k.stage == Registered || k.stage == Cancelling ==> k.op != NotSubmitted)
  }

  /** The future has registered for the completion, which is still to be notified, or has been since. */
  predicate WakeOK(k: Task)
  {
    Awaiting(k.stage) ==> k.woken || k.op == NotSubmitted || k.op == InKernel || k.op == Queued || k.op.Reclaimed?
  }

  predicate Awaiting(stage: Stage) { stage.Accepted? || stage == Pending }

  predicate TaskOK(k: Task) { CountOK(k) && CallOK(k) && WakeOK(k) }

  predicate Distinct(q: seq<nat>) { forall i, j :: 0 <= i < j < |q| ==> q[i] != q[j] }

  /** Whose hands an operation says it is in. */
  predicate HeldBy(op: Operation, w: ThreadId) { op == Reclaimed(w) || op == Notified(w) }

  ghost predicate TasksOK(tasks: seq<Task>) { forall t :: 0 <= t < |tasks| ==> TaskOK(tasks[t]) }

  /** The port has exactly the completions of the queued operations, each once. */
  ghost predicate QueueOK(tasks: seq<Task>, queue: seq<nat>)
  {
    Distinct(queue) && forall t: nat :: t in queue <==> t < |tasks| && tasks[t].op == Queued
  }

  /** A thread has exactly the operation that says so. */
  ghost predicate HandsOK(tasks: seq<Task>, busy: map<ThreadId, nat>)
  {
    && (forall w :: w in busy ==> busy[w] < |tasks| && HeldBy(tasks[busy[w]].op, w))
    && (forall t, w: ThreadId :: 0 <= t < |tasks| && HeldBy(tasks[t].op, w) ==> w in busy && busy[w] == t)
  }

  ghost predicate Inv(p: Port) { TasksOK(p.tasks) && QueueOK(p.tasks, p.queue) && HandsOK(p.tasks, p.busy) }

  lemma StepKeepsCall(k: Task, a: TaskStep)
    requires CallOK(k) && StepEnabled(k, a)
    ensures CallOK(Step(k, a))
    ensures Step(k, a).op == if a == Complete then Queued else if a.Call? && a.ok then InKernel else k.op
    ensures a == Complete ==> k.op == InKernel
    ensures a.Call? ==> k.op == NotSubmitted
  {
  }

  lemma StepKeepsCount(k: Task, a: TaskStep)
    requires CountOK(k) && CallOK(k) && StepEnabled(k, a)
    ensures CountOK(Step(k, a))
  {
  }

  lemma StepKeepsWake(k: Task, a: TaskStep)
    requires WakeOK(k) && CallOK(k) && StepEnabled(k, a)
    ensures WakeOK(Step(k, a))
  {
  }

  lemma StepKeepsTask(k: Task, a: TaskStep)
    requires TaskOK(k) && StepEnabled(k, a)
    ensures TaskOK(Step(k, a))
    ensures Step(k, a).op == if a == Complete then Queued else if a.Call? && a.ok then InKernel else k.op
    ensures a == Complete ==> k.op == InKernel
    ensures a.Call? ==> k.op == NotSubmitted
  {
    hide CallOK, CountOK, WakeOK;
    StepKeepsCall(k, a);
    StepKeepsCount(k, a);
    StepKeepsWake(k, a);
  }

  /** A task changes without changing hands. */
  lemma SameHands(tasks: seq<Task>, queue: seq<nat>, busy: map<ThreadId, nat>, t: nat, k: Task)
    requires TasksOK(tasks) && QueueOK(tasks, queue) && HandsOK(tasks, busy) && t < |tasks| && TaskOK(k)
    requires k.op == tasks[t].op || (!k.op.Queued? && !tasks[t].op.Queued? && forall w :: HeldBy(k.op, w) <==> HeldBy(tasks[t].op, w))
    ensures TasksOK(tasks[t := k]) && QueueOK(tasks[t := k], queue) && HandsOK(tasks[t := k], busy)
  {
    hide TaskOK;
  }

  lemma QueuedInto(tasks: seq<Task>, queue: seq<nat>, busy: map<ThreadId, nat>, t: nat, k: Task)
    requires TasksOK(tasks) && QueueOK(tasks, queue) && HandsOK(tasks, busy) && t < |tasks| && TaskOK(k)
    requires tasks[t].op == InKernel && k.op == Queued
    ensures TasksOK(tasks[t := k]) && QueueOK(tasks[t := k], queue + [t]) && HandsOK(tasks[t := k], busy)
  {
    hide TaskOK;
    assert t !in queue;
  }

  lemma KeepOn(p: Port, t: nat, a: TaskStep)
    requires Inv(p) && Enabled(p, On(t, a))
    ensures Inv(Apply(p, On(t, a)))
  {
    var k := Step(p.tasks[t], a);
    assert TaskOK(p.tasks[t]);
    StepKeepsTask(p.tasks[t], a);
    hide TaskOK, Step, TasksOK, QueueOK, HandsOK;
    if a == Complete { QueuedInto(p.tasks, p.queue, p.busy, t, k); } else { SameHands(p.tasks, p.queue, p.busy, t, k); }
  }

  lemma KeepNew(p: Port)
    requires Inv(p)
    ensures Inv(Apply(p, NewFuture))
  {
    assert TaskOK(FRESH);
    hide TaskOK;
  }

  lemma Dequeued(k: Task, w: ThreadId)
    requires TaskOK(k) && k.op == Queued
    ensures TaskOK(k.(op := Reclaimed(w)))
  {
  }

  lemma DequeuedFrom(tasks: seq<Task>, queue: seq<nat>, t: nat, k: Task)
    requires TasksOK(tasks) && QueueOK(tasks, queue) && t < |tasks| && TaskOK(k) && !k.op.Queued? && queue != [] && queue[0] == t
    ensures TasksOK(tasks[t := k]) && QueueOK(tasks[t := k], queue[1..])
  {
    hide TaskOK, Distinct;
    DistinctTail(queue);
  }

  lemma DequeuedBy(tasks: seq<Task>, busy: map<ThreadId, nat>, t: nat, k: Task, w: ThreadId)
    requires HandsOK(tasks, busy) && t < |tasks| && tasks[t].op == Queued && k.op == Reclaimed(w) && w !in busy
    ensures HandsOK(tasks[t := k], busy[w := t])
  {
  }

  lemma KeepDequeue(p: Port, w: ThreadId)
    requires Inv(p) && Enabled(p, Dequeue(w))
    ensures Inv(Apply(p, Dequeue(w)))
  {
    var t := p.queue[0];
    var k := p.tasks[t].(op := Reclaimed(w));
    assert t in p.queue;
    Dequeued(p.tasks[t], w);
    hide TaskOK, TasksOK, QueueOK, HandsOK;
    DequeuedFrom(p.tasks, p.queue, t, k);
    DequeuedBy(p.tasks, p.busy, t, k, w);
  }

  lemma DistinctTail(q: seq<nat>)
    requires Distinct(q) && q != []
    ensures Distinct(q[1..]) && forall t: nat :: t in q[1..] <==> t in q && t != q[0]
  {
    forall t: nat | t in q && t != q[0] ensures t in q[1..] {
      var i :| 0 <= i < |q| && q[i] == t;
      assert q[1..][i - 1] == t;
    }
  }

  lemma Woken(k: Task, w: ThreadId)
    requires TaskOK(k) && k.op == Reclaimed(w)
    ensures TaskOK(k.(op := Notified(w), woken := true))
  {
  }

  lemma KeepNotify(p: Port, w: ThreadId)
    requires Inv(p) && Enabled(p, Notify(w))
    ensures Inv(Apply(p, Notify(w)))
  {
    var t := p.busy[w];
    assert TaskOK(p.tasks[t]);
    Woken(p.tasks[t], w);
    hide TaskOK, TasksOK, QueueOK, HandsOK;
    SameHands(p.tasks, p.queue, p.busy, t, p.tasks[t].(op := Notified(w), woken := true));
  }

  lemma Dropped(k: Task, w: ThreadId)
    requires TaskOK(k) && k.op == Notified(w)
    ensures TaskOK(k.(op := Released, strong := k.strong - 1, reclaims := k.reclaims + 1))
  {
  }

  lemma ReleasedBy(tasks: seq<Task>, queue: seq<nat>, busy: map<ThreadId, nat>, w: ThreadId, k: Task)
    requires TasksOK(tasks) && QueueOK(tasks, queue) && HandsOK(tasks, busy) && w in busy && busy[w] < |tasks|
    requires HeldBy(tasks[busy[w]].op, w) && k.op == Released && TaskOK(k)
    ensures TasksOK(tasks[busy[w] := k]) && QueueOK(tasks[busy[w] := k], queue) && HandsOK(tasks[busy[w] := k], busy - {w})
  {
    hide TaskOK, Distinct;
  }

  lemma KeepRelease(p: Port, w: ThreadId)
    requires Inv(p) && Enabled(p, Release(w))
    ensures Inv(Apply(p, Release(w)))
  {
    var k := p.tasks[p.busy[w]];
    Dropped(k, w);
    hide TaskOK, TasksOK, QueueOK, HandsOK;
    ReleasedBy(p.tasks, p.queue, p.busy, w, k.(op := Released, strong := k.strong - 1, reclaims := k.reclaims + 1));
  }

  lemma StepKeepsInv(p: Port, a: Action)
    requires Inv(p) && Enabled(p, a)
    ensures Inv(Apply(p, a))
  {
    hide Inv, Enabled, Apply;
    match a {
      case NewFuture => KeepNew(p);
      case On(t, step) => KeepOn(p, t, step);
      case Dequeue(w) => KeepDequeue(p, w);
      case Notify(w) => KeepNotify(p, w);
      case Release(w) => KeepRelease(p, w);
    }
  }

  predicate Legal(p: Port, run: seq<Action>)
    decreases |run|
  {
    run == [] || (Enabled(p, run[0]) && Legal(Apply(p, run[0]), run[1..]))
  }

  function Exec(p: Port, run: seq<Action>): Port
    requires Legal(p, run)
    decreases |run|
  {
    if run == [] then p else Exec(Apply(p, run[0]), run[1..])
  }

  lemma {:induction false} RunKeepsInv(p: Port, run: seq<Action>)
    requires Inv(p) && Legal(p, run)
    ensures Inv(Exec(p, run))
    decreases |run|
  {
    hide Inv;
    if run != [] {
      StepKeepsInv(p, run[0]);
      RunKeepsInv(Apply(p, run[0]), run[1..]);
    }
  }

  ghost predicate Reachable(p: Port) { exists run :: Legal(EMPTY, run) && p == Exec(EMPTY, run) }

  lemma ReachableInv(p: Port)
    requires Reachable(p)
    ensures Inv(p)
  {
    var run :| Legal(EMPTY, run) && p == Exec(EMPTY, run);
    assert Inv(EMPTY);
    RunKeepsInv(EMPTY, run);
  }

  // ---------------------------------------------------------------------------------------------------------
  // What that means for the memory

  /** An operation the kernel may still write to, or whose completion is in the port. */
  predicate Submitted(k: Task) { k.op == InKernel || k.op == Queued }

  /**
    Ownership: the strong count is the future's handles, one for an operation submitted and not yet dequeued, and
    one for the thread that has it dequeued.  So the memory lives while the kernel can reach it, whether the
    future is still waiting, has finished, failed, or was dropped and cancelled; and it is released exactly when
    the future is gone and its operation, if any, has been reclaimed.
  */
  lemma OwnershipConserved(p: Port, t: nat)
    requires Reachable(p) && t < |p.tasks|
    ensures var k := p.tasks[t];
            && k.strong == Handles(k.stage) + One(Submitted(k)) + One(exists w :: w in p.busy && p.busy[w] == t)
            && (Submitted(k) ==> k.strong > 0)
            && (k.strong == 0 <==> (k.stage == Gone && (k.op == NotSubmitted || k.op == Released)) || k.stage == Initial)
  {
    ReachableInv(p);
    TaskInHand(p, t);
    assert TaskOK(p.tasks[t]);
    hide Inv, TasksOK, QueueOK, HandsOK;
    OwnersOf(p.tasks[t]);
  }

  lemma TaskInHand(p: Port, t: nat)
    requires HandsOK(p.tasks, p.busy) && t < |p.tasks|
    ensures (exists w :: w in p.busy && p.busy[w] == t) <==> p.tasks[t].op.Reclaimed? || p.tasks[t].op.Notified?
  {
    if p.tasks[t].op.Reclaimed? || p.tasks[t].op.Notified? {
      var w := p.tasks[t].op.who;
      assert HeldBy(p.tasks[t].op, w) && w in p.busy;
    }
  }

  lemma OwnersOf(k: Task)
    requires TaskOK(k)
    ensures k.strong == Handles(k.stage) + One(Submitted(k)) + One(k.op.Reclaimed? || k.op.Notified?)
    ensures Submitted(k) ==> k.strong > 0
    ensures k.strong == 0 <==> (k.stage == Gone && (k.op == NotSubmitted || k.op == Released)) || k.stage == Initial
  {
  }

  /** Each future submits at most one operation, and the reference handed over is taken back once, after it. */
  lemma SubmittedOnce(p: Port, t: nat)
    requires Reachable(p) && t < |p.tasks|
    ensures var k := p.tasks[t];
            k.reclaims <= k.submissions <= 1 && (k.submissions == k.reclaims <==> !Outstanding(k.op))
    ensures t in p.queue ==> p.tasks[t].submissions == 1 && p.tasks[t].reclaims == 0
    ensures Distinct(p.queue)
  {
    ReachableInv(p);
    assert TaskOK(p.tasks[t]);
  }

  /** The task a step reads, writes or counts on. */
  function Touches(p: Port, a: Action): nat
    requires Enabled(p, a) && !a.NewFuture?
  {
    match a
    case On(t, _) => t
    case Dequeue(_) => p.queue[0]
    case Notify(w) => p.busy[w]
    case Release(w) => p.busy[w]
  }

  /** No use after free: apart from creating the task, no step of any thread or of the kernel finds it released. */
  lemma NoUseAfterFree(p: Port, a: Action)
    requires Reachable(p) && Enabled(p, a) && !a.NewFuture?
    requires !(a.On? && p.tasks[a.t].stage == Initial)
    ensures p.tasks[Touches(p, a)].strong > 0
  {
    ReachableInv(p);
    assert TaskOK(p.tasks[Touches(p, a)]);
    hide Inv;
  }

  /** The step notifies the task for its completion. */
  predicate NotifiesTask(p: Port, a: Action, t: nat) { a.Notify? && a.w in p.busy && p.busy[a.w] == t }

  /** Whether a task has been notified since it last registered, told from the steps of a run. */
  function NotifiedSince(p: Port, run: seq<Action>, t: nat, before: bool): bool
    requires Legal(p, run)
    decreases |run|
  {
    if run == [] then before else
      NotifiedSince(Apply(p, run[0]), run[1..], t,
                    if run[0] == On(t, Register) then false else before || NotifiesTask(p, run[0], t))
  }

  predicate IsWoken(p: Port, t: nat) { t < |p.tasks| && p.tasks[t].woken }

  lemma WokenStep(p: Port, a: Action, t: nat)
    requires Enabled(p, a)
    ensures IsWoken(Apply(p, a), t) <==> a != On(t, Register) && (IsWoken(p, t) || NotifiesTask(p, a, t))
  {
  }

  /** The record of the wakes, over every run. */
  lemma {:induction false} WokenRecord(p: Port, run: seq<Action>, t: nat)
    requires Legal(p, run)
    ensures IsWoken(Exec(p, run), t) <==> NotifiedSince(p, run, t, IsWoken(p, t))
    decreases |run|
  {
    hide Enabled, Apply, IsWoken, NotifiesTask;
    if run != [] {
      WokenStep(p, run[0], t);
      WokenRecord(Apply(p, run[0]), run[1..], t);
    }
  }

  /** A future that waits is yet to be notified of its completion, or has been since it last registered. */
  lemma CompletionWakes(p: Port, t: nat)
    requires Reachable(p) && t < |p.tasks| && p.tasks[t].stage == Pending
    ensures p.tasks[t].woken || p.tasks[t].op == InKernel || t in p.queue
            || exists w :: w in p.busy && p.busy[w] == t && Enabled(p, Notify(w))
  {
    ReachableInv(p);
    assert TaskOK(p.tasks[t]);
    if p.tasks[t].op.Reclaimed? {
      var w := p.tasks[t].op.who;
      assert HeldBy(p.tasks[t].op, w);
      assert Enabled(p, Notify(w));
    }
  }

  // ---------------------------------------------------------------------------------------------------------
  // The port is emptied

  /** Steps of the threads in `poll_iocp`. */
  predicate OfThread(a: Action) { a.Dequeue? || a.Notify? || a.Release? }

  /** Steps that need no new poll, drop or future, and nothing of the kernel. */
  predicate Inner(a: Action)
  {
    OfThread(a) || (a.On? && (a.step == Clone || a.step.Call? || a.step == DropClone || a.step == Forget || a.step == ReadStatus
                              || a.step == Cancel || a.step == LetGo))
  }

  predicate InnerRun(run: seq<Action>) { forall i :: 0 <= i < |run| ==> Inner(run[i]) }

  function StageWork(stage: Stage): nat
  {
    match stage
    case Created => 5
    case Cloned => 4
    case Refused => 2
    case Accepted(_) => 2
    case Registered => 2
    case Cancelling => 2
    case Leaving => 1
    case _ => 0
  }

  function OperationWork(op: Operation): nat { if op.Queued? then 3 else if op.Reclaimed? then 2 else if op.Notified? then 1 else 0 }

  function TaskWork(k: Task, t: nat): nat { StageWork(k.stage) + OperationWork(k.op) }

  function Work(p: Port): nat { Total(p.tasks, TaskWork, 0) }

  lemma FutureStepWorks(k: Task, a: TaskStep)
    requires TaskOK(k) && StepEnabled(k, a) && Inner(On(0, a))
    ensures TaskWork(Step(k, a), 0) < TaskWork(k, 0)
  {
  }

  lemma ThreadStepWorks(p: Port, a: Action) returns (t: nat)
    requires Inv(p) && Enabled(p, a) && OfThread(a)
    ensures t < |p.tasks| && |Apply(p, a).tasks| == |p.tasks| && Apply(p, a).tasks == p.tasks[t := Apply(p, a).tasks[t]]
    ensures TaskWork(Apply(p, a).tasks[t], 0) < TaskWork(p.tasks[t], 0)
  {
    hide TaskOK;
    if a.Dequeue? { assert p.queue[0] in p.queue; }
    t := if a.Dequeue? then p.queue[0] else p.busy[a.w];
  }

  /** Every inner step does some of the work. */
  lemma InnerStepWorks(p: Port, a: Action)
    requires Inv(p) && Enabled(p, a) && Inner(a)
    ensures Work(Apply(p, a)) < Work(p)
  {
    hide TaskWork, TaskOK;
    if a.On? {
      FutureStepWorks(p.tasks[a.t], a.step);
      TotalSet(p.tasks, a.t, Step(p.tasks[a.t], a.step), TaskWork, 0);
    } else {
      var t := ThreadStepWorks(p, a);
      hide Inv, Enabled, Apply;
      TotalSet(p.tasks, t, Apply(p, a).tasks[t], TaskWork, 0);
    }
  }

  lemma {:induction false} InnerRunBounded(p: Port, run: seq<Action>)
    requires Inv(p) && Legal(p, run) && InnerRun(run)
    ensures |run| <= Work(p)
    decreases |run|
  {
    hide Inv, Work, Enabled, Apply;
    if run != [] {
      InnerStepWorks(p, run[0]);
      StepKeepsInv(p, run[0]);
      InnerRunBounded(Apply(p, run[0]), run[1..]);
    }
  }

  /** A thread that has a completion in hand, or could take one, has a step. */
  lemma ThreadCanStep(p: Port) returns (a: Action)
    requires Inv(p) && (p.busy != map[] || p.queue != [])
    ensures OfThread(a) && Enabled(p, a)
  {
    hide TaskOK;
    if p.busy != map[] {
      var w :| w in p.busy;
      a := if p.tasks[p.busy[w]].op == Reclaimed(w) then Notify(w) else Release(w);
    } else {
      assert p.queue[0] in p.queue;
      a := Dequeue(0);
    }
  }

  /**
    Completions are taken.  When no thread can dequeue, notify or release, the port is empty and nobody has a completion
    in hand: every operation was not submitted, is still in the kernel, or has been reclaimed and its future notified.
  */
  lemma PortIsEmptied(p: Port, t: nat)
    requires Reachable(p) && t < |p.tasks| && forall a :: OfThread(a) ==> !Enabled(p, a)
    ensures p.queue == [] && p.busy == map[]
    ensures var k := p.tasks[t];
            && (k.op == NotSubmitted || k.op == InKernel || k.op == Released)
            && (k.op != InKernel ==> k.submissions == k.reclaims)
            && (k.stage == Pending ==> k.op == InKernel || k.woken)
  {
    ReachableInv(p);
    if p.busy != map[] || p.queue != [] { var a := ThreadCanStep(p); }
    TaskInHand(p, t);
    assert TaskOK(p.tasks[t]);
  }

  /**
    No leak.  When nothing but new polls, drops and the kernel can move anything, every future is before its first poll,
    waits, or is over, and a task whose future is over and whose operation is not in the kernel has been released.  The
    others can still be polled, dropped or completed.
  */
  lemma RestHasNoLeak(p: Port, t: nat)
    requires Reachable(p) && t < |p.tasks| && forall a :: Inner(a) ==> !Enabled(p, a)
    ensures var k := p.tasks[t];
            && (k.stage == Initial || k.stage == Pending || k.stage == Gone)
            && (k.stage == Gone && k.op != InKernel ==> k.strong == 0)
            && (k.op == InKernel ==> Enabled(p, On(t, Complete))) && (k.stage == Initial ==> Enabled(p, On(t, Create)))
            && (k.stage == Pending ==> Enabled(p, On(t, Register))) && (k.stage != Gone ==> Enabled(p, On(t, Abandon)))
  {
    PortIsEmptied(p, t);
    OwnershipConserved(p, t);
    hide Reachable;
    var k := p.tasks[t];
    if k.stage != Initial && k.stage != Pending && k.stage != Gone { var a := FutureCanStep(p, t); }
  }

  lemma FutureCanStep(p: Port, t: nat) returns (a: Action)
    requires t < |p.tasks| && p.tasks[t].stage != Initial && p.tasks[t].stage != Pending && p.tasks[t].stage != Gone
    ensures Inner(a) && Enabled(p, a)
  {
    match p.tasks[t].stage {
      case Created => a := On(t, Clone);
      case Cloned => a := On(t, Call(true, false));
      case Refused => a := On(t, DropClone);
      case Accepted(_) => a := On(t, Forget);
      case Registered => a := On(t, ReadStatus);
      case Cancelling => a := On(t, Cancel);
      case Leaving => a := On(t, LetGo);
    }
  }

  /** And that is where every schedule of those steps ends. */
  lemma EveryScheduleStops(p: Port, run: seq<Action>)
    requires Reachable(p) && Legal(p, run) && InnerRun(run)
    ensures |run| <= Work(p)
  {
    ReachableInv(p);
    InnerRunBounded(p, run);
  }

  // ---------------------------------------------------------------------------------------------------------
  // The objects the source updates

  datatype Outcome = Fails | Completes | Pends

  datatype PollResult = Ready | NotReady | Error | Panic

  /** `OverlappedTask` behind its Arc; `at` is the same task seen from the port. */
  class OverlappedTask {
    var strong: nat
    var done: bool               // the status in the OVERLAPPED is no longer STATUS_PENDING
    var slot: nat                // the task registered in the AtomicTask
    ghost var at: Task

    ghost predicate Valid()
      reads this
    {
      TaskOK(at) && at.strong == strong && (at.op != NotSubmitted ==> (done <==> at.op != InKernel))
    }

    constructor (current: nat)
      ensures Valid() && at == Step(FRESH, Create) && slot == current
    {
      strong, done, slot, at := 1, false, current, Step(FRESH, Create);
    }

    /** Cloning, or dropping, one handle: the only steps that move the count on the future's side. */
    method CloneHandle()
      requires Valid() && StepEnabled(at, Clone)
      modifies this`strong, this`at
      ensures Valid() && at == Step(old(at), Clone) && strong == old(strong) + 1
    {
      StepKeepsTask(at, Clone);
      strong := strong + 1;
      at := Step(at, Clone);
    }

    method DropHandle(ghost step: TaskStep)
      requires Valid() && (step == DropClone || step == LetGo) && StepEnabled(at, step)
      modifies this`strong, this`at
      ensures Valid() && at == Step(old(at), step) && strong == old(strong) - 1
    {
      StepKeepsTask(at, step);
      strong := strong - 1;
      at := Step(at, step);
    }

    /** `for_operation`: on success the clone is forgotten, and the count is what it was; on failure it is dropped. */
    method ForOperation(outcome: Outcome) returns (submitted: bool)
      requires Valid() && at.stage == Cloned
      modifies this`strong, this`done, this`at
      ensures Valid() && (submitted <==> outcome != Fails) && at.submissions == One(submitted)
      ensures strong == if submitted then old(strong) else old(strong) - 1
      ensures !submitted ==> at.stage == Leaving && at.op == NotSubmitted
      ensures submitted ==> at.op == InKernel && !done && at.stage == if outcome == Completes then Leaving else Pending
    {
      ghost var call := Call(outcome != Fails, outcome == Completes);
      StepKeepsTask(at, call);
      at := Step(at, call);
      submitted := outcome != Fails;
      if submitted {
        done := false;
        StepKeepsTask(at, Forget);
        at := Step(at, Forget);
      } else {
        DropHandle(DropClone);
      }
    }

    /** `register`, then the status: true if the operation is still pending. */
    method PollStatus(current: nat) returns (pending: bool)
      requires Valid() && at.stage == Pending
      modifies this`slot, this`at
      ensures slot == current
      ensures Valid() && (pending <==> !done) && at.op == old(at).op && at.stage == if pending then Pending else Leaving
    {
      StepKeepsTask(at, Register);
      slot := current;
      at := Step(at, Register);
      StepKeepsTask(at, ReadStatus);
      at := Step(at, ReadStatus);
      pending := !done;
    }

    /** `cancel_socket` on behalf of a dropped future: its handle goes whether or not the cancellation succeeds. */
    method CancelSocket(ok: bool) returns (cancelled: bool)
      requires Valid() && at.stage == Pending
      modifies this`strong, this`at
      ensures Valid() && cancelled == ok && at.stage == Gone && at.op == old(at).op && strong == old(strong) - 1
    {
      StepKeepsTask(at, Abandon);
      at := Step(at, Abandon);
      StepKeepsTask(at, Cancel);
      at := Step(at, Cancel);
      DropHandle(LetGo);
      cancelled := ok;
    }

    /** The kernel finishes the operation and queues its completion. */
    method Finish()
      requires Valid() && at.op == InKernel
      modifies this`done, this`at
      ensures Valid() && done && at == Step(old(at), Complete)
    {
      StepKeepsTask(at, Complete);
      done := true;
      at := Step(at, Complete);
    }

    /** `poll_iocp` on the dequeued completion: `from_raw`, notify, drop. */
    method Reclaim(ghost w: ThreadId) returns (notified: nat)
      requires Valid() && at.op == Queued
      modifies this`strong, this`at
      ensures Valid() && strong == old(strong) - 1 && at.op == Released && at.stage == old(at).stage && at.woken
      ensures at.reclaims == old(at).reclaims + 1 && notified == slot && at.submissions == old(at).submissions
    {
      Dequeued(at, w);
      at := at.(op := Reclaimed(w));
      Woken(at, w);
      at := at.(op := Notified(w), woken := true);
      Dropped(at, w);
      at := at.(op := Released, strong := at.strong - 1, reclaims := at.reclaims + 1);
      notified := slot;
      strong := strong - 1;
    }
  }

  datatype ReadState = Taken | Start | Waiting(task: OverlappedTask)

  /** The read and write futures of src/iocp/net.rs, which differ in the system call only. */
  class SocketFuture {
    var state: ReadState

    function Tasks(): set<OverlappedTask> reads this { if state.Waiting? then {state.task} else {} }

    ghost predicate Valid()
      reads this, Tasks()
    {
      state.Waiting? ==> state.task.Valid() && state.task.at.stage == Pending
    }

    constructor ()
      ensures Valid() && state == Start
    {
      state := Start;
    }

    /**
      `poll` by task `current`.  `outcome` is what the system call returns, `failed` whether the finished operation
      turns out to have failed.  `task` is the task the poll worked on, with `current` in its slot: left with the
      operation's reference alone when the poll is the last, released when nothing was submitted.
    */
    method Poll(current: nat, outcome: Outcome, failed: bool) returns (result: PollResult, task: OverlappedTask?)
      requires Valid()
      modifies this, Tasks()
      ensures Valid() && (state.Waiting? <==> result == NotReady) && state != Start
      ensures (result == Panic <==> old(state) == Taken) && (task == null <==> old(state) == Taken)
      ensures task != null ==> task.Valid() && task.slot == current && task.at.stage == if result == NotReady then Pending else Gone
      ensures old(state) == Start ==>
                && fresh(task)
                && result == (match outcome case Fails => Error case Completes => Ready case Pends => NotReady)
                && task.strong == (match outcome case Fails => 0 case Completes => 1 case Pends => 2)
                && task.at.op == if outcome == Fails then NotSubmitted else InKernel
      ensures old(state).Waiting? ==>
                && task == old(state).task && task.done == old(state.task.done) && task.at.op == old(state.task.at).op
                && (result == NotReady <==> !task.done) && (task.done ==> result == if failed then Error else Ready)
                && task.strong == old(state.task.strong) - One(task.done)
      ensures state.Waiting? ==> state == Waiting(task)
    {
      hide TaskOK;
      task := null;
      var was := state;
      state := Taken;
      match was {
        case Taken => result := Panic;
        case Start =>
          task := new OverlappedTask(current);
          task.CloneHandle();
          var submitted := task.ForOperation(outcome);
          if outcome == Pends {
            state := Waiting(task);
            result := NotReady;
          } else {
            task.DropHandle(LetGo);
            result := if submitted then Ready else Error;
          }
        case Waiting(overlapped) =>
          task := overlapped;
          var pending := task.PollStatus(current);
          if pending {
            state := was;
            result := NotReady;
          } else {
            task.DropHandle(LetGo);
            result := if failed then Error else Ready;
          }
      }
    }

    /** `drop`: the buffer is leaked exactly if an operation could not be cancelled. */
    method Drop(cancellable: bool) returns (leaked: bool)
      requires Valid()
      modifies this, Tasks()
      ensures state == Taken && (leaked <==> old(state).Waiting? && !cancellable)
      ensures old(state).Waiting? ==>
                var task := old(state).task;
                && task.Valid() && task.at.stage == Gone && task.at.op == old(state.task.at).op
                && task.strong == old(state.task.strong) - 1 && task.slot == old(state.task.slot)
    {
      leaked := false;
      if state.Waiting? {
        var cancelled := state.task.CancelSocket(cancellable);
        leaked := !cancelled;
      }
      state := Taken;
    }
  }

  /** What can happen around one future; what cannot happen at the moment does not. */
  datatype Event = Polled(current: nat, outcome: Outcome, failed: bool) | Completed | DequeuedBy(w: ThreadId) | Abandoned(cancellable: bool)

  /** Where the operation is, as kernel and port see it. */
  datatype Pointer = Nowhere | AtKernel(task: OverlappedTask) | InPort(task: OverlappedTask) | Returned(task: OverlappedTask)

  /** The future and the operation agree on the task. */
  ghost predicate Together(future: SocketFuture, task: OverlappedTask?, pointer: Pointer)
    reads future, task
  {
    && (task == null ==> future.state == Start || future.state == Taken) && (task == null ==> pointer == Nowhere)
    && (task != null ==>
          && task.Valid()
          && (if future.state.Waiting? then future.state.task == task && task.at.stage == Pending
              else future.state == Taken && task.at.stage == Gone)
          && match pointer
             case Nowhere => task.at.op == NotSubmitted
             case AtKernel(t) => t == task && task.at.op == InKernel
             case InPort(t) => t == task && task.at.op == Queued
             case Returned(t) => t == task && task.at.op == Released)
  }

  /** The life of one operation as a value: how far the future is, where the operation is, who is registered and who was told. */
  datatype FutureState = Unpolled | Suspended | Ended
  datatype Place = Unsubmitted | WithKernel | WithPort | Back

  datatype Life = Life(future: FutureState, place: Place, slot: nat, told: seq<nat>)

  function NextLife(life: Life, e: Event): Life
  {
    match e
    case Polled(current, outcome, _) =>
      (match life.future
       case Unpolled =>
         Life(if outcome == Pends then Suspended else Ended, if outcome == Fails then Unsubmitted else WithKernel, current, life.told)
       case Suspended => life.(future := if life.place == WithKernel then Suspended else Ended, slot := current)
       case Ended => life)
    case Completed => if life.place == WithKernel then life.(place := WithPort) else life
    case DequeuedBy(_) => if life.place == WithPort then life.(place := Back, told := life.told + [life.slot]) else life
    case Abandoned(_) => life.(future := Ended)
  }

  function LifeOf(events: seq<Event>): Life
  {
    if events == [] then Life(Unpolled, Unsubmitted, 0, []) else NextLife(LifeOf(events[..|events| - 1]), events[|events| - 1])
  }

  /** Event `i` submits the operation: it is the first poll, the future has not been dropped before it, the call succeeds. */
  predicate Submits(events: seq<Event>, i: nat)
  {
    && i < |events| && events[i].Polled? && events[i].outcome != Fails
    && forall j :: 0 <= j < i ==> !events[j].Polled? && !events[j].Abandoned?
  }

  predicate Completes(events: seq<Event>, i: nat, c: nat) { i < c < |events| && Submits(events, i) && events[c] == Completed }

  predicate Returns(events: seq<Event>, i: nat, c: nat, d: nat)
  {
    c < d < |events| && Completes(events, i, c) && events[d].DequeuedBy?
  }

  /** The future is still to be polled for the first time exactly if it has neither been polled nor dropped. */
  lemma {:induction false} UnpolledIff(events: seq<Event>)
    ensures LifeOf(events).future == Unpolled <==> forall j :: 0 <= j < |events| ==> !events[j].Polled? && !events[j].Abandoned?
    ensures LifeOf(events).future == Unpolled ==> LifeOf(events).place == Unsubmitted && LifeOf(events).told == []
    ensures LifeOf(events).future == Suspended ==> LifeOf(events).place != Unsubmitted
  {
    if events != [] {
      var front := events[..|events| - 1];
      UnpolledIff(front);
      assert forall j :: 0 <= j < |front| ==> events[j] == front[j];
    }
  }

  /** Where the operation is, told from the events alone: submitted, then completed, then dequeued, each at most once. */
  lemma {:induction false} PlaceIff(events: seq<Event>)
    ensures LifeOf(events).place != Unsubmitted <==> exists i :: Submits(events, i)
    ensures LifeOf(events).place == WithPort || LifeOf(events).place == Back <==> exists i, c :: Completes(events, i, c)
    ensures LifeOf(events).place == Back <==> exists i, c, d :: Returns(events, i, c, d)
    ensures |LifeOf(events).told| == One(LifeOf(events).place == Back)
  {
    if events != [] {
      var front, n := events[..|events| - 1], |events| - 1;
      PlaceIff(front);
      UnpolledIff(front);
      forall i: nat ensures Submits(events, i) <==> Submits(front, i) || (i == n && Submits(events, n)) { SubmitsFront(events, i); }
      assert Submits(events, n) <==> LifeOf(front).future == Unpolled && events[n].Polled? && events[n].outcome != Fails;
      CompletesFront(events);
      ReturnsFront(events);
    }
  }

  lemma CompletesFront(events: seq<Event>)
    requires events != []
    ensures var front, last := events[..|events| - 1], events[|events| - 1];
            (exists i, c :: Completes(events, i, c)) <==>
            (exists i, c :: Completes(front, i, c)) || (last == Completed && exists i :: Submits(front, i))
  {
    var front, n := events[..|events| - 1], |events| - 1;
    if i: nat, c: nat :| Completes(events, i, c) {
      SubmitsFront(events, i);
      assert c == n || Completes(front, i, c);
    }
    if i: nat, c: nat :| Completes(front, i, c) {
      SubmitsFront(events, i);
      assert Completes(events, i, c);
    }
    if i: nat :| Submits(front, i) {
      SubmitsFront(events, i);
      assert events[n] == Completed ==> Completes(events, i, n);
    }
  }

  lemma ReturnsFront(events: seq<Event>)
    requires events != []
    ensures var front, last := events[..|events| - 1], events[|events| - 1];
            (exists i, c, d :: Returns(events, i, c, d)) <==>
            (exists i, c, d :: Returns(front, i, c, d)) || (last.DequeuedBy? && exists i, c :: Completes(front, i, c))
  {
    var front, n := events[..|events| - 1], |events| - 1;
    if i: nat, c: nat, d: nat :| Returns(events, i, c, d) {
      SubmitsFront(events, i);
      assert Completes(front, i, c) && (d == n || Returns(front, i, c, d));
    }
    if i: nat, c: nat, d: nat :| Returns(front, i, c, d) {
      SubmitsFront(events, i);
      assert Returns(events, i, c, d);
    }
    if i: nat, c: nat :| Completes(front, i, c) {
      SubmitsFront(events, i);
      assert events[n].DequeuedBy? ==> Returns(events, i, c, n);
    }
  }

  lemma SubmitsFront(events: seq<Event>, i: nat)
    requires events != []
    ensures i < |events| - 1 ==> (Submits(events, i) <==> Submits(events[..|events| - 1], i))
  {
  }

  /** The objects are where the life is. */
  ghost predicate Matches(life: Life, future: SocketFuture, task: OverlappedTask?, pointer: Pointer, notified: seq<nat>)
    reads future, task
  {
    && Together(future, task, pointer) && notified == life.told
    && (life.future == Unpolled <==> future.state == Start) && (life.future == Suspended <==> future.state.Waiting?)
    && (pointer.Nowhere? <==> life.place == Unsubmitted) && (pointer.AtKernel? <==> life.place == WithKernel)
    && (pointer.InPort? <==> life.place == WithPort)
    && (task != null ==> task.slot == life.slot
                         && task.strong == One(life.future == Suspended) + One(life.place == WithKernel || life.place == WithPort))
  }

  /** One event: the objects follow the life. */
  method Live(event: Event, ghost life: Life, future: SocketFuture, task: OverlappedTask?, pointer: Pointer, notified: seq<nat>)
    returns (task': OverlappedTask?, pointer': Pointer, notified': seq<nat>)
    requires Matches(life, future, task, pointer, notified)
    modifies future, task
    ensures Matches(NextLife(life, event), future, task', pointer', notified') && (task' == task || (task == null && fresh(task')))
  {
    task', pointer', notified' := task, pointer, notified;
    match event {
      case Polled(current, outcome, failed) =>
        var starts := future.state == Start;
        var result, polled := future.Poll(current, outcome, failed);
        if starts && outcome != Fails { pointer' := AtKernel(polled); }
        if polled != null { task' := polled; }
      case Completed =>
        if pointer.AtKernel? {
          pointer.task.Finish();
          pointer' := InPort(pointer.task);
        }
      case DequeuedBy(w) =>
        if pointer.InPort? {
          var told := pointer.task.Reclaim(w);
          notified' := notified + [told];
          pointer' := Returned(pointer.task);
        }
      case Abandoned(cancellable) =>
        var leaked := future.Drop(cancellable);
    }
  }

  /**
    The life of one operation, for every order of polls, completion, dequeuing and dropping: the future, the operation,
    who is notified for it, and the count of the memory are where the events put them; the memory is released exactly
    when the future is over and no reference is with kernel or port.
  */
  method LiveThrough(events: seq<Event>) returns (future: SocketFuture, task: OverlappedTask?, pointer: Pointer, notified: seq<nat>)
    ensures Matches(LifeOf(events), future, task, pointer, notified)
    ensures task != null ==> (task.strong == 0 <==> future.state == Taken && !pointer.AtKernel? && !pointer.InPort?)
  {
    future := new SocketFuture();
    task, pointer, notified := null, Nowhere, [];
    for n := 0 to |events|
      invariant Matches(LifeOf(events[..n]), future, task, pointer, notified) && fresh(future) && (task != null ==> fresh(task))
    {
      assert events[..n + 1][..n] == events[..n];
      task, pointer, notified := Live(events[n], LifeOf(events[..n]), future, task, pointer, notified);
    }
    assert events[..|events|] == events;
  }
}

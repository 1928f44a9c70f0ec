/** How a peel runs dispatched work: a callback that fences, acknowledges and queues, one worker,
    and a registry of cancel functions, interleaved step by step. */
module ExecQueue {
  import opened KeyValue
  import Dedup
  import Sequences

  type Jid = string
  type Token = nat

  const QueueSize: nat := 64

  /** A request on its way through the peel; the token stands for its execution context. */
  datatype Task = Task(jid: Jid, isJob: bool, readOnly: bool, epoch: nat, token: Token)

  /** A message as the callback sees it: request/reply or fire-and-forget, with the dispatching
      master's epoch. */
  datatype Msg = Msg(jid: Jid, wantsReply: bool, readOnly: bool, epoch: nat)

  /** A dispatch from the job manager: nobody waits for a reply, and it names a job. */
  predicate IsJob(msg: Msg) {
    !msg.wantsReply && msg.jid != ""
  }

  /** The fence against stale and duplicate dispatches, which looks at jobs that carry an epoch. */
  predicate TurnedAway(fence: Dedup.Tracker, msg: Msg) {
    IsJob(msg) && msg.epoch > 0 && Dedup.Rejects(fence, msg.jid, msg.epoch)
  }

  datatype Callback =
    | Idle
    | Acked(task: Task)        // acknowledged, not yet registered
    | Admitted(task: Task)     // registered if it is a job, about to be placed
    | Inline(task: Task)       // read-only work runs in the callback
    | InlineDone(task: Task)
    | Refusing(task: Task)     // queue full, registration about to go
    | Unqueued(task: Task)      // registration gone, failed return about to be sent

  datatype Worker =
    | Resting
    | Running(task: Task)
    | Returned(task: Task)     // return sent, registration about to go
    | Draining
    | Gone

  /** `fence` is the tracker of job epochs and `forgotten` the ids it evicted. The counters are about
      jobs: acknowledgements and returns attempted, results that could not be encoded, and queued work
      dropped at shutdown. `accepted` lists everything that got past the fence. */
  datatype World = World(
    capacity: int,
    fence: Dedup.Tracker,
    forgotten: set<Jid>,
    accepted: seq<Task>,
    callback: Callback,
    queue: seq<Task>,
    worker: Worker,
    cancels: map<Jid, Token>,
    cancelled: set<Token>,
    shutdown: bool,
    nextToken: Token,
    acks: nat,
    answers: nat,
    silent: nat,
    drained: nat,
    arrived: seq<Task>,
    started: seq<Task>,
    dropped: seq<Task>)

  /** A process that starts with the tracker it read back. */
  function Init(capacity: int, fence: Dedup.Tracker): (w: World) {
    World(capacity, fence, {}, [], Idle, [], Resting, map[], {}, false, 0, 0, 0, 0, 0, [], [], [])
  }

  datatype Step =
    | Receive(msg: Msg)
    | Callback(encodes: bool)
    | Work(encodes: bool)
    | Cancel(jid: Jid)
    | Shutdown
      // the worker picks the shutdown branch of its select
    | Quit

  /** releaseExecCancel: only jobs have a registration, and it is dropped by job id. */
  function Release(w: World, t: Task): (w': World) {
    if !t.isJob then w
    else w.(cancels := w.cancels - {t.jid}, cancelled := w.cancelled + {t.token})
  }

  /** The end of an execution: a return for a job, unless the result cannot be encoded. */
  function Answer(w: World, t: Task, encodes: bool): (w': World) {
    if !t.isJob then w
    else if encodes then w.(answers := w.answers + 1)
    else w.(silent := w.silent + 1)
  }

  function TaskFor(w: World, msg: Msg): (t: Task) {
    Task(msg.jid, IsJob(msg), msg.readOnly, msg.epoch, w.nextToken)
  }

  /** The fence takes note of jobs with an epoch. */
  function Noted(w: World, jid: Jid, isJob: bool, epoch: nat): (w': World) {
    if !isJob || epoch == 0 then w
    else
      var victim := Dedup.Evicts(w.fence, w.capacity, jid);
      w.(fence := Dedup.Observed(w.fence, w.capacity, jid, epoch),
         forgotten := if victim.Some? then w.forgotten + {victim.value} else w.forgotten)
  }

  /** Past the fence. */
  function Passes(w: World, t: Task): (w': World) {
    Noted(w, t.jid, t.isJob, t.epoch).(nextToken := w.nextToken + 1, accepted := w.accepted + [t])
  }

  function Receives(w: World, msg: Msg): (w': World) {
    if !w.callback.Idle? || TurnedAway(w.fence, msg) then w
    else
      var t := TaskFor(w, msg);
      var w1 := Passes(w, t);
      if t.isJob then w1.(acks := w.acks + 1, callback := Acked(t)) else w1.(callback := Admitted(t))
  }

  function Advance(w: World, encodes: bool): (w': World) {
    match w.callback
    case Idle => w
    case Acked(t) => w.(cancels := w.cancels[t.jid := t.token], callback := Admitted(t))
    case Admitted(t) =>
      if t.readOnly then w.(callback := Inline(t))
      else if |w.queue| < QueueSize then w.(queue := w.queue + [t], arrived := w.arrived + [t], callback := Idle)
      else w.(callback := Refusing(t))
    case Inline(t) => Answer(w, t, encodes).(callback := InlineDone(t))
    case InlineDone(t) => Release(w, t).(callback := Idle)
    case Refusing(t) => Release(w, t).(callback := Unqueued(t))
    case Unqueued(t) => Answer(w, t, true).(callback := Idle)
  }

  function Works(w: World, encodes: bool): (w': World) {
    match w.worker
    case Resting =>
      if w.queue == [] then w
      else w.(queue := w.queue[1..], worker := Running(w.queue[0]), started := w.started + [w.queue[0]])
    case Running(t) => Answer(w, t, encodes).(worker := Returned(t))
    case Returned(t) => Release(w, t).(worker := Resting)
    case Draining =>
      if w.queue == [] then w.(worker := Gone)
      else
        var t := w.queue[0];
        Release(w, t).(queue := w.queue[1..], dropped := w.dropped + [t], drained := w.drained + Weight(t))
    case Gone => w
  }

  function Apply(w: World, s: Step): (w': World) {
    match s
    case Receive(msg) => Receives(w, msg)
    case Callback(encodes) => Advance(w, encodes)
    case Work(encodes) => Works(w, encodes)
    case Cancel(jid) => if jid in w.cancels then w.(cancelled := w.cancelled + {w.cancels[jid]}) else w
    case Shutdown => w.(shutdown := true)
    case Quit => if w.shutdown && w.worker.Resting? then w.(worker := Draining) else w
  }

  ghost predicate IsRun(ws: seq<World>, steps: seq<Step>) {
    && |ws| == |steps| + 1
    && ws[0] == Init(ws[0].capacity, ws[0].fence)
    && forall i {:trigger steps[i]} :: 0 <= i < |steps| ==> ws[i + 1] == Apply(ws[i], steps[i])
  }

  // ----- conservation, bound and order -----

  function Weight(t: Task): (n: nat) {
    if t.isJob then 1 else 0
  }

  function Jobs(q: seq<Task>): (n: nat) {
    if q == [] then 0 else Weight(q[0]) + Jobs(q[1..])
  }

  lemma {:induction false} JobsAppend(q: seq<Task>, t: Task)
    ensures Jobs(q + [t]) == Jobs(q) + Weight(t)
  {
    if q != [] {
      JobsAppend(q[1..], t);
      assert (q + [t])[1..] == q[1..] + [t];
    }
  }

  /** The accepted job the callback has not answered or handed over. */
  function InCallback(c: Callback): (n: nat) {
    match c
    case Idle => 0
    case InlineDone(_) => 0
    case _ => Weight(c.task)
  }

  function InWorker(k: Worker): (n: nat) {
    if k.Running? then Weight(k.task) else 0
  }

  ghost predicate Conserved(w: World) {
    w.acks == w.answers + w.silent + w.drained + Jobs(w.queue) + InCallback(w.callback) + InWorker(w.worker)
  }

  /** Work leaves the queue in the order it arrived: first what was started, then what was dropped. */
  ghost predicate InOrder(w: World) {
    && w.arrived == w.started + w.dropped + w.queue
    && (w.dropped != [] ==> w.worker.Draining? || w.worker.Gone?)
  }

  lemma PlaceConserves(w: World, encodes: bool)
    requires Conserved(w) && w.callback.Admitted?
    ensures Conserved(Advance(w, encodes))
  {
    JobsAppend(w.queue, w.callback.task);
  }

  lemma AdvanceConserves(w: World, encodes: bool)
    requires Conserved(w)
    ensures Conserved(Advance(w, encodes))
  {
    if w.callback.Admitted? {
      PlaceConserves(w, encodes);
    } else if w.callback.Inline? || w.callback.Unqueued? {
      AnswerConserves(w, encodes);
    }
  }

  lemma AnswerConserves(w: World, encodes: bool)
    requires Conserved(w) && (w.callback.Inline? || w.callback.Unqueued?)
    ensures Conserved(Advance(w, encodes))
  {
  }

  lemma AdvanceInOrder(w: World, encodes: bool)
    requires InOrder(w) && |w.queue| <= QueueSize
    ensures InOrder(Advance(w, encodes)) && |Advance(w, encodes).queue| <= QueueSize
  {
    if w.callback.Admitted? {
      Sequences.Associates(w.started + w.dropped, w.queue, [w.callback.task]);
    }
  }

  lemma TaskConserves(w: World, encodes: bool)
    requires Conserved(w) && (w.worker.Running? || w.worker.Returned?)
    ensures Conserved(Works(w, encodes))
  {
  }

  lemma QueueConserves(w: World, encodes: bool)
    requires Conserved(w) && (w.worker.Resting? || w.worker.Draining?) && w.queue != []
    ensures Conserved(Works(w, encodes))
  {
    assert Jobs(w.queue) == Weight(w.queue[0]) + Jobs(w.queue[1..]);
  }

  lemma WorkConserves(w: World, encodes: bool)
    requires Conserved(w)
    ensures Conserved(Works(w, encodes))
  {
    if w.worker.Running? || w.worker.Returned? {
      TaskConserves(w, encodes);
    } else if !w.worker.Gone? && w.queue != [] {
      QueueConserves(w, encodes);
    }
  }

  lemma WorkInOrder(w: World, encodes: bool)
    requires InOrder(w) && |w.queue| <= QueueSize
    ensures InOrder(Works(w, encodes)) && |Works(w, encodes).queue| <= QueueSize
  {
    if w.queue != [] {
      var t, rest := w.queue[0], w.queue[1..];
      assert w.queue == [t] + rest;
      Sequences.Associates(w.started + w.dropped, [t], rest);
      Sequences.Associates(w.started, w.dropped, [t]);
      if w.dropped == [] {
        assert w.started + w.dropped == w.started && w.started + [t] + w.dropped == w.started + [t];
      }
    }
  }

  lemma StepConserves(w: World, s: Step)
    requires Conserved(w)
    ensures Conserved(Apply(w, s))
  {
    match s
    case Callback(encodes) => AdvanceConserves(w, encodes);
    case Work(encodes) => WorkConserves(w, encodes);
    case _ =>
  }

  lemma StepInOrder(w: World, s: Step)
    requires InOrder(w) && |w.queue| <= QueueSize
    ensures InOrder(Apply(w, s)) && |Apply(w, s).queue| <= QueueSize
  {
    match s
    case Callback(encodes) => AdvanceInOrder(w, encodes);
    case Work(encodes) => WorkInOrder(w, encodes);
    case _ =>
  }

  lemma {:induction false} RunConserves(ws: seq<World>, steps: seq<Step>, i: nat)
    requires IsRun(ws, steps) && i < |ws|
    ensures Conserved(ws[i])
    decreases i
  {
    if i == 0 {
      InitConserved(ws[0].capacity, ws[0].fence);
    } else {
      RunConserves(ws, steps, i - 1);
      StepConserves(ws[i - 1], steps[i - 1]);
    }
  }

  lemma InitConserved(capacity: int, fence: Dedup.Tracker)
    ensures Conserved(Init(capacity, fence))
  {
  }

  lemma {:induction false} RunInOrder(ws: seq<World>, steps: seq<Step>, i: nat)
    requires IsRun(ws, steps) && i < |ws|
    ensures InOrder(ws[i]) && |ws[i].queue| <= QueueSize
    decreases i
  {
    if i > 0 {
      RunInOrder(ws, steps, i - 1);
      StepInOrder(ws[i - 1], steps[i - 1]);
    }
  }

  /** In every reachable state each acknowledged job is accounted for: returned, unencodable,
      dropped at shutdown, queued, running, or in the callback's hands. The queue keeps its bound
      and work is started strictly in arrival order. */
  lemma JobsAreConserved(ws: seq<World>, steps: seq<Step>, i: nat)
    requires IsRun(ws, steps) && i < |ws|
    ensures var w := ws[i];
      w.acks == w.answers + w.silent + w.drained + Jobs(w.queue) + InCallback(w.callback) + InWorker(w.worker)
    ensures |ws[i].queue| <= QueueSize
    ensures |ws[i].started| <= |ws[i].arrived| && ws[i].started == ws[i].arrived[..|ws[i].started|]
  {
    RunConserves(ws, steps, i);
    RunInOrder(ws, steps, i);
    StartedFirst(ws[i]);
  }

  lemma StartedFirst(w: World)
    requires InOrder(w)
    ensures |w.started| <= |w.arrived| && w.started == w.arrived[..|w.started|]
  {
    assert w.arrived == w.started + (w.dropped + w.queue);
  }

  // ----- shutting down -----

  /** `n` turns of a draining worker. */
  function Drains(w: World, n: nat): (w': World) {
    if n == 0 then w else Works(Drains(w, n - 1), false)
  }

  /** The worker has dropped the first `n` queued tasks: nothing was started or answered, and their
      registrations are gone. */
  ghost predicate Dropped(w: World, w': World, n: nat)
    requires n <= |w.queue|
  {
    && w'.worker.Draining? && w'.queue == w.queue[n..] && w'.dropped == w.dropped + w.queue[..n]
    && w'.started == w.started && w'.answers == w.answers && w'.silent == w.silent && w'.callback == w.callback
    && (forall j :: j in w'.cancels <==>
          j in w.cancels && forall i :: 0 <= i < n && w.queue[i].isJob ==> w.queue[i].jid != j)
  }

  lemma DropNext(w: World, w': World, n: nat)
    requires n < |w.queue| && Dropped(w, w', n)
    ensures Dropped(w, Works(w', false), n + 1)
  {
    assert w'.queue[0] == w.queue[n] && w'.queue[1..] == w.queue[n + 1..];
    assert w.queue[..n + 1] == w.queue[..n] + [w.queue[n]];
    Sequences.Associates(w.dropped, w.queue[..n], [w.queue[n]]);
  }

  lemma {:induction false} DrainDrops(w: World, n: nat)
    requires w.worker.Draining? && n <= |w.queue|
    ensures Dropped(w, Drains(w, n), n)
    decreases n
  {
    if n == 0 {
      Sequences.AppendsNothing(w.dropped);
    } else {
      DrainDrops(w, n - 1);
      DropNext(w, Drains(w, n - 1), n - 1);
    }
  }

  /** After a shutdown a resting worker drops everything queued, with its registrations, starts none of it
      and is gone. */
  lemma ShutdownDrains(w: World)
    requires w.shutdown && w.worker.Resting?
    ensures var ends := Drains(Apply(w, Quit), |w.queue| + 1);
      && ends.worker.Gone? && ends.queue == [] && ends.dropped == w.dropped + w.queue
      && ends.started == w.started && ends.answers == w.answers && ends.silent == w.silent
      && (forall j :: j in ends.cancels <==>
            j in w.cancels && forall i :: 0 <= i < |w.queue| && w.queue[i].isJob ==> w.queue[i].jid != j)
  {
    var quit := Apply(w, Quit);
    DrainDrops(quit, |w.queue|);
    assert w.queue[..|w.queue|] == w.queue && w.queue[|w.queue|..] == [];
  }

  // ----- the cancel registry -----

  /** The task the callback holds with a registration, the one it holds at all, and the worker's. */
  predicate CallbackHolds(c: Callback, t: Task) {
    (c.Admitted? || c.Inline? || c.InlineDone? || c.Refusing?) && c.task == t
  }

  predicate WorkerHolds(k: Worker, t: Task) {
    (k.Running? || k.Returned?) && k.task == t
  }

  /** A job between its registration and its release. */
  predicate IsRegistered(w: World, t: Task) {
    t.isJob && (CallbackHolds(w.callback, t) || t in w.queue || WorkerHolds(w.worker, t))
  }

  predicate IsLive(w: World, t: Task) {
    IsRegistered(w, t) || (w.callback.Acked? && w.callback.task == t)
  }

  /** No two live jobs share an id. */
  ghost predicate LiveOnce(w: World) {
    forall x, y :: IsLive(w, x) && IsLive(w, y) && x.jid == y.jid ==> x == y
  }

  /** Every task has its own token, and is in one place only. */
  ghost predicate Unique(w: World) {
    && (forall i :: 0 <= i < |w.queue| ==> w.queue[i].token < w.nextToken)
    && (forall i, j :: 0 <= i < j < |w.queue| ==> w.queue[i].token != w.queue[j].token)
    && (forall t :: WorkerHolds(w.worker, t) ==> t.token < w.nextToken && !HasToken(w.queue, t.token))
    && (!w.callback.Idle? ==>
          && w.callback.task.token < w.nextToken && !HasToken(w.queue, w.callback.task.token)
          && (w.worker.Running? || w.worker.Returned? ==> w.worker.task.token != w.callback.task.token))
    && (w.callback.Acked? ==> w.callback.task.isJob)
  }

  ghost predicate HasToken(q: seq<Task>, k: Token) {
    exists i :: 0 <= i < |q| && q[i].token == k
  }

  /** The registry holds exactly the registered jobs, each under its own context. */
  ghost predicate Exact(w: World) {
    && (forall t :: IsRegistered(w, t) ==> t.jid in w.cancels && w.cancels[t.jid] == t.token)
    && (forall j :: j in w.cancels ==> exists t :: IsRegistered(w, t) && t.jid == j)
  }

  // The three ways a step can change who is registered.

  lemma SameExact(w: World, w': World)
    requires Exact(w) && w'.cancels == w.cancels
    requires forall t :: IsRegistered(w', t) <==> IsRegistered(w, t)
    ensures Exact(w')
  {
    forall j | j in w'.cancels ensures exists t :: IsRegistered(w', t) && t.jid == j {
      var t :| IsRegistered(w, t) && t.jid == j;
      assert IsRegistered(w', t);
    }
  }

  lemma AddedExact(w: World, w': World, x: Task)
    requires Exact(w) && w'.cancels == w.cancels[x.jid := x.token]
    requires forall t :: IsRegistered(w', t) <==> IsRegistered(w, t) || t == x
    requires forall t :: IsRegistered(w, t) ==> t.jid != x.jid
    ensures Exact(w')
  {
    forall j | j in w'.cancels ensures exists t :: IsRegistered(w', t) && t.jid == j {
      if j == x.jid {
        assert IsRegistered(w', x);
      } else {
        var t :| IsRegistered(w, t) && t.jid == j;
        assert IsRegistered(w', t);
      }
    }
  }

  lemma RemovedExact(w: World, w': World, x: Task)
    requires Exact(w) && w'.cancels == w.cancels - {x.jid}
    requires IsRegistered(w, x) && forall t :: IsRegistered(w', t) <==> IsRegistered(w, t) && t != x
    requires forall t :: IsRegistered(w, t) && t.jid == x.jid ==> t == x
    ensures Exact(w')
  {
    forall j | j in w'.cancels ensures exists t :: IsRegistered(w', t) && t.jid == j {
      var t :| IsRegistered(w, t) && t.jid == j;
      assert IsRegistered(w', t);
    }
  }

  /** A taken message is not registered yet. */
  lemma ReceiveFrame(w: World, msg: Msg)
    ensures var w' := Receives(w, msg);
      && w'.queue == w.queue && w'.worker == w.worker && w'.cancels == w.cancels
      && (w' == w || (w.callback.Idle? && w'.nextToken == w.nextToken + 1 &&
            w'.callback == if IsJob(msg) then Acked(TaskFor(w, msg)) else Admitted(TaskFor(w, msg))))
  {
  }

  lemma ReceiveUnique(w: World, msg: Msg)
    requires Unique(w)
    ensures Unique(Receives(w, msg))
  {
    ReceiveFrame(w, msg);
    var w' := Receives(w, msg);
    assert w' != w ==> !HasToken(w.queue, w.nextToken);
  }

  lemma ReceiveExact(w: World, msg: Msg)
    requires Unique(w) && Exact(w)
    ensures Unique(Receives(w, msg)) && Exact(Receives(w, msg))
  {
    ReceiveFrame(w, msg);
    ReceiveUnique(w, msg);
    SameExact(w, Receives(w, msg));
  }

  lemma RegisterExact(w: World, encodes: bool)
    requires Unique(w) && Exact(w) && LiveOnce(w) && w.callback.Acked?
    ensures Unique(Advance(w, encodes)) && Exact(Advance(w, encodes))
  {
    var x := w.callback.task;
    var w' := Advance(w, encodes);
    assert IsLive(w, x);
    forall t | IsRegistered(w, t) ensures t.jid != x.jid {
      assert IsLive(w, t);
      TokenOfRegistered(w, t);
    }
    AddedExact(w, w', x);
  }

  /** A registered task is not the one the callback holds unregistered. */
  lemma TokenOfRegistered(w: World, t: Task)
    requires Unique(w) && IsRegistered(w, t) && (w.callback.Acked? || w.callback.Unqueued?)
    ensures t != w.callback.task
  {
    if t in w.queue {
      var i :| 0 <= i < |w.queue| && w.queue[i] == t;
      assert HasToken(w.queue, t.token);
    }
  }

  lemma PlaceExact(w: World, encodes: bool)
    requires Unique(w) && Exact(w) && (w.callback.Admitted? || w.callback.Inline?)
    ensures Unique(Advance(w, encodes)) && Exact(Advance(w, encodes))
  {
    PlaceUnique(w, encodes);
    PlaceKeepsExact(w, encodes);
  }

  lemma PlaceKeepsExact(w: World, encodes: bool)
    requires Exact(w) && (w.callback.Admitted? || w.callback.Inline?)
    ensures Exact(Advance(w, encodes))
  {
    PlaceKeepsRegistered(w, encodes);
    SameExact(w, Advance(w, encodes));
  }

  lemma PlaceKeepsRegistered(w: World, encodes: bool)
    requires w.callback.Admitted? || w.callback.Inline?
    ensures forall t :: IsRegistered(Advance(w, encodes), t) <==> IsRegistered(w, t)
  {
  }

  lemma PlaceUnique(w: World, encodes: bool)
    requires Unique(w) && (w.callback.Admitted? || w.callback.Inline?)
    ensures Unique(Advance(w, encodes))
  {
    var w' := Advance(w, encodes);
    if w.callback.Admitted? && !w.callback.task.readOnly && |w.queue| < QueueSize {
      QueueUnique(w, w.callback.task);
    } else {
      assert w'.queue == w.queue && w'.worker == w.worker && w'.nextToken == w.nextToken;
      HeldUnique(w, w');
    }
  }

  lemma HeldUnique(w: World, w': World)
    requires Unique(w) && w'.queue == w.queue && w'.worker == w.worker && w'.nextToken == w.nextToken
    requires !w.callback.Idle? && !w'.callback.Idle? && !w'.callback.Acked? && w'.callback.task == w.callback.task
    ensures Unique(w')
  {
  }

  lemma QueueUnique(w: World, x: Task)
    requires Unique(w) && w.callback.Admitted? && w.callback.task == x
    ensures Unique(w.(queue := w.queue + [x], arrived := w.arrived + [x], callback := Idle))
  {
    var q := w.queue + [x];
    forall t | WorkerHolds(w.worker, t) ensures t.token < w.nextToken && !HasToken(q, t.token) {
      assert !HasToken(w.queue, t.token);
    }
    assert !HasToken(w.queue, x.token);
  }

  /** Dropping the registration of a task that is on its way out. */
  lemma CallbackReleaseExact(w: World, encodes: bool)
    requires Unique(w) && Exact(w) && LiveOnce(w) && (w.callback.InlineDone? || w.callback.Refusing?)
    ensures Unique(Advance(w, encodes)) && Exact(Advance(w, encodes))
  {
    var x := w.callback.task;
    var w' := Advance(w, encodes);
    assert CallbackHolds(w.callback, x);
    forall t ensures IsRegistered(w', t) <==> IsRegistered(w, t) && t != x {
      if t == x && t in w.queue {
        var i :| 0 <= i < |w.queue| && w.queue[i] == t;
        assert HasToken(w.queue, x.token);
      }
    }
    if x.isJob {
      assert IsLive(w, x);
      assert forall t :: IsRegistered(w, t) ==> IsLive(w, t);
      RemovedExact(w, w', x);
    } else {
      SameExact(w, w');
    }
  }

  lemma UnqueuedExact(w: World, encodes: bool)
    requires Unique(w) && Exact(w) && w.callback.Unqueued?
    ensures Unique(Advance(w, encodes)) && Exact(Advance(w, encodes))
  {
    SameExact(w, Advance(w, encodes));
  }

  lemma AdvanceExact(w: World, encodes: bool)
    requires Unique(w) && Exact(w) && LiveOnce(w)
    ensures Unique(Advance(w, encodes)) && Exact(Advance(w, encodes))
  {
    match w.callback
    case Idle =>
    case Acked(_) => RegisterExact(w, encodes);
    case Admitted(_) => PlaceExact(w, encodes);
    case Inline(_) => PlaceExact(w, encodes);
    case InlineDone(_) => CallbackReleaseExact(w, encodes);
    case Refusing(_) => CallbackReleaseExact(w, encodes);
    case Unqueued(_) => UnqueuedExact(w, encodes);
  }

  lemma TakeExact(w: World, encodes: bool)
    requires Unique(w) && Exact(w) && w.worker.Resting? && w.queue != []
    ensures Unique(Works(w, encodes)) && Exact(Works(w, encodes))
  {
    var w' := Works(w, encodes);
    assert w.queue == [w.queue[0]] + w'.queue;
    assert w'.callback == w.callback && WorkerHolds(w'.worker, w.queue[0]);
    SameExact(w, w');
  }

  lemma ReturnExact(w: World, encodes: bool)
    requires Unique(w) && Exact(w) && w.worker.Running?
    ensures Unique(Works(w, encodes)) && Exact(Works(w, encodes))
  {
    var w' := Works(w, encodes);
    assert forall t :: WorkerHolds(w'.worker, t) <==> WorkerHolds(w.worker, t);
    SameExact(w, w');
  }

  lemma WorkerReleaseExact(w: World, encodes: bool)
    requires Unique(w) && Exact(w) && LiveOnce(w) && w.worker.Returned?
    ensures Unique(Works(w, encodes)) && Exact(Works(w, encodes))
  {
    var x := w.worker.task;
    var w' := Works(w, encodes);
    assert WorkerHolds(w.worker, x);
    forall t ensures IsRegistered(w', t) <==> IsRegistered(w, t) && t != x {
      if t == x && t in w.queue {
        var i :| 0 <= i < |w.queue| && w.queue[i] == t;
        assert HasToken(w.queue, x.token);
      }
    }
    if x.isJob {
      assert IsLive(w, x);
      assert forall t :: IsRegistered(w, t) ==> IsLive(w, t);
      RemovedExact(w, w', x);
    } else {
      SameExact(w, w');
    }
  }

  lemma DrainRegisters(w: World, encodes: bool)
    requires Unique(w) && w.worker.Draining? && w.queue != []
    ensures Unique(Works(w, encodes))
    ensures forall t :: IsRegistered(Works(w, encodes), t) <==> IsRegistered(w, t) && t != w.queue[0]
  {
    var x := w.queue[0];
    var w' := Works(w, encodes);
    assert w.queue == [x] + w'.queue && x in w.queue;
    forall t ensures IsRegistered(w', t) <==> IsRegistered(w, t) && t != x {
      if CallbackHolds(w.callback, t) && t == x {
        assert HasToken(w.queue, x.token);
      }
    }
  }

  lemma DrainExact(w: World, encodes: bool)
    requires Unique(w) && Exact(w) && LiveOnce(w) && w.worker.Draining? && w.queue != []
    ensures Unique(Works(w, encodes)) && Exact(Works(w, encodes))
  {
    var x := w.queue[0];
    var w' := Works(w, encodes);
    DrainRegisters(w, encodes);
    assert x in w.queue;
    if x.isJob {
      assert IsLive(w, x);
      assert forall t :: IsRegistered(w, t) ==> IsLive(w, t);
      RemovedExact(w, w', x);
    } else {
      SameExact(w, w');
    }
  }

  lemma WorkExact(w: World, encodes: bool)
    requires Unique(w) && Exact(w) && LiveOnce(w)
    ensures Unique(Works(w, encodes)) && Exact(Works(w, encodes))
  {
    match w.worker
    case Resting =>
      if w.queue == [] {
        SameExact(w, Works(w, encodes));
      } else {
        TakeExact(w, encodes);
      }
    case Running(_) => ReturnExact(w, encodes);
    case Returned(_) => WorkerReleaseExact(w, encodes);
    case Draining =>
      if w.queue == [] {
        SameExact(w, Works(w, encodes));
      } else {
        DrainExact(w, encodes);
      }
    case Gone =>
  }

  lemma StepExact(w: World, s: Step)
    requires Unique(w) && Exact(w) && LiveOnce(w)
    ensures Unique(Apply(w, s)) && Exact(Apply(w, s))
  {
    match s
    case Receive(msg) => ReceiveExact(w, msg);
    case Callback(encodes) => AdvanceExact(w, encodes);
    case Work(encodes) => WorkExact(w, encodes);
    case Cancel(_) => SameExact(w, Apply(w, s));
    case Shutdown => SameExact(w, Apply(w, s));
    case Quit => SameExact(w, Apply(w, s));
  }

  /** As long as each job id is live at most once, the registry's keys are exactly the ids of the
      jobs that are queued, running or being placed, each with its own context. */
  lemma {:induction false} RegistryIsExact(ws: seq<World>, steps: seq<Step>, i: nat)
    requires IsRun(ws, steps) && i < |ws|
    requires forall k :: 0 <= k < i ==> LiveOnce(ws[k])
    ensures Unique(ws[i]) && Exact(ws[i])
    decreases i
  {
    if i > 0 {
      RegistryIsExact(ws, steps, i - 1);
      StepExact(ws[i - 1], steps[i - 1]);
    }
  }

  /** Then a cancel reaches exactly the job it names, queued or running, or nothing. */
  lemma CancelReachesItsJob(w: World, t: Task, jid: Jid)
    requires Exact(w)
    ensures IsRegistered(w, t) && t.jid == jid ==>
      Apply(w, Cancel(jid)).cancelled == w.cancelled + {t.token}
    ensures (forall x :: IsRegistered(w, x) ==> x.jid != jid) ==> Apply(w, Cancel(jid)) == w
  {
  }

  /** The condition is needed: when the worker releases a job whose id a queued job shares, the
      queued one is left without a registration and can no longer be cancelled. */
  lemma SharedIdLosesCancel(w: World, t: Task, encodes: bool)
    requires w.worker.Returned? && w.worker.task.isJob
    requires t in w.queue && t.isJob && t.jid == w.worker.task.jid
    ensures var w' := Works(w, encodes);
      IsRegistered(w', t) && t.jid !in w'.cancels && Apply(w', Cancel(t.jid)) == w'
  {
  }

  ghost predicate Reachable(w: World) {
    exists ws, steps :: IsRun(ws, steps) && ws[|steps|] == w
  }

  lemma InitReachable(capacity: int, fence: Dedup.Tracker)
    ensures Reachable(Init(capacity, fence))
  {
    assert IsRun([Init(capacity, fence)], []);
  }

  lemma ExtendRun(ws: seq<World>, steps: seq<Step>, s: Step, next: World)
    requires IsRun(ws, steps) && next == Apply(ws[|steps|], s)
    ensures IsRun(ws + [next], steps + [s])
  {
    var ws', steps' := ws + [next], steps + [s];
    forall i | 0 <= i < |steps'| ensures ws'[i + 1] == Apply(ws'[i], steps'[i]) {
      assert ws'[i] == ws[i];
      if i < |steps| {
        assert steps'[i] == steps[i] && ws'[i + 1] == ws[i + 1];
      }
    }
  }

  lemma Reach(w: World, s: Step)
    requires Reachable(w)
    ensures Reachable(Apply(w, s))
  {
    var ws, steps :| IsRun(ws, steps) && ws[|steps|] == w;
    var next := Apply(w, s);
    ExtendRun(ws, steps, s, next);
    assert (ws + [next])[|steps + [s]|] == next;
  }

  // ----- the fence -----

  /** The fence looks at this task. */
  predicate Counts(t: Task) {
    t.isJob && t.epoch > 0
  }

  /** The dispatches the fence was asked about so far. */
  ghost function Offered(ws: seq<World>, steps: seq<Step>, i: nat): (ds: seq<Dedup.Dispatch>)
    requires i <= |steps| < |ws|
  {
    if i == 0 then []
    else
      var s := steps[i - 1];
      Offered(ws, steps, i - 1) +
      (if s.Receive? && ws[i - 1].callback.Idle? && IsJob(s.msg) && s.msg.epoch > 0
       then [Dedup.Dispatch(s.msg.jid, s.msg.epoch)] else [])
  }

  /** A message that comes while the tracker stands at `t` is a job at an epoch not above the one on
      record. */
  ghost predicate IsStale(t: Dedup.Tracker, msg: Msg) {
    !msg.wantsReply && msg.jid != "" && msg.epoch > 0 && msg.jid in t.m && msg.epoch <= t.m[msg.jid]
  }

  /** One task for each message that came to an idle callback and was not stale. */
  ghost function Admissible(ws: seq<World>, steps: seq<Step>, i: nat): (ts: seq<Task>)
    requires i <= |steps| < |ws|
  {
    if i == 0 then []
    else
      var s := steps[i - 1];
      var before := Admissible(ws, steps, i - 1);
      var t := Dedup.ObservedFrom(ws[0].fence, ws[0].capacity, Offered(ws, steps, i - 1));
      if s.Receive? && ws[i - 1].callback.Idle? && !IsStale(t, s.msg)
      then before + [Task(s.msg.jid, !s.msg.wantsReply && s.msg.jid != "", s.msg.readOnly, s.msg.epoch, |before|)]
      else before
  }

  ghost predicate SameIntake(w: World, w': World) {
    && w'.capacity == w.capacity && w'.fence == w.fence && w'.forgotten == w.forgotten
    && w'.accepted == w.accepted && w'.nextToken == w.nextToken && w'.acks == w.acks
  }

  lemma AdvanceIntake(w: World, encodes: bool)
    ensures SameIntake(w, Advance(w, encodes))
  {
    match w.callback
    case Idle =>
    case Acked(_) =>
    case Admitted(_) =>
    case Inline(t) => assert SameIntake(w, Answer(w, t, encodes));
    case InlineDone(t) => assert SameIntake(w, Release(w, t));
    case Refusing(t) => assert SameIntake(w, Release(w, t));
    case Unqueued(t) => assert SameIntake(w, Answer(w, t, true));
  }

  lemma WorkIntake(w: World, encodes: bool)
    ensures SameIntake(w, Works(w, encodes))
  {
    match w.worker
    case Running(t) => assert SameIntake(w, Answer(w, t, encodes));
    case Returned(t) => assert SameIntake(w, Release(w, t));
    case Draining => assert w.queue != [] ==> SameIntake(w, Release(w, w.queue[0]));
    case _ =>
  }

  /** Only a message changes the fence, what it forgot, what was accepted and acknowledged. */
  lemma OnlyMessagesPass(w: World, s: Step)
    requires !s.Receive?
    ensures SameIntake(w, Apply(w, s))
  {
    match s
    case Callback(encodes) => AdvanceIntake(w, encodes);
    case Work(encodes) => WorkIntake(w, encodes);
    case _ =>
  }

  lemma MessagePasses(w: World, msg: Msg)
    requires w.nextToken == |w.accepted| && w.acks == Jobs(w.accepted)
    ensures var w' := Receives(w, msg);
      && w'.capacity == w.capacity && w'.nextToken == |w'.accepted| && w'.acks == Jobs(w'.accepted)
      && w'.accepted == (if w.callback.Idle? && !IsStale(w.fence, msg) then w.accepted + [TaskFor(w, msg)]
                         else w.accepted)
      && w'.fence == (if w.callback.Idle? && IsJob(msg) && msg.epoch > 0
                      then Dedup.Observed(w.fence, w.capacity, msg.jid, msg.epoch) else w.fence)
  {
    JobsAppend(w.accepted, TaskFor(w, msg));
  }

  /** The intake of a world after `i` steps: what was accepted and acknowledged, and where the fence
      stands. */
  ghost predicate IntakeOk(ws: seq<World>, steps: seq<Step>, i: nat)
    requires i <= |steps| < |ws|
  {
    && ws[i].capacity == ws[0].capacity && ws[i].nextToken == |ws[i].accepted|
    && ws[i].acks == Jobs(ws[i].accepted)
    && ws[i].accepted == Admissible(ws, steps, i)
    && ws[i].fence == Dedup.ObservedFrom(ws[0].fence, ws[0].capacity, Offered(ws, steps, i))
  }

  lemma {:induction false} RunAccepts(ws: seq<World>, steps: seq<Step>, i: nat)
    requires IsRun(ws, steps) && i < |ws|
    ensures IntakeOk(ws, steps, i)
  {
    var ok := (k: nat) => k < |ws| && IntakeOk(ws, steps, k);
    assert ok(0);
    forall k: nat | 0 < k < |ws| && ok(k - 1) ensures ok(k) {
      assert ws[k] == Apply(ws[k - 1], steps[k - 1]);
      IntakeNext(ws, steps, k);
    }
    Along(ok, |ws|, i);
  }

  /** What holds at the start and is handed on holds all along. */
  lemma {:induction false} Along(ok: nat -> bool, n: nat, i: nat)
    requires ok(0) && i < n && forall k: nat :: 0 < k < n && ok(k - 1) ==> ok(k)
    ensures ok(i)
  {
    if i > 0 {
      Along(ok, n, i - 1);
    }
  }

  lemma IntakeNext(ws: seq<World>, steps: seq<Step>, i: nat)
    requires 0 < i <= |steps| < |ws| && IntakeOk(ws, steps, i - 1)
    requires ws[i] == Apply(ws[i - 1], steps[i - 1])
    ensures IntakeOk(ws, steps, i)
  {
    if steps[i - 1].Receive? {
      MessageIntake(ws, steps, i);
    } else {
      OtherIntake(ws, steps, i);
    }
  }

  lemma MessageIntake(ws: seq<World>, steps: seq<Step>, i: nat)
    requires 0 < i <= |steps| < |ws| && IntakeOk(ws, steps, i - 1)
    requires steps[i - 1].Receive? && ws[i] == Receives(ws[i - 1], steps[i - 1].msg)
    ensures IntakeOk(ws, steps, i)
  {
    MessagePasses(ws[i - 1], steps[i - 1].msg);
    OfferedNext(ws, steps, i);
  }

  lemma OtherIntake(ws: seq<World>, steps: seq<Step>, i: nat)
    requires 0 < i <= |steps| < |ws| && IntakeOk(ws, steps, i - 1)
    requires !steps[i - 1].Receive? && ws[i] == Apply(ws[i - 1], steps[i - 1])
    ensures IntakeOk(ws, steps, i)
  {
    OnlyMessagesPass(ws[i - 1], steps[i - 1]);
    Sequences.AppendsNothing(Offered(ws, steps, i - 1));
  }

  lemma OfferedNext(ws: seq<World>, steps: seq<Step>, i: nat)
    requires 0 < i <= |steps| < |ws| && steps[i - 1].Receive?
    ensures var msg := steps[i - 1].msg;
      var t := Dedup.ObservedFrom(ws[0].fence, ws[0].capacity, Offered(ws, steps, i - 1));
      Dedup.ObservedFrom(ws[0].fence, ws[0].capacity, Offered(ws, steps, i)) ==
      if ws[i - 1].callback.Idle? && IsJob(msg) && msg.epoch > 0
      then Dedup.Observed(t, ws[0].capacity, msg.jid, msg.epoch) else t
  {
    var ds := Offered(ws, steps, i);
    if ds != Offered(ws, steps, i - 1) {
      assert ds[..|ds| - 1] == Offered(ws, steps, i - 1);
    } else {
      assert Offered(ws, steps, i - 1) + [] == Offered(ws, steps, i - 1);
    }
  }

  /** The fence stands above everything it let through and above where it started, apart from the ids
      it forgot; epochs let through for an id rise strictly, from above where the id started. */
  ghost predicate Guards(w: World, first: Dedup.Tracker) {
    && Dedup.Consistent(w.fence, w.capacity)
    && (forall j :: j in first.m && j !in w.forgotten ==> j in w.fence.m && first.m[j] <= w.fence.m[j])
    && (forall k :: 0 <= k < |w.accepted| && Counts(w.accepted[k]) && w.accepted[k].jid !in w.forgotten ==>
          && w.accepted[k].jid in w.fence.m && w.accepted[k].epoch <= w.fence.m[w.accepted[k].jid]
          && (w.accepted[k].jid in first.m ==> first.m[w.accepted[k].jid] < w.accepted[k].epoch))
    && Rises(w.accepted, w.forgotten)
  }

  ghost predicate Rises(ts: seq<Task>, forgotten: set<Jid>) {
    forall a, b :: 0 <= a < b < |ts| && Counts(ts[a]) && Counts(ts[b]) ==>
      (ts[a].jid == ts[b].jid && ts[a].jid !in forgotten ==> ts[a].epoch < ts[b].epoch)
  }

  lemma MessageGuards(w: World, msg: Msg, first: Dedup.Tracker)
    requires Guards(w, first) && w.callback.Idle? && !TurnedAway(w.fence, msg)
    ensures Guards(Passes(w, TaskFor(w, msg)), first)
  {
    var t := TaskFor(w, msg);
    var w' := Passes(w, t);
    if Counts(t) {
      Dedup.ObservedConsistent(w.fence, w.capacity, t.jid, t.epoch);
      Dedup.AcceptedIsNewer(w.fence, w.capacity, t.jid, t.epoch);
    }
  }

  lemma StepGuards(w: World, s: Step, first: Dedup.Tracker)
    requires Guards(w, first)
    ensures Guards(Apply(w, s), first)
  {
    if !s.Receive? {
      OnlyMessagesPass(w, s);
    } else if w.callback.Idle? && !TurnedAway(w.fence, s.msg) {
      MessageGuards(w, s.msg, first);
    }
  }

  lemma {:induction false} RunGuards(ws: seq<World>, steps: seq<Step>, i: nat)
    requires IsRun(ws, steps) && Dedup.Consistent(ws[0].fence, ws[0].capacity) && i < |ws|
    ensures Guards(ws[i], ws[0].fence)
    decreases i
  {
    if i > 0 {
      RunGuards(ws, steps, i - 1);
      assert ws[i] == Apply(ws[i - 1], steps[i - 1]);
      StepGuards(ws[i - 1], steps[i - 1], ws[0].fence);
    }
  }

  // ----- what runs is what was accepted, once -----

  /** Accepted under its own token. */
  ghost predicate IsAccepted(w: World, t: Task) {
    t.token < |w.accepted| && w.accepted[t.token] == t
  }

  /** Accepted tasks are numbered, and reach the queue in that order. */
  ghost predicate Numbered(w: World) {
    && w.nextToken == |w.accepted|
    && (forall k :: 0 <= k < |w.arrived| ==> IsAccepted(w, w.arrived[k]))
    && (forall a, b :: 0 <= a < b < |w.arrived| ==> w.arrived[a].token < w.arrived[b].token)
    && (!w.callback.Idle? ==> IsAccepted(w, w.callback.task))
    && (w.callback.Acked? || w.callback.Admitted? ==>
          forall k :: 0 <= k < |w.arrived| ==> w.arrived[k].token < w.callback.task.token)
  }

  lemma MessageNumbered(w: World, msg: Msg)
    requires Numbered(w)
    ensures Numbered(Receives(w, msg))
  {
    if w.callback.Idle? && !TurnedAway(w.fence, msg) {
      var w' := Receives(w, msg);
      assert w'.accepted == w.accepted + [TaskFor(w, msg)] && w'.arrived == w.arrived;
      assert forall t :: IsAccepted(w, t) ==> IsAccepted(w', t);
    }
  }

  lemma AdvanceNumbered(w: World, encodes: bool)
    requires Numbered(w)
    ensures Numbered(Advance(w, encodes))
  {
    var w' := Advance(w, encodes);
    AdvanceIntake(w, encodes);
    assert forall t :: IsAccepted(w, t) ==> IsAccepted(w', t);
    AdvanceArrived(w, encodes);
  }

  lemma AdvanceArrived(w: World, encodes: bool)
    ensures var w' := Advance(w, encodes);
      && w'.arrived == w.arrived + (if w'.callback.Idle? && w.callback.Admitted? then [w.callback.task] else [])
      && (w'.callback.Idle? || w'.callback.task == w.callback.task)
      && !w'.callback.Acked? && (w'.callback.Admitted? ==> w.callback.Acked?)
  {
  }

  lemma OthersNumbered(w: World, s: Step)
    requires Numbered(w) && !s.Receive? && !s.Callback?
    ensures Numbered(Apply(w, s))
  {
    OnlyMessagesPass(w, s);
    var w' := Apply(w, s);
    assert w'.arrived == w.arrived && w'.callback == w.callback by {
      if s.Work? {
        WorkKeepsArrived(w, s.encodes);
      }
    }
    assert forall t :: IsAccepted(w, t) ==> IsAccepted(w', t);
  }

  lemma WorkKeepsArrived(w: World, encodes: bool)
    ensures Works(w, encodes).arrived == w.arrived && Works(w, encodes).callback == w.callback
  {
  }

  lemma {:induction false} RunNumbered(ws: seq<World>, steps: seq<Step>, i: nat)
    requires IsRun(ws, steps) && i < |ws|
    ensures Numbered(ws[i])
    decreases i
  {
    if i > 0 {
      RunNumbered(ws, steps, i - 1);
      var s := steps[i - 1];
      assert ws[i] == Apply(ws[i - 1], s);
      match s
      case Receive(msg) => MessageNumbered(ws[i - 1], msg);
      case Callback(encodes) => AdvanceNumbered(ws[i - 1], encodes);
      case _ => OthersNumbered(ws[i - 1], s);
    }
  }

  /** In every run: what the peel accepted is exactly what came to an idle callback and was not stale by
      the tracker of everything it was asked before; every job among it was acknowledged once, nothing
      else was; and only accepted work is ever queued, started or dropped, each piece once. */
  lemma OnlyUnfencedWorkRuns(ws: seq<World>, steps: seq<Step>, i: nat)
    requires IsRun(ws, steps) && i < |ws|
    ensures ws[i].accepted == Admissible(ws, steps, i) && ws[i].acks == Jobs(ws[i].accepted)
    ensures var ran := ws[i].started + ws[i].dropped + ws[i].queue;
      && (forall k :: 0 <= k < |ran| ==> IsAccepted(ws[i], ran[k]))
      && (forall a, b :: 0 <= a < b < |ran| ==> ran[a].token < ran[b].token)
    ensures !ws[i].callback.Idle? ==> IsAccepted(ws[i], ws[i].callback.task)
  {
    RunAccepts(ws, steps, i);
    RunNumbered(ws, steps, i);
    RunInOrder(ws, steps, i);
  }

  /** A stale message changes nothing; any other that comes to an idle callback is taken. */
  lemma FenceDecides(ws: seq<World>, steps: seq<Step>, i: nat)
    requires IsRun(ws, steps) && i < |steps| && steps[i].Receive? && ws[i].callback.Idle?
    ensures var msg := steps[i].msg;
      if IsStale(Dedup.ObservedFrom(ws[0].fence, ws[0].capacity, Offered(ws, steps, i)), msg) then ws[i + 1] == ws[i]
      else
        var isJob := !msg.wantsReply && msg.jid != "";
        && ws[i + 1].accepted == ws[i].accepted +
             [Task(msg.jid, isJob, msg.readOnly, msg.epoch, |ws[i].accepted|)]
        && ws[i + 1].acks == ws[i].acks + (if isJob then 1 else 0)
        && !ws[i + 1].callback.Idle?
  {
    RunAccepts(ws, steps, i);
    MessagePasses(ws[i], steps[i].msg);
    JobsAppend(ws[i].accepted, TaskFor(ws[i], steps[i].msg));
    assert ws[i + 1] == Apply(ws[i], steps[i]);
  }

  /** So one process never accepts or starts a job twice at one epoch, nor after a newer one, and never
      at an epoch that was on record when it started, unless the tracker evicted the id meanwhile. */
  lemma NoJobStartsTwice(ws: seq<World>, steps: seq<Step>, i: nat, a: nat, b: nat)
    requires IsRun(ws, steps) && Dedup.Consistent(ws[0].fence, ws[0].capacity) && i < |ws|
    requires a <= b < |ws[i].started| && Counts(ws[i].started[b]) && ws[i].started[b].jid !in ws[i].forgotten
    ensures Rises(ws[i].accepted, ws[i].forgotten)
    ensures a < b && Counts(ws[i].started[a]) && ws[i].started[a].jid == ws[i].started[b].jid ==>
      ws[i].started[a].epoch < ws[i].started[b].epoch
    ensures ws[i].started[b].jid in ws[0].fence.m ==>
      ws[0].fence.m[ws[i].started[b].jid] < ws[i].started[b].epoch
  {
    RunGuards(ws, steps, i);
    RunNumbered(ws, steps, i);
    RunInOrder(ws, steps, i);
    StartedFirst(ws[i]);
    assert ws[i].started[a] == ws[i].arrived[a] && ws[i].started[b] == ws[i].arrived[b];
    assert IsAccepted(ws[i], ws[i].arrived[a]) && IsAccepted(ws[i], ws[i].arrived[b]);
  }

  // ----- the agent -----

  /** A whole callback, with nothing else in between: further steps of an idle callback are no-ops. */
  function Handled(w: World, msg: Msg, encodes: bool): (w': World) {
    Advance(Advance(Advance(Advance(Receives(w, msg), encodes), encodes), encodes), encodes)
  }

  /** After acknowledging and registering. */
  function Registered(w: World, t: Task): (w': World) {
    w.(nextToken := w.nextToken + 1, accepted := w.accepted + [t], acks := w.acks + Weight(t),
       cancels := if t.isJob then w.cancels[t.jid := t.token] else w.cancels)
  }

  /** After the fence as well. */
  function Taken(w: World, t: Task): (w': World) {
    Registered(Noted(w, t.jid, t.isJob, t.epoch), t)
  }

  /** After running inline, queueing or refusing. */
  function Placed(w: World, t: Task, encodes: bool): (w': World) {
    if t.readOnly then Release(Answer(w, t, encodes), t)
    else if |w.queue| < QueueSize then w.(queue := w.queue + [t], arrived := w.arrived + [t])
    else Answer(Release(w, t), t, true)
  }

  lemma InlineIsPlaced(w: World, t: Task, encodes: bool)
    requires w.callback == Admitted(t) && t.readOnly
    ensures Advance(Advance(Advance(w, encodes), encodes), encodes) == Placed(w.(callback := Idle), t, encodes)
  {
    var w1 := Advance(w, encodes);
    assert w1 == w.(callback := Inline(t));
    var w2 := Advance(w1, encodes);
    assert w2 == Answer(w, t, encodes).(callback := InlineDone(t));
  }

  lemma RefusedIsPlaced(w: World, t: Task, encodes: bool)
    requires w.callback == Admitted(t) && !t.readOnly && |w.queue| >= QueueSize
    ensures Advance(Advance(Advance(w, encodes), encodes), encodes) == Placed(w.(callback := Idle), t, encodes)
  {
    var w1 := Advance(w, encodes);
    assert w1 == w.(callback := Refusing(t));
    var w2 := Advance(w1, encodes);
    assert w2 == Release(w, t).(callback := Unqueued(t));
  }

  lemma AdmittedIsPlaced(w: World, t: Task, encodes: bool)
    requires w.callback.Admitted? && w.callback.task == t
    ensures Advance(Advance(Advance(w, encodes), encodes), encodes) == Placed(w.(callback := Idle), t, encodes)
  {
    if t.readOnly {
      InlineIsPlaced(w, t, encodes);
    } else if |w.queue| >= QueueSize {
      RefusedIsPlaced(w, t, encodes);
    } else {
      assert Advance(w, encodes) == Placed(w.(callback := Idle), t, encodes);
    }
  }

  lemma TakenThenPlaced(w: World, msg: Msg, encodes: bool)
    requires w.callback.Idle? && !TurnedAway(w.fence, msg)
    ensures Handled(w, msg, encodes) == Placed(Taken(w, TaskFor(w, msg)), TaskFor(w, msg), encodes)
  {
    var t := TaskFor(w, msg);
    var w1 := Receives(w, msg);
    if t.isJob {
      AdmittedIsPlaced(Advance(w1, encodes), t, encodes);
    } else {
      AdmittedIsPlaced(w1, t, encodes);
      var w4 := Advance(Advance(Advance(w1, encodes), encodes), encodes);
      assert w4.callback.Idle?;
    }
  }

  /** What a callback comes to, field by field. A job whose epoch is not above the one on record has no
      effect at all. Anything else is taken: a job is acknowledged once, and its epoch, if it has one,
      is put on record; read-only work is answered at once and leaves no registration, other work goes
      to the end of the queue and a job among it is registered, and with a full queue a job gets a
      failed return and leaves no registration. */
  ghost predicate TakesIn(w: World, w': World, msg: Msg, encodes: bool) {
    var isJob := !msg.wantsReply && msg.jid != "";
    var stale := isJob && msg.epoch > 0 && msg.jid in w.fence.m && msg.epoch <= w.fence.m[msg.jid];
    var task := Task(msg.jid, isJob, msg.readOnly, msg.epoch, w.nextToken);
    var room := !msg.readOnly && |w.queue| < QueueSize;
    if stale then w' == w
    else
      && w'.accepted == w.accepted + [task] && w'.nextToken == w.nextToken + 1
      && w'.acks == w.acks + (if isJob then 1 else 0)
      && (if isJob && msg.epoch > 0 then msg.jid in w'.fence.m && w'.fence.m[msg.jid] == msg.epoch
          else w'.fence == w.fence)
      && w'.queue == w.queue + (if room then [task] else [])
      && w'.arrived == w.arrived + (if room then [task] else [])
      && w'.cancels == (if !isJob then w.cancels
                        else if room then w.cancels[msg.jid := task.token]
                        else w.cancels - {msg.jid})
      && w'.answers == w.answers + (if isJob && !room && (encodes || !msg.readOnly) then 1 else 0)
      && w'.silent == w.silent + (if isJob && !room && !encodes && msg.readOnly then 1 else 0)
      && w'.started == w.started && w'.worker == w.worker && w'.callback == w.callback
  }

  lemma PlacedMeans(w: World, msg: Msg, encodes: bool)
    requires !TurnedAway(w.fence, msg)
    ensures TakesIn(w, Placed(Taken(w, TaskFor(w, msg)), TaskFor(w, msg), encodes), msg, encodes)
  {
    var t := TaskFor(w, msg);
    assert w.cancels[t.jid := t.token] - {t.jid} == w.cancels - {t.jid};
  }

  lemma HandledMeans(w: World, msg: Msg, encodes: bool)
    requires w.callback.Idle?
    ensures TakesIn(w, Handled(w, msg, encodes), msg, encodes)
  {
    if !TurnedAway(w.fence, msg) {
      TakenThenPlaced(w, msg, encodes);
      PlacedMeans(w, msg, encodes);
    }
  }

  lemma ReachHandled(w: World, msg: Msg)
    requires Reachable(w)
    ensures Reachable(Handled(w, msg, true))
  {
    var c := Callback(true);
    var w1 := Apply(w, Receive(msg));
    Reach(w, Receive(msg));
    Reach(w1, c);
    Reach(Apply(w1, c), c);
    Reach(Apply(Apply(w1, c), c), c);
    Reach(Apply(Apply(Apply(w1, c), c), c), c);
  }

  /** A job at a newer epoch is queued, if there is room. */
  lemma QueueJob(w: World, jid: Jid, epoch: nat) returns (w': World)
    requires Reachable(w) && jid != "" && epoch > 0 && (jid in w.fence.m ==> w.fence.m[jid] < epoch)
    requires w.callback.Idle? && |w.queue| < QueueSize
    ensures Reachable(w') && w'.callback.Idle? && w'.worker == w.worker && w'.shutdown == w.shutdown
    ensures jid in w'.fence.m && w'.fence.m[jid] == epoch
    ensures w'.queue == w.queue + [Task(jid, true, false, epoch, w.nextToken)]
  {
    var msg := Msg(jid, false, false, epoch);
    w' := Handled(w, msg, true);
    ReachHandled(w, msg);
    TakenThenPlaced(w, msg, true);
  }

  /** The lost cancel is reachable from any tracker: a job dispatched again at a newer epoch while it
      runs. */
  lemma SharedIdIsReachable(jid: Jid, capacity: int, fence: Dedup.Tracker) returns (w: World)
    requires jid != ""
    ensures Reachable(w) && w.worker.Returned? && w.worker.task.isJob && w.worker.task.jid == jid
    ensures |w.queue| == 1 && w.queue[0].isJob && w.queue[0].jid == jid
  {
    var e := if jid in fence.m then fence.m[jid] else 0;
    InitReachable(capacity, fence);
    var w1 := QueueJob(Init(capacity, fence), jid, e + 1);
    var w2 := QueueJob(w1, jid, e + 2);
    Reach(w2, Work(true));
    Reach(Apply(w2, Work(true)), Work(true));
    w := Apply(Apply(w2, Work(true)), Work(true));
  }

  /** A whole turn of the worker. */
  function Served(w: World, encodes: bool): (w': World) {
    Works(Works(Works(w, encodes), encodes), encodes)
  }

  class Agent {
    const dedup: Dedup.DedupTracker
    var execQueue: seq<Task>
    var cancelFuncs: map<Jid, Token>
    var cancelled: set<Token>
    var nextToken: Token
    ghost var forgotten: set<Jid>
    ghost var accepted: seq<Task>
    ghost var acks: nat
    ghost var answers: nat
    ghost var silent: nat
    ghost var arrived: seq<Task>
    ghost var started: seq<Task>

    /** The agent between callbacks, with the worker at rest and before any shutdown. */
    ghost function View(): (w: World)
      reads this, dedup
    {
      World(dedup.capacity, dedup.View(), forgotten, accepted, Idle, execQueue, Resting, cancelFuncs, cancelled,
            false, nextToken, acks, answers, silent, 0, arrived, started, [])
    }

    constructor (dedup: Dedup.DedupTracker)
      ensures this.dedup == dedup && View() == Init(dedup.capacity, dedup.View())
    {
      this.dedup := dedup;
      execQueue, cancelFuncs, cancelled, nextToken := [], map[], {}, 0;
      forgotten, accepted := {}, [];
      acks, answers, silent, arrived, started := 0, 0, 0, [], [];
    }

    method ReleaseExecCancel(t: Task)
      modifies this`cancelFuncs, this`cancelled
      ensures View() == Release(old(View()), t)
      ensures cancelFuncs == if t.isJob then old(cancelFuncs) - {t.jid} else old(cancelFuncs)
      ensures cancelled == if t.isJob then old(cancelled) + {t.token} else old(cancelled)
    {
      if !t.isJob {
        return;
      }
      cancelFuncs := cancelFuncs - {t.jid};
      cancelled := cancelled + {t.token};
    }

    /** dispatchExec: run, then publish the return unless the result cannot be encoded. */
    method DispatchExec(t: Task, encodes: bool)
      modifies this`answers, this`silent
      ensures View() == Answer(old(View()), t, encodes)
      ensures answers == old(answers) + if t.isJob && encodes then 1 else 0
      ensures silent == old(silent) + if t.isJob && !encodes then 1 else 0
    {
      if !t.isJob {
        return;
      }
      if encodes {
        answers := answers + 1;
      } else {
        silent := silent + 1;
      }
    }

    /** The epoch fence; `saved` says whether its file write succeeds. */
    method FencesOff(msg: Msg, isJob: bool, saved: bool) returns (stale: bool)
      requires dedup.Valid() && isJob == IsJob(msg)
      modifies dedup, this`forgotten
      ensures dedup.Valid() && stale == TurnedAway(old(View()).fence, msg)
      ensures View() == if stale then old(View()) else Noted(old(View()), msg.jid, isJob, msg.epoch)
      ensures stale || !isJob || msg.epoch == 0 ==> dedup.disk == old(dedup.disk)
      ensures !stale && isJob && msg.epoch > 0 && saved && dedup.persistent ==> dedup.disk == dedup.m
    {
      if !isJob || msg.epoch == 0 {
        return false;
      }
      ghost var victim := Dedup.Evicts(dedup.View(), dedup.capacity, msg.jid);
      var prev;
      prev, stale := dedup.ObserveDurable(msg.jid, msg.epoch, saved);
      if !stale && victim.Some? {
        forgotten := forgotten + {victim.value};
      }
    }

    /** Acknowledge and register. */
    method Take(task: Task)
      modifies this`nextToken, this`accepted, this`acks, this`cancelFuncs
      ensures View() == Registered(old(View()), task)
    {
      nextToken := nextToken + 1;
      accepted := accepted + [task];
      if task.isJob {
        acks := acks + 1;
        cancelFuncs := cancelFuncs[task.jid := task.token];
      }
    }

    /** The subscription callback does what its protocol steps do, and so what is said of them field
        by field; a job that is taken is fenced on disk before anything else happens to it. */
    method HandleExecRequest(msg: Msg, encodes: bool, saved: bool)
      requires dedup.Valid()
      modifies this, dedup
      ensures dedup.Valid() && View() == Handled(old(View()), msg, encodes)
      ensures TakesIn(old(View()), View(), msg, encodes)
      ensures View() == old(View()) ==> dedup.disk == old(dedup.disk)
      ensures View() != old(View()) && IsJob(msg) && msg.epoch > 0 && saved && dedup.persistent ==>
        dedup.disk == dedup.m
    {
      HandledMeans(View(), msg, encodes);
      var isJob := !msg.wantsReply && msg.jid != "";
      ghost var was := View();
      var stale := FencesOff(msg, isJob, saved);
      if stale {
        return;
      }
      TakenThenPlaced(was, msg, encodes);
      var task := Task(msg.jid, isJob, msg.readOnly, msg.epoch, nextToken);
      Take(task);
      Place(task, encodes);
    }

    /** Run a read-only request at once, queue any other, or refuse it if the queue is full. */
    method Place(task: Task, encodes: bool)
      modifies this
      ensures View() == Placed(old(View()), task, encodes)
    {
      if task.readOnly {
        DispatchExec(task, encodes);
        ReleaseExecCancel(task);
      } else if |execQueue| < QueueSize {
        execQueue := execQueue + [task];
        arrived := arrived + [task];
      } else {
        ReleaseExecCancel(task);
        DispatchExec(task, true);
      }
    }

    /** One turn of the worker loop: the oldest task is run, answered and released. */
    method ServeOne(encodes: bool)
      modifies this
      ensures View() == if old(execQueue) == [] then old(View()) else Served(old(View()), encodes)
      ensures old(execQueue) != [] ==>
        && var t := old(execQueue)[0];
        && execQueue == old(execQueue)[1..] && started == old(started) + [t]
        && answers == old(answers) + (if t.isJob && encodes then 1 else 0)
        && silent == old(silent) + (if t.isJob && !encodes then 1 else 0)
        && cancelFuncs == (if t.isJob then old(cancelFuncs) - {t.jid} else old(cancelFuncs))
    {
      if execQueue == [] {
        return;
      }
      var t := execQueue[0];
      execQueue := execQueue[1..];
      started := started + [t];
      DispatchExec(t, encodes);
      ReleaseExecCancel(t);
    }

    /** The drain at shutdown: every queued registration is released, nothing is executed. */
    method DrainQueue()
      modifies this`execQueue, this`cancelFuncs, this`cancelled
      ensures execQueue == [] && answers == old(answers) && started == old(started)
      ensures forall j :: j in cancelFuncs <==>
        && j in old(cancelFuncs)
        && !exists i :: 0 <= i < |old(execQueue)| && old(execQueue)[i].isJob && old(execQueue)[i].jid == j
    {
      var done := 0;
      ghost var q := execQueue;
      while execQueue != []
        invariant done <= |q| && execQueue == q[done..]
        invariant forall j :: j in cancelFuncs <==>
          j in old(cancelFuncs) && !exists i :: 0 <= i < done && q[i].isJob && q[i].jid == j
        decreases |execQueue|
      {
        var t := execQueue[0];
        execQueue := execQueue[1..];
        ReleaseExecCancel(t);
        done := done + 1;
      }
    }

    method HandleJobCancel(jid: Jid)
      modifies this`cancelled
      ensures View() == Apply(old(View()), Cancel(jid))
      ensures cancelled == old(cancelled) + if jid in cancelFuncs then {cancelFuncs[jid]} else {}
    {
      if jid in cancelFuncs {
        cancelled := cancelled + {cancelFuncs[jid]};
      }
    }
  }
}

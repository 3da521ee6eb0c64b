// The coalescing task queue of core/scan_worker.hpp.
module WorkQueue {
  import opened Types

  datatype TaskKey = TaskKey(pid: nat, tid: nat, processStart: nat, threadStart: nat)

  datatype DispatchTask = DispatchTask(key: TaskKey, threadName: string, state: ProcessState, procName: string, cmdline: string)

  datatype EnqueueResult = Queued | Updated | QueueFull | Stopped

  const MAX_QUEUED := 4096

  // ---- The queue as one list ----------------------------------------------------------------------------

  function IndexOf(tasks: seq<DispatchTask>, key: TaskKey): (i: nat)
    ensures i <= |tasks| && (forall j :: 0 <= j < i ==> tasks[j].key != key) && (i < |tasks| ==> tasks[i].key == key)
  {
    if tasks == [] || tasks[0].key == key then 0 else 1 + IndexOf(tasks[1..], key)
  }

  // A task of a waiting key takes its place; a new one goes to the end if there is room.
  function Offered(waiting: seq<DispatchTask>, task: DispatchTask): seq<DispatchTask> {
    var i := IndexOf(waiting, task.key);
    if i < |waiting| then waiting[i := task]
    else if |waiting| >= MAX_QUEUED then waiting
    else waiting + [task]
  }

  predicate DistinctKeys(tasks: seq<DispatchTask>) {
    forall i, j :: 0 <= i < j < |tasks| ==> tasks[i].key != tasks[j].key
  }

  // ---- Histories ----------------------------------------------------------------------------------------

  // What may happen to a queue, in any order.
  datatype Op = Offer(task: DispatchTask) | TakeOne | StartUp | ShutDown

  datatype State = State(running: bool, waiting: seq<DispatchTask>, delivered: seq<DispatchTask>)

  function Answer(q: State, task: DispatchTask): EnqueueResult {
    if !q.running then Stopped
    else if IndexOf(q.waiting, task.key) < |q.waiting| then Updated
    else if |q.waiting| >= MAX_QUEUED then QueueFull
    else Queued
  }

  function Do(q: State, op: Op): State {
    match op
    case Offer(task) => if q.running then q.(waiting := Offered(q.waiting, task)) else q
    case TakeOne => if q.waiting == [] then q else State(q.running, q.waiting[1..], q.delivered + [q.waiting[0]])
    case StartUp => q.(running := true)
    case ShutDown => State(false, [], q.delivered)
  }

  function After(ops: seq<Op>): State {
    if ops == [] then State(false, [], []) else Do(After(ops[..|ops| - 1]), ops[|ops| - 1])
  }

  predicate Waits(q: State, key: TaskKey) { IndexOf(q.waiting, key) < |q.waiting| }

  // The newest offer of a key, and the newest one that put it into the queue; -1 if there is none.
  function Newest(ops: seq<Op>, key: TaskKey): (i: int)
    ensures -1 <= i < |ops| && (i >= 0 ==> ops[i].Offer? && ops[i].task.key == key)
    ensures forall j :: i < j < |ops| ==> !(ops[j].Offer? && ops[j].task.key == key)
  {
    if ops == [] then -1 else
    var last := ops[|ops| - 1];
    if last.Offer? && last.task.key == key then |ops| - 1 else
    var i := Newest(ops[..|ops| - 1], key);
    assert forall j :: 0 <= j < |ops| - 1 ==> ops[..|ops| - 1][j] == ops[j];
    i
  }

  function Accepted(ops: seq<Op>, key: TaskKey): (i: int)
    ensures -1 <= i < |ops|
  {
    if ops == [] then -1 else
    var before, last := ops[..|ops| - 1], ops[|ops| - 1];
    if last.Offer? && last.task.key == key && Answer(After(before), last.task) == Queued then |ops| - 1 else Accepted(before, key)
  }

  // How often a key was put into the queue, delivered, and discarded by a stop.
  function Acceptances(ops: seq<Op>, key: TaskKey): nat {
    if ops == [] then 0 else
    var before, last := ops[..|ops| - 1], ops[|ops| - 1];
    Acceptances(before, key)
    + (if last.Offer? && last.task.key == key && Answer(After(before), last.task) == Queued then 1 else 0)
  }

  function Deliveries(ops: seq<Op>, key: TaskKey): nat {
    if ops == [] then 0 else
    var before, last := ops[..|ops| - 1], ops[|ops| - 1];
    Deliveries(before, key)
    + (if last.TakeOne? && After(before).waiting != [] && After(before).waiting[0].key == key then 1 else 0)
  }

  function Discards(ops: seq<Op>, key: TaskKey): nat {
    if ops == [] then 0 else
    var before, last := ops[..|ops| - 1], ops[|ops| - 1];
    Discards(before, key) + (if last.ShutDown? && Waits(After(before), key) then 1 else 0)
  }

  // The waiting tasks are of different keys, no more than the limit, each with the payload of the
  // newest offer of its key, and in the order in which the keys were accepted.
  ghost predicate Ordered(ops: seq<Op>) {
    var w := After(ops).waiting;
    && DistinctKeys(w) && |w| <= MAX_QUEUED && (!After(ops).running ==> w == [])
    && (forall k :: 0 <= k < |w| ==> Newest(ops, w[k].key) >= 0 && ops[Newest(ops, w[k].key)].task == w[k])
    && (forall k :: 0 <= k < |w| ==> Accepted(ops, w[k].key) >= 0)
    && (forall j, k :: 0 <= j < k < |w| ==> Accepted(ops, w[j].key) < Accepted(ops, w[k].key))
  }

  lemma {:induction false} AlwaysOrdered(ops: seq<Op>)
    ensures Ordered(ops)
  {
    if ops != [] {
      var before := ops[..|ops| - 1];
      AlwaysOrdered(before);
      OrderedStep(before, ops[|ops| - 1]);
      assert ops == before + [ops[|ops| - 1]];
    }
  }

  lemma {:induction false} Unfold(before: seq<Op>, op: Op, key: TaskKey)
    ensures var ops := before + [op];
      && After(ops) == Do(After(before), op)
      && Newest(ops, key) == (if op.Offer? && op.task.key == key then |before| else Newest(before, key))
      && Accepted(ops, key) == (if op.Offer? && op.task.key == key && Answer(After(before), op.task) == Queued
                                then |before| else Accepted(before, key))
  {
    assert (before + [op])[..|before|] == before;
  }

  lemma OrderedStep(before: seq<Op>, op: Op)
    requires Ordered(before)
    ensures Ordered(before + [op])
  {
    hide Newest, Accepted, After, IndexOf;
    var ops, q := before + [op], After(before);
    forall key { Unfold(before, op, key); }
    assert After(ops) == Do(q, op) by { Unfold(before, op, TaskKey(0, 0, 0, 0)); }
    var w := Do(q, op).waiting;
    match op
    case Offer(task) => if q.running { OfferKeepsOrder(before, task); }
    case TakeOne => assert q.waiting != [] ==> forall k :: 0 <= k < |w| ==> w[k] == q.waiting[k + 1];
    case StartUp =>
    case ShutDown =>
  }

  lemma {:induction false} OfferKeepsOrder(before: seq<Op>, task: DispatchTask)
    requires Ordered(before) && After(before).running
    ensures Ordered(before + [Offer(task)])
  {
    hide Newest, Accepted, After, IndexOf;
    var op, q := Offer(task), After(before);
    var ops, w, i := before + [op], q.waiting, IndexOf(q.waiting, task.key);
    forall key { Unfold(before, op, key); }
    assert After(ops) == Do(q, op) by { Unfold(before, op, task.key); }
    var w' := Offered(w, task);
    forall k | 0 <= k < |w'|
      ensures Newest(ops, w'[k].key) >= 0 && ops[Newest(ops, w'[k].key)].task == w'[k]
    {
      if i < |w| || k < |w| {
        assert w'[k].key == w[k].key;
        if k != i && Newest(before, w[k].key) >= 0 { assert ops[Newest(before, w[k].key)] == before[Newest(before, w[k].key)]; }
      }
    }
  }

  // Each acceptance of a key is followed by exactly one delivery or discard, unless it still waits.
  lemma {:induction false} EachAcceptanceEndsOnce(ops: seq<Op>, key: TaskKey)
    ensures Acceptances(ops, key) == Deliveries(ops, key) + Discards(ops, key) + (if Waits(After(ops), key) then 1 else 0)
  {
    hide Newest, Accepted, IndexOf, Offered;
    if ops != [] {
      var before, op := ops[..|ops| - 1], ops[|ops| - 1];
      EachAcceptanceEndsOnce(before, key);
      AlwaysOrdered(before);
      assert ops == before + [op];
      AlwaysOrdered(ops);
      WaitsStep(After(before), op, key);
    }
  }

  lemma WaitsStep(q: State, op: Op, key: TaskKey)
    requires DistinctKeys(q.waiting) && (!q.running ==> q.waiting == [])
    ensures Waits(Do(q, op), key) <==>
      match op
      case Offer(task) => Waits(q, key) || (task.key == key && Answer(q, task) == Queued)
      case TakeOne => Waits(q, key) && q.waiting[0].key != key
      case StartUp => Waits(q, key)
      case ShutDown => false
  {
    hide IndexOf;
    WaitsIs(q, key);
    WaitsIs(Do(q, op), key);
    var w, w' := q.waiting, Do(q, op).waiting;
    match op
    case Offer(task) =>
      if q.running {
        assert forall k :: 0 <= k < |w| ==> w'[k].key == w[k].key;
        if |w'| > |w| { assert w'[|w|] == task; }
      }
    case TakeOne =>
      if w != [] { assert forall k :: 0 <= k < |w'| ==> w'[k] == w[k + 1]; }
    case StartUp =>
    case ShutDown =>
  }

  lemma WaitsIs(q: State, key: TaskKey)
    ensures Waits(q, key) <==> exists k :: 0 <= k < |q.waiting| && q.waiting[k].key == key
  {
    hide IndexOf;
  }

  // In any history, a delivery hands out the key accepted before all others that wait, with the
  // payload of its newest offer.
  lemma {:induction false} DeliveryIsOldestAndNewest(ops: seq<Op>)
    requires After(ops).waiting != []
    ensures var q, next := After(ops), After(ops + [TakeOne]);
      var task := q.waiting[0];
      && next.delivered == q.delivered + [task] && !Waits(next, task.key)
      && Newest(ops, task.key) >= 0 && ops[Newest(ops, task.key)].task == task
      && forall k :: 0 < k < |q.waiting| ==> Accepted(ops, task.key) < Accepted(ops, q.waiting[k].key)
  {
    AlwaysOrdered(ops);
    Unfold(ops, TakeOne, TaskKey(0, 0, 0, 0));
    WaitsStep(After(ops), TakeOne, After(ops).waiting[0].key);
  }

  // An offer to a running queue is taken if its key waits already, in whose place it then waits, or if
  // there is room, and the answer tells which; a queue that was stopped refuses. No other task is touched.
  lemma {:induction false} OfferIsTaken(ops: seq<Op>, task: DispatchTask)
    ensures var q, next := After(ops), After(ops + [Offer(task)]);
      var known := exists k :: 0 <= k < |q.waiting| && q.waiting[k].key == task.key;
      && (!q.running ==> Answer(q, task) == Stopped && next == q)
      && (q.running && known ==> Answer(q, task) == Updated && |next.waiting| == |q.waiting|)
      && (q.running && !known && |q.waiting| < 4096 ==> Answer(q, task) == Queued && next.waiting == q.waiting + [task])
      && (q.running && !known && |q.waiting| >= 4096 ==> Answer(q, task) == QueueFull && next == q)
      && (forall k :: 0 <= k < |q.waiting| ==>
            k < |next.waiting| && next.waiting[k] == if q.running && q.waiting[k].key == task.key then task else q.waiting[k])
      && next.running == q.running && next.delivered == q.delivered
  {
    AlwaysOrdered(ops);
    Unfold(ops, Offer(task), task.key);
    hide After, Newest, Accepted, IndexOf;
  }

  // A start opens the queue, a stop closes and empties it, and what was delivered stays delivered.
  lemma {:induction false} StartAndStop(ops: seq<Op>)
    ensures var q, up, down := After(ops), After(ops + [StartUp]), After(ops + [ShutDown]);
      && up.running && up.waiting == q.waiting && up.delivered == q.delivered
      && !down.running && down.waiting == [] && down.delivered == q.delivered
  {
    Unfold(ops, StartUp, TaskKey(0, 0, 0, 0));
    Unfold(ops, ShutDown, TaskKey(0, 0, 0, 0));
  }

  ghost function Missing(key: TaskKey): DispatchTask { DispatchTask(key, "", BG, "", "") }

  // No key is queued twice, and the queued keys are those of the pending map.
  ghost predicate OneToOne(queue: seq<TaskKey>, pending: map<TaskKey, DispatchTask>) {
    && (forall i, j :: 0 <= i < j < |queue| ==> queue[i] != queue[j])
    && (forall key :: key in pending <==> key in queue)
    && (forall key :: key in pending ==> pending[key].key == key)
  }

  // The pending tasks in queue order.
  ghost function Payloads(queue: seq<TaskKey>, pending: map<TaskKey, DispatchTask>): (r: seq<DispatchTask>)
    ensures |r| == |queue|
    ensures forall i :: 0 <= i < |queue| ==> r[i] == if queue[i] in pending then pending[queue[i]] else Missing(queue[i])
  {
    if queue == [] then [] else
    [if queue[0] in pending then pending[queue[0]] else Missing(queue[0])] + Payloads(queue[1..], pending)
  }

  // ---- The queue of keys and the map of pending tasks ---------------------------------------------------

  class TaskQueue {
    var running: bool
    var queue: seq<TaskKey>
    var pending: map<TaskKey, DispatchTask>
    ghost var delivered: seq<DispatchTask>
    ghost var history: seq<Op>

    constructor ()
      ensures Valid() && history == []
    {
      running, queue, pending, delivered, history := false, [], map[], [], [];
    }

    // The fields stand where the history leads.
    ghost predicate Valid()
      reads this
    {
      OneToOne(queue, pending) && |queue| <= MAX_QUEUED && Now() == After(history)
    }

    ghost function Now(): State
      reads this
    {
      State(running, Payloads(queue, pending), delivered)
    }

    method Start()
      requires Valid()
      modifies `running, `history
      ensures Valid() && history == old(history) + [StartUp]
    {
      hide Payloads, OneToOne;
      HistoryStep(history, StartUp);
      running, history := true, history + [StartUp];
    }

    static lemma {:induction false} HistoryStep(ops: seq<Op>, op: Op)
      ensures After(ops + [op]) == Do(After(ops), op)
    {
      assert (ops + [op])[..|ops|] == ops;
    }

    method Enqueue(task: DispatchTask) returns (r: EnqueueResult)
      requires Valid()
      modifies `queue, `pending, `history
      ensures Valid() && history == old(history) + [Offer(task)]
      ensures r == Answer(old(Now()), task)
    {
      hide Payloads, OneToOne, Offered, After;
      KeysOf(queue, pending, task);
      HistoryStep(history, Offer(task));
      history := history + [Offer(task)];
      if !running { return Stopped; }
      if task.key in pending {
        pending := pending[task.key := task];
        return Updated;
      }
      if |queue| >= MAX_QUEUED { return QueueFull; }
      queue, pending := queue + [task.key], pending[task.key := task];
      return Queued;
    }

    static lemma KeysOf(queue: seq<TaskKey>, pending: map<TaskKey, DispatchTask>, task: DispatchTask)
      requires OneToOne(queue, pending)
      ensures task.key in pending <==> IndexOf(Payloads(queue, pending), task.key) < |queue|
      ensures task.key in pending ==> OneToOne(queue, pending[task.key := task])
      ensures task.key in pending ==> Payloads(queue, pending[task.key := task]) == Offered(Payloads(queue, pending), task)
      ensures task.key !in pending ==> OneToOne(queue + [task.key], pending[task.key := task])
      ensures task.key !in pending && |queue| < MAX_QUEUED ==>
        Payloads(queue + [task.key], pending[task.key := task]) == Offered(Payloads(queue, pending), task)
      ensures task.key !in pending && |queue| >= MAX_QUEUED ==> Payloads(queue, pending) == Offered(Payloads(queue, pending), task)
    {
      hide IndexOf, Payloads;
      var waiting := Payloads(queue, pending);
      assert forall k :: 0 <= k < |queue| ==> queue[k] in queue && waiting[k].key == queue[k];
      var i := IndexOf(waiting, task.key);
      if task.key in pending {
        var k :| 0 <= k < |queue| && queue[k] == task.key;
        assert waiting[k].key == task.key && i == k;
        assert Payloads(queue, pending[task.key := task]) == waiting[i := task];
      } else {
        assert i == |waiting|;
        assert Payloads(queue + [task.key], pending[task.key := task]) == waiting + [task];
      }
    }

    // The locked part of worker_loop: the oldest waiting key, with its newest payload.
    method Take() returns (task: Option<DispatchTask>)
      requires Valid()
      modifies `queue, `pending, `delivered, `history
      ensures Valid() && history == old(history) + [TakeOne]
      ensures task == if old(Now()).waiting == [] then None else Some(old(Now()).waiting[0])
    {
      hide Payloads, OneToOne, After;
      HistoryStep(history, TakeOne);
      history := history + [TakeOne];
      if queue == [] { return None; }
      var key := queue[0];
      FirstTaken(queue, pending);
      queue := queue[1..];
      task := Some(pending[key]);
      pending := pending - {key};
      delivered := delivered + [task.value];
    }

    static lemma {:induction false} FirstTaken(queue: seq<TaskKey>, pending: map<TaskKey, DispatchTask>)
      requires queue != [] && OneToOne(queue, pending)
      ensures queue[0] in pending && Payloads(queue, pending)[0] == pending[queue[0]]
      ensures Payloads(queue[1..], pending - {queue[0]}) == Payloads(queue, pending)[1..]
      ensures OneToOne(queue[1..], pending - {queue[0]})
    {
      hide Payloads, OneToOne;
      RestOneToOne(queue, pending);
      PayloadsStep(queue, pending);
      SamePayloads(queue[1..], pending, pending - {queue[0]});
    }

    static lemma RestOneToOne(queue: seq<TaskKey>, pending: map<TaskKey, DispatchTask>)
      requires queue != [] && OneToOne(queue, pending)
      ensures queue[0] in pending && OneToOne(queue[1..], pending - {queue[0]})
      ensures forall i :: 0 <= i < |queue[1..]| ==> queue[1..][i] != queue[0] && queue[1..][i] in pending
    {
      var first, rest := queue[0], queue[1..];
      assert first in queue;
      forall i | 0 <= i < |rest|
        ensures rest[i] != first && rest[i] in pending
      {
        assert rest[i] == queue[i + 1] && queue[i + 1] in queue;
      }
      forall key | key in pending && key != first
        ensures key in rest
      {
        var k :| 0 <= k < |queue| && queue[k] == key;
        assert rest[k - 1] == key;
      }
    }

    static lemma {:induction false} PayloadsStep(queue: seq<TaskKey>, pending: map<TaskKey, DispatchTask>)
      requires queue != [] && queue[0] in pending
      ensures Payloads(queue, pending)[0] == pending[queue[0]]
      ensures Payloads(queue, pending)[1..] == Payloads(queue[1..], pending)
    {
    }

    static lemma {:induction false} SamePayloads(queue: seq<TaskKey>, a: map<TaskKey, DispatchTask>, b: map<TaskKey, DispatchTask>)
      requires forall i :: 0 <= i < |queue| ==> queue[i] in a && queue[i] in b && a[queue[i]] == b[queue[i]]
      ensures Payloads(queue, b) == Payloads(queue, a)
    {
      hide Payloads;
    }

    // stop: what still waits is discarded.
    method Stop()
      requires Valid()
      modifies this
      ensures Valid() && history == old(history) + [ShutDown]
    {
      HistoryStep(history, ShutDown);
      history := history + [ShutDown];
      running, queue, pending := false, [], map[];
    }

    // Delivering until nothing waits hands out every waiting key once.
    method Drain() returns (tasks: seq<DispatchTask>)
      requires Valid()
      modifies `queue, `pending, `delivered, `history
      ensures Valid() && Now().waiting == [] && tasks == old(Now()).waiting && DistinctKeys(tasks)
      ensures delivered == old(delivered) + tasks
    {
      hide Payloads, Valid, OneToOne, After, IndexOf, Newest, Accepted;
      tasks := [];
      AlwaysOrdered(history);
      StandsAt();
      ghost var all := Now().waiting;
      while queue != []
        invariant Valid() && tasks + Now().waiting == all && delivered == old(delivered) + tasks
        decreases |queue|
      {
        ghost var left, before := Now().waiting, tasks;
        StandsAt();
        HistoryStep(history, TakeOne);
        var task := Take();
        StandsAt();
        tasks := tasks + [task.value];
        Shift(before, left);
      }
    }

    lemma StandsAt()
      requires Valid()
      ensures Now() == After(history)
    {
    }

    static lemma Shift(before: seq<DispatchTask>, waiting: seq<DispatchTask>)
      requires waiting != []
      ensures before + waiting == (before + [waiting[0]]) + waiting[1..]
    {
    }
  }
}

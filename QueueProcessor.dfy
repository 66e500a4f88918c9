/** The per-queue processor: an Idle/Running lifecycle and the loop that pulls
    messages, hands each to the message processor, counts the outcome and
    always deletes the message afterwards.

    The worker thread, the cancellation source and the task are reduced to
    their observable state. The queue client and the message processor are
    opaque collaborators: the loop is given, as a script, what each poll of
    the queue returned, whether processing that message raised and whether
    deleting it raised. The calls made to the collaborators are recorded in
    order, so that the script's effect on the queue can be stated. */
module QueueProcessor {
  import opened Wrappers
  import opened Entities

  // ---------------------------------------------------------------------
  // 32-bit counters: C# `int` with `++` wraps around

  const Int32Modulus := 0x1_0000_0000

  type Int32 = x: int | -0x8000_0000 <= x < 0x8000_0000

  /** Two's-complement truncation of an integer to 32 bits. */
  function Wrap32(x: int): (r: Int32)
    ensures -0x8000_0000 <= x < 0x8000_0000 ==> r == x
  {
    var m := x % Int32Modulus;
    if m < 0x8000_0000 then m else m - Int32Modulus
  }

  /** Unchecked `x++`: one more, except that the largest value wraps to the
      smallest. */
  function Increment(x: Int32): (r: Int32)
    ensures x < 0x7fff_ffff ==> r == x + 1
    ensures x == 0x7fff_ffff ==> r == -0x8000_0000
  {
    Wrap32(x + 1)
  }

  lemma ModuloShift(y: int, k: int)
    ensures (y + k * Int32Modulus) % Int32Modulus == y % Int32Modulus
  {
  }

  /** Truncating an intermediate sum does not change the truncated total. */
  lemma AddWrap(x: int, y: int)
    ensures Wrap32(Wrap32(x) + y) == Wrap32(x + y)
  {
    var q := x / Int32Modulus;
    var k := if x % Int32Modulus < 0x8000_0000 then -q else -q - 1;
    assert Wrap32(x) + y == (x + y) + k * Int32Modulus;
    ModuloShift(x + y, k);
  }

  // ---------------------------------------------------------------------
  // What one iteration of the loop sees

  /** The outcome of polling the queue once. A delivered message comes with
      whether ProcessMessage returned normally (processOk) and whether
      DeleteMessage returned normally (deleteOk). GetMessage itself is called
      outside any exception handler: when it raises, the exception ends the
      loop. */
  datatype Poll =
    | NoMessage
    | Delivered(message: Message, processOk: bool, deleteOk: bool)
    | GetMessageRaises

  /** A call the loop makes to one of its collaborators. Processing gets the
      message content and the configuration only; the attributes are not
      passed on. */
  datatype Call =
    | GetMessageCall
    | ProcessMessageCall(content: string, configuration: ConfigurationEntry)
    | DeleteMessageCall(message: Message)

  datatype Counters = Counters(received: Int32, sent: Int32, failed: Int32)

  /** Exact (unbounded) counts of a run. */
  datatype Tally = Tally(received: nat, sent: nat, failed: nat)

  /** The counters after one iteration: a delivered message increments
      received and exactly one of sent or failed; any other poll changes
      nothing. */
  function Step(c: Counters, p: Poll): (r: Counters)
    ensures !p.Delivered? ==> r == c
    ensures p.Delivered? ==> r.received == Increment(c.received)
    ensures p.Delivered? && p.processOk ==> r.sent == Increment(c.sent) && r.failed == c.failed
    ensures p.Delivered? && !p.processOk ==> r.failed == Increment(c.failed) && r.sent == c.sent
  {
    match p
    case NoMessage => c
    case GetMessageRaises => c
    case Delivered(_, processOk, _) =>
      if processOk then c.(received := Increment(c.received), sent := Increment(c.sent))
      else c.(received := Increment(c.received), failed := Increment(c.failed))
  }

  /** No poll of the run delivered a message. */
  predicate Quiet(polls: seq<Poll>) {
    forall i :: 0 <= i < |polls| ==> !polls[i].Delivered?
  }

  /** The counters after a run of iterations; a run in which no message
      arrives leaves them as they were. */
  function Run(c: Counters, polls: seq<Poll>): (r: Counters)
    ensures Quiet(polls) ==> r == c
  {
    if polls == [] then c else Step(Run(c, polls[..|polls| - 1]), polls[|polls| - 1])
  }

  /** The exact counts after one more iteration. */
  function TallyStep(t: Tally, p: Poll): Tally {
    match p
    case NoMessage => t
    case GetMessageRaises => t
    case Delivered(_, processOk, _) =>
      if processOk then t.(received := t.received + 1, sent := t.sent + 1)
      else t.(received := t.received + 1, failed := t.failed + 1)
  }

  /** How many messages a run received, and of those how many processed
      normally and how many raised. */
  function TallyOf(polls: seq<Poll>): Tally {
    if polls == [] then Tally(0, 0, 0) else TallyStep(TallyOf(polls[..|polls| - 1]), polls[|polls| - 1])
  }

  /** Starting counters advanced by exact counts, each truncated to 32 bits. */
  function Advance(c: Counters, t: Tally): Counters {
    Counters(Wrap32(c.received + t.received), Wrap32(c.sent + t.sent), Wrap32(c.failed + t.failed))
  }

  /** The calls one iteration makes: it always polls; for a delivered
      message it then processes the content with the configuration and
      deletes the message. */
  function IterationCalls(p: Poll, configuration: ConfigurationEntry): (calls: seq<Call>)
    ensures |calls| == (if p.Delivered? then 3 else 1) && calls[0] == GetMessageCall
    ensures p.Delivered? ==>
      calls[1] == ProcessMessageCall(p.message.content, configuration) && calls[2] == DeleteMessageCall(p.message)
  {
    match p
    case NoMessage => [GetMessageCall]
    case GetMessageRaises => [GetMessageCall]
    case Delivered(m, _, _) => [GetMessageCall, ProcessMessageCall(m.content, configuration), DeleteMessageCall(m)]
  }

  /** The calls a run makes, in order: one poll per iteration and two more
      calls per received message. */
  function CallsOf(polls: seq<Poll>, configuration: ConfigurationEntry): (calls: seq<Call>)
    ensures |calls| == |polls| + 2 * |DeliveredMessages(polls)|
  {
    if polls == [] then []
    else CallsOf(polls[..|polls| - 1], configuration) + IterationCalls(polls[|polls| - 1], configuration)
  }

  /** Extending a run's prefix by one poll takes one more step and one more
      iteration's calls. */
  lemma PrefixStep(c: Counters, polls: seq<Poll>, i: nat, configuration: ConfigurationEntry)
    requires i < |polls|
    ensures Run(c, polls[..i + 1]) == Step(Run(c, polls[..i]), polls[i])
    ensures CallsOf(polls[..i + 1], configuration) == CallsOf(polls[..i], configuration) + IterationCalls(polls[i], configuration)
  {
    assert polls[..i + 1][..i] == polls[..i];
  }

  /** The messages a run received, in order; at most one per iteration, and
      none when no poll delivered a message. */
  function DeliveredMessages(polls: seq<Poll>): (ms: seq<Message>)
    ensures |ms| <= |polls|
    ensures Quiet(polls) ==> ms == []
  {
    if polls == [] then []
    else
      var rest := DeliveredMessages(polls[..|polls| - 1]);
      match polls[|polls| - 1]
      case NoMessage => rest
      case GetMessageRaises => rest
      case Delivered(m, _, _) => rest + [m]
  }

  /** The messages passed to DeleteMessage, in order. */
  function DeletedMessages(calls: seq<Call>): seq<Message> {
    if calls == [] then []
    else
      var rest := DeletedMessages(calls[..|calls| - 1]);
      match calls[|calls| - 1]
      case DeleteMessageCall(m) => rest + [m]
      case _ => rest
  }

  /** The counters agree with the sent and failed counts, modulo 2^32. */
  predicate Balanced(c: Counters) {
    c.received == Wrap32(c.sent + c.failed)
  }

  /** Two scripts that differ at most in whether deletions raised. */
  predicate SameExceptDeletes(ps: seq<Poll>, qs: seq<Poll>) {
    |ps| == |qs| &&
    forall i :: 0 <= i < |ps| ==>
      match ps[i]
      case NoMessage => qs[i] == NoMessage
      case GetMessageRaises => qs[i] == GetMessageRaises
      case Delivered(m, ok, _) => qs[i].Delivered? && qs[i].message == m && qs[i].processOk == ok
  }

  // ---------------------------------------------------------------------
  // Properties of a run

  /** Every received message is counted exactly once, as sent or as failed. */
  lemma {:induction false} TallyBalanced(polls: seq<Poll>)
    ensures TallyOf(polls).received == TallyOf(polls).sent + TallyOf(polls).failed
    ensures TallyOf(polls).received == |DeliveredMessages(polls)|
  {
    if polls != [] {
      TallyBalanced(polls[..|polls| - 1]);
    }
  }

  /** One iteration on truncated counters is the truncation of one exact
      iteration. */
  lemma StepAdvance(c: Counters, t: Tally, p: Poll)
    ensures Step(Advance(c, t), p) == Advance(c, TallyStep(t, p))
  {
    if p.Delivered? {
      AddWrap(c.received + t.received, 1);
      if p.processOk {
        AddWrap(c.sent + t.sent, 1);
      } else {
        AddWrap(c.failed + t.failed, 1);
      }
    }
  }

  /** The 32-bit counters are the exact counts added to the starting values
      and truncated. */
  lemma {:induction false} RunWrapsTally(c: Counters, polls: seq<Poll>)
    ensures Run(c, polls) == Advance(c, TallyOf(polls))
  {
    if polls == [] {
      assert Advance(c, Tally(0, 0, 0)) == c;
    } else {
      var init := polls[..|polls| - 1];
      RunWrapsTally(c, init);
      StepAdvance(c, TallyOf(init), polls[|polls| - 1]);
    }
  }

  /** One iteration keeps the counters balanced. */
  lemma StepBalanced(c: Counters, p: Poll)
    requires Balanced(c)
    ensures Balanced(Step(c, p))
  {
    if p.Delivered? {
      AddWrap(c.sent + c.failed, 1);
      if p.processOk {
        AddWrap(c.sent + 1, c.failed);
      } else {
        AddWrap(c.failed + 1, c.sent);
      }
    }
  }

  lemma {:induction false} RunBalanced(c: Counters, polls: seq<Poll>)
    requires Balanced(c)
    ensures Balanced(Run(c, polls))
  {
    if polls != [] {
      RunBalanced(c, polls[..|polls| - 1]);
      StepBalanced(Run(c, polls[..|polls| - 1]), polls[|polls| - 1]);
    }
  }

  /** From zero, and below 2^31 received messages, the counters are exact:
      received = sent + failed, sent = the normal completions, failed = the
      raises. */
  lemma ExactCountsFromZero(polls: seq<Poll>)
    requires TallyOf(polls).received < 0x8000_0000
    ensures var c, t := Run(Counters(0, 0, 0), polls), TallyOf(polls);
      c.received == t.received && c.sent == t.sent && c.failed == t.failed &&
      c.received == c.sent + c.failed
  {
    RunWrapsTally(Counters(0, 0, 0), polls);
    TallyBalanced(polls);
    var t := TallyOf(polls);
    assert Advance(Counters(0, 0, 0), t) == Counters(t.received, t.sent, t.failed);
  }

  /** Each received message is deleted exactly once, in the order received,
      and nothing else is deleted. */
  lemma {:induction false} DeletesAreDeliveries(polls: seq<Poll>, configuration: ConfigurationEntry)
    ensures DeletedMessages(CallsOf(polls, configuration)) == DeliveredMessages(polls)
  {
    if polls != [] {
      var init := polls[..|polls| - 1];
      DeletesAreDeliveries(init, configuration);
      DeletedAppend(CallsOf(init, configuration), IterationCalls(polls[|polls| - 1], configuration));
      var it := IterationCalls(polls[|polls| - 1], configuration);
      if polls[|polls| - 1].Delivered? {
        assert it[..2][..1] == [GetMessageCall];
        assert [GetMessageCall][..0] == [];
        assert DeletedMessages([GetMessageCall]) == [];
        assert DeletedMessages(it[..2]) == [];
      }
    }
  }

  lemma {:induction false} DeletedAppend(a: seq<Call>, b: seq<Call>)
    ensures DeletedMessages(a + b) == DeletedMessages(a) + DeletedMessages(b)
    decreases |b|
  {
    if b == [] {
      assert a + b == a;
    } else {
      assert (a + b)[..|a + b| - 1] == a + b[..|b| - 1];
      DeletedAppend(a, b[..|b| - 1]);
    }
  }

  /** A call to process a message is always followed directly by the call to
      delete a message with that content. */
  predicate DeleteFollowsEachProcessing(calls: seq<Call>) {
    forall k :: 0 <= k < |calls| && calls[k].ProcessMessageCall? ==>
      k + 1 < |calls| && calls[k + 1].DeleteMessageCall? && calls[k + 1].message.content == calls[k].content
  }

  /** A deletion always directly follows the processing of the same content
      with the given configuration. */
  predicate ProcessingPrecedesEachDelete(calls: seq<Call>, configuration: ConfigurationEntry) {
    forall k :: 0 <= k < |calls| && calls[k].DeleteMessageCall? ==>
      0 < k && calls[k - 1] == ProcessMessageCall(calls[k].message.content, configuration)
  }

  /** In every run, processing a message and deleting it are adjacent calls:
      no message is processed without being deleted next, and none is deleted
      without having been processed just before. */
  lemma {:induction false} DeleteFollowsProcessing(polls: seq<Poll>, configuration: ConfigurationEntry)
    ensures DeleteFollowsEachProcessing(CallsOf(polls, configuration))
    ensures ProcessingPrecedesEachDelete(CallsOf(polls, configuration), configuration)
  {
    if polls != [] {
      var init := polls[..|polls| - 1];
      DeleteFollowsProcessing(init, configuration);
      var before := CallsOf(init, configuration);
      var it := IterationCalls(polls[|polls| - 1], configuration);
      var calls := before + it;
      assert CallsOf(polls, configuration) == calls;
      forall k | 0 <= k < |calls| && calls[k].ProcessMessageCall?
        ensures k + 1 < |calls| && calls[k + 1].DeleteMessageCall? && calls[k + 1].message.content == calls[k].content
      {
        if k < |before| {
          assert calls[k] == before[k];
          assert before[k].ProcessMessageCall?;
          assert DeleteFollowsEachProcessing(before);
          assert calls[k + 1] == before[k + 1];
        } else {
          assert calls[k] == it[k - |before|];
          assert k == |before| + 1;
          assert calls[k + 1] == it[2];
        }
      }
      forall k | 0 <= k < |calls| && calls[k].DeleteMessageCall?
        ensures 0 < k && calls[k - 1] == ProcessMessageCall(calls[k].message.content, configuration)
      {
        if k < |before| {
          assert calls[k] == before[k];
          assert before[k].DeleteMessageCall?;
          assert ProcessingPrecedesEachDelete(before, configuration);
          assert calls[k - 1] == before[k - 1];
        } else {
          assert calls[k] == it[k - |before|];
          assert k == |before| + 2;
          assert calls[k - 1] == it[1];
        }
      }
    }
  }

  /** Whether DeleteMessage raised changes neither the counters nor any call
      the loop makes afterwards. */
  lemma {:induction false} DeleteFailuresAreInvisible(c: Counters, ps: seq<Poll>, qs: seq<Poll>, configuration: ConfigurationEntry)
    requires SameExceptDeletes(ps, qs)
    ensures Run(c, ps) == Run(c, qs)
    ensures CallsOf(ps, configuration) == CallsOf(qs, configuration)
  {
    if ps != [] {
      var n := |ps| - 1;
      assert SameExceptDeletes(ps[..n], qs[..n]);
      DeleteFailuresAreInvisible(c, ps[..n], qs[..n], configuration);
      assert SameExceptDeletes(ps, qs);
      match ps[n] {
        case NoMessage =>
          assert qs[n] == NoMessage;
        case GetMessageRaises =>
          assert qs[n] == GetMessageRaises;
        case Delivered(m, ok, _) =>
          assert qs[n].Delivered? && qs[n].message == m && qs[n].processOk == ok;
      }
    }
  }

  // ---------------------------------------------------------------------
  // Threading primitives, reduced to their state

  class CancellationTokenSource {
    var isCancellationRequested: bool
    var disposed: bool

    constructor ()
      ensures !isCancellationRequested && !disposed
    {
      isCancellationRequested := false;
      disposed := false;
    }

    method Cancel()
      modifies this
      ensures isCancellationRequested && disposed == old(disposed)
    {
      isCancellationRequested := true;
    }

    /** Waits on the token's handle, which is signalled once cancellation is
        requested; the wait itself takes no state into account but the flag. */
    method WaitOne(timeoutMilliseconds: nat) returns (signalled: bool)
      ensures signalled == isCancellationRequested
    {
      signalled := isCancellationRequested;
    }

    method Dispose()
      modifies this
      ensures disposed && isCancellationRequested == old(isCancellationRequested)
    {
      disposed := true;
    }
  }

  /** The long-running worker that executes the loop, bound to the token of
      the source it was created with. */
  class WorkerTask {
    const source: CancellationTokenSource
    var started: bool
    var disposed: bool

    constructor (source: CancellationTokenSource)
      ensures this.source == source && !started && !disposed
    {
      this.source := source;
      started := false;
      disposed := false;
    }

    method Start()
      modifies this
      ensures started && disposed == old(disposed)
    {
      started := true;
    }

    method Dispose()
      modifies this
      ensures disposed && started == old(started)
    {
      disposed := true;
    }
  }

  /** The step of Stop that raises, if any; later steps are skipped. */
  datatype StopFault = NoFault | CancelRaises | WaitRaises | SourceDisposeRaises | TaskDisposeRaises

  /** How long Stop waits for the token's handle. */
  const StopWaitMilliseconds := 30 * 1000

  // ---------------------------------------------------------------------
  // The processor

  class QueueProcessor {
    var configuration: Option<ConfigurationEntry>
    var queueClient: object?
    var messageProcessor: object?
    /** null when idle, the worker when running. */
    var task: WorkerTask?
    var cancellation: CancellationTokenSource?
    var messagesReceived: Int32
    var messagesSent: Int32
    var messagesFailed: Int32
    /** The calls made to the collaborators so far, in order. */
    ghost var calls: seq<Call>

    /** The object invariant: a running processor has the source its task
        is bound to, and the counters are balanced. */
    ghost predicate Valid()
      reads this
    {
      (task != null ==> cancellation != null && task.source == cancellation) &&
      Balanced(Counts())
    }

    function Counts(): Counters
      reads this
    {
      Counters(messagesReceived, messagesSent, messagesFailed)
    }

    predicate Running()
      reads this
    {
      task != null
    }

    /** The state of a freshly created processor, before Init. */
    constructor ()
      ensures Valid() && !Running()
      ensures configuration == None && queueClient == null && messageProcessor == null && cancellation == null
      ensures Counts() == Counters(0, 0, 0) && calls == []
    {
      configuration := None;
      queueClient := null;
      messageProcessor := null;
      task := null;
      cancellation := null;
      messagesReceived, messagesSent, messagesFailed := 0, 0, 0;
      calls := [];
    }

    method Init(queueClient: object, messageProcessor: object, configuration: ConfigurationEntry)
      requires Valid()
      modifies this
      ensures Valid()
      ensures this.configuration == Some(configuration)
      ensures this.queueClient == queueClient && this.messageProcessor == messageProcessor
      ensures task == old(task) && cancellation == old(cancellation)
      ensures Counts() == old(Counts()) && calls == old(calls)
    {
      this.configuration := Some(configuration);
      this.queueClient := queueClient;
      this.messageProcessor := messageProcessor;
    }

    /** Idempotent: when running nothing changes; when idle a fresh source and
        a fresh, started task bound to it make the processor running. The
        counters are not reset. */
    method Start()
      requires Valid()
      modifies this
      ensures Valid() && Running()
      ensures old(Running()) ==> unchanged(this)
      ensures !old(Running()) ==>
        fresh(task) && fresh(cancellation) && task.source == cancellation && task.started && !task.disposed &&
        !cancellation.isCancellationRequested && !cancellation.disposed
      ensures configuration == old(configuration) && queueClient == old(queueClient) && messageProcessor == old(messageProcessor)
      ensures Counts() == old(Counts()) && calls == old(calls)
    {
      if task != null {
        // already started: logged only
        return;
      }
      cancellation := new CancellationTokenSource();
      task := new WorkerTask(cancellation);
      task.Start();
    }

    /** Idempotent: when idle nothing changes; when running the token is
        cancelled, the token's handle is waited on, the source and the task
        are disposed, and whichever of these steps raises (the rest being
        skipped) the processor ends idle. The source itself is kept. */
    method Stop(fault: StopFault)
      requires Valid()
      modifies this, task, cancellation
      ensures Valid() && !Running()
      ensures old(task) == null ==> unchanged(this) && (cancellation != null ==> unchanged(cancellation))
      ensures old(task) != null ==>
        cancellation == old(cancellation) &&
        cancellation.isCancellationRequested == (old(cancellation.isCancellationRequested) || fault != CancelRaises) &&
        cancellation.disposed == (old(cancellation.disposed) || fault == NoFault || fault == TaskDisposeRaises) &&
        old(task).disposed == (old(task.disposed) || fault == NoFault) &&
        old(task).started == old(task.started)
      ensures configuration == old(configuration) && queueClient == old(queueClient) && messageProcessor == old(messageProcessor)
      ensures Counts() == old(Counts()) && calls == old(calls)
    {
      if task == null {
        // already stopped: logged only
        return;
      }
      var worker := task;
      if fault != CancelRaises {
        cancellation.Cancel();
        if fault != WaitRaises {
          var _ := cancellation.WaitOne(StopWaitMilliseconds);
          if fault != SourceDisposeRaises {
            cancellation.Dispose();
            if fault != TaskDisposeRaises {
              worker.Dispose();
            }
          }
        }
      }
      // finally
      task := null;
    }

    /** The body of one loop iteration after the cancellation check: poll,
        and for a message count it, process it, count the outcome and delete
        it, whatever processing or deletion did. */
    method Iterate(poll: Poll, config: ConfigurationEntry)
      requires Valid()
      modifies this`messagesReceived, this`messagesSent, this`messagesFailed, this`calls
      ensures Valid()
      ensures Counts() == Step(old(Counts()), poll)
      ensures calls == old(calls) + IterationCalls(poll, config)
    {
      StepBalanced(Counts(), poll);
      calls := calls + [GetMessageCall];
      match poll {
        case NoMessage =>
          // no message within the transport's wait: poll again
        case GetMessageRaises =>
          // the exception leaves the iteration here
        case Delivered(msg, processOk, deleteOk) =>
          messagesReceived := Increment(messagesReceived);
          calls := calls + [ProcessMessageCall(msg.content, config)];
          if processOk {
            messagesSent := Increment(messagesSent);
          } else {
            messagesFailed := Increment(messagesFailed);
          }
          calls := calls + [DeleteMessageCall(msg)];
          if !deleteOk {
            // logged: the message remains in the queue
          }
      }
    }

    /** One pass through the loop for the poll at `i`: the iteration and,
        when it was the last scripted one and did not raise, the concurrent
        Stop's cancellation request. */
    method Turn(polls: seq<Poll>, i: nat, ghost start: Counters, ghost before: seq<Call>)
      requires Valid() && cancellation != null && configuration.Some?
      requires i < |polls| && !cancellation.isCancellationRequested
      requires Counts() == Run(start, polls[..i])
      requires calls == before + CallsOf(polls[..i], configuration.value)
      modifies this`messagesReceived, this`messagesSent, this`messagesFailed, this`calls, cancellation
      ensures Valid()
      ensures cancellation.isCancellationRequested <==> i + 1 == |polls| && !polls[i].GetMessageRaises?
      ensures cancellation.disposed == old(cancellation.disposed)
      ensures Counts() == Run(start, polls[..i + 1])
      ensures calls == before + CallsOf(polls[..i + 1], configuration.value)
    {
      PrefixStep(start, polls, i, configuration.value);
      Iterate(polls[i], configuration.value);
      assert calls == before + (CallsOf(polls[..i], configuration.value) + IterationCalls(polls[i], configuration.value));
      if i + 1 == |polls| && !polls[i].GetMessageRaises? {
        cancellation.Cancel();
      }
    }

    /** The worker's loop. It runs one iteration per scripted poll outcome.
        When GetMessage raises, which can only be the last outcome of a
        script, the exception ends the loop (faulted). Otherwise the
        concurrent Stop's cancellation request is taken to land once the
        scripted iterations have completed, so every iteration begun runs to
        its end, deletion included, and the loop then exits at its check. */
    method ProcessMessageLoop(polls: seq<Poll>) returns (faulted: bool)
      requires Valid() && Running() && configuration.Some? && queueClient != null && messageProcessor != null
      requires !cancellation.isCancellationRequested
      requires forall i :: 0 <= i < |polls| - 1 ==> !polls[i].GetMessageRaises?
      modifies this, cancellation
      ensures Valid() && cancellation == old(cancellation)
      ensures faulted <==> |polls| > 0 && polls[|polls| - 1].GetMessageRaises?
      ensures cancellation.isCancellationRequested <==> !faulted
      ensures cancellation.disposed == old(cancellation.disposed)
      ensures task == old(task) && configuration == old(configuration)
      ensures queueClient == old(queueClient) && messageProcessor == old(messageProcessor)
      ensures Counts() == Run(old(Counts()), polls)
      ensures calls == old(calls) + CallsOf(polls, configuration.value)
    {
      var config := configuration.value;
      var i := 0;
      faulted := false;
      if i == |polls| {
        cancellation.Cancel();
      }
      while !cancellation.isCancellationRequested
        invariant 0 <= i <= |polls|
        invariant Valid() && cancellation == old(cancellation) && task == old(task) && configuration == old(configuration)
        invariant cancellation.isCancellationRequested <==> i == |polls|
        invariant cancellation.disposed == old(cancellation.disposed)
        invariant queueClient == old(queueClient) && messageProcessor == old(messageProcessor)
        invariant !faulted && forall j :: 0 <= j < i ==> !polls[j].GetMessageRaises?
        invariant Counts() == Run(old(Counts()), polls[..i])
        invariant calls == old(calls) + CallsOf(polls[..i], config)
        decreases |polls| - i
      {
        Turn(polls, i, old(Counts()), old(calls));
        if polls[i].GetMessageRaises? {
          assert i == |polls| - 1 && polls[..i + 1] == polls;
          return true;
        }
        i := i + 1;
      }
      assert polls[..|polls|] == polls;
    }
  }
}

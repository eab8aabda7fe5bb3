/**
 * The Queue class of src/queue.ts: parameter merging for enqueue and dequeue, the
 * windowed bulkEnqueue, dequeue with its delete fan-out, and the `next` drain loop.
 * The SQS client is replaced by oracles: a function for SendMessageBatch and a script
 * of ReceiveMessage outcomes.
 */
module QueueModel {
  import opened Wrappers
  import opened Types
  import opened Chunking
  import opened EntryIds
  import opened Batching
  import opened Reconciler

  /** The outcome of one ReceiveMessage call: a response whose `Messages` may be absent, or a rejection. */
  datatype ReceiveOutcome = Received(messages: Option<seq<Message>>) | ReceiveRejected(reason: string)

  /** `DequeueReturnType` without its `delete` closure (see `Queue.DeleteCalls`). */
  datatype DequeueResult = DequeueResult(messages: Option<seq<Message>>, messageObjects: Option<seq<Option<Json>>>)

  /** Why a dequeue throws: the receive call rejected, or `JSON.parse` threw on a body. */
  datatype DequeueError = ReceiveFailed(reason: string) | MalformedBody(body: string)

  /** How a drain run ends: after an empty result, by an exception, or still awaiting a receive. */
  datatype DrainEnd = Exhausted | Aborted(error: DequeueError) | AwaitingBackend

  /** The results a `for await` over `next()` sees, and how the iteration ends. */
  datatype DrainRun = DrainRun(yielded: seq<DequeueResult>, end: DrainEnd)

  /** The parameters of one DeleteMessage call. */
  datatype DeleteRequest = DeleteRequest(queueUrl: string, receiptHandle: Option<string>)

  /** `JSON.parse`: `None` when it throws. */
  type JsonParse = string -> Option<Json>

  /** bulkEnqueue's flush test `batches.length >= concurrency`, for a buffer of the given length. */
  predicate Flushes(buffered: nat, concurrency: int)
  {
    buffered >= concurrency
  }

  /**
   * A window holds `concurrency` batches; with concurrency below 1 every batch is flushed alone.
   * The window size is the first non-empty buffer length at which the flush test fires.
   */
  function WindowSize(concurrency: int): (w: nat)
    ensures w > 0
    ensures concurrency >= 1 ==> w == concurrency
    ensures forall n: nat :: n >= 1 ==> (Flushes(n, concurrency) <==> n >= w)
  {
    if concurrency < 1 then 1 else concurrency
  }

  /** `(Body != null) ? JSON.parse(Body) : Body` for one message. */
  function ParseBody(m: Message, parse: JsonParse): (r: Result<Option<Json>, DequeueError>)
    ensures r.Failure? <==> m.body.Some? && parse(m.body.value).None?
    ensures r.Failure? ==> r.error == MalformedBody(m.body.value)
    ensures r.Success? ==> (r.value.None? <==> m.body.None?)
    ensures r.Success? && m.body.Some? ==> r.value == parse(m.body.value)
  {
    match m.body
    case None => Success(None)
    case Some(b) => if parse(b).Some? then Success(parse(b)) else Failure(MalformedBody(b))
  }

  predicate Parses(m: Message, parse: JsonParse)
  {
    m.body.None? || parse(m.body.value).Some?
  }

  /** `Messages.map(...)`: the parsed bodies in order, or the first body JSON.parse rejects. */
  function ParseBodies(ms: seq<Message>, parse: JsonParse): (r: Result<seq<Option<Json>>, DequeueError>)
    ensures r.Success? <==> forall i :: 0 <= i < |ms| ==> Parses(ms[i], parse)
    ensures r.Success? ==>
      |r.value| == |ms| &&
      forall i :: 0 <= i < |ms| ==> r.value[i] == (if ms[i].body.None? then None else parse(ms[i].body.value))
    ensures r.Failure? ==>
      exists i :: 0 <= i < |ms| && !Parses(ms[i], parse) &&
        r.error == MalformedBody(ms[i].body.value) &&
        forall k :: 0 <= k < i ==> Parses(ms[k], parse)
  {
    if ms == [] then Success([])
    else
      match ParseBody(ms[0], parse)
      case Failure(e) => Failure(e)
      case Success(v) =>
        match ParseBodies(ms[1..], parse)
        case Failure(e) =>
          assert forall i :: 1 <= i < |ms| ==> ms[1..][i - 1] == ms[i];
          Failure(e)
        case Success(vs) =>
          assert forall i :: 1 <= i < |ms| ==> ms[1..][i - 1] == ms[i];
          Success([v] + vs)
  }

  /** Whether `next` goes on after this result: `messageObjects` is defined and non-empty. */
  predicate HasMore(d: DequeueResult)
  {
    d.messageObjects.Some? && |d.messageObjects.value| > 0
  }

  function Prepend(ys: seq<DequeueResult>, run: DrainRun): DrainRun
  {
    DrainRun(ys + run.yielded, run.end)
  }

  /**
   * The buffer of bulkEnqueue after the first j batches: the flushed windows, each full,
   * followed by fewer than a window of waiting batches, are those j batches.
   */
  predicate Buffered(all: seq<Batch>, j: nat, windows: seq<seq<Batch>>, batches: seq<Batch>, w: nat)
  {
    && j <= |all|
    && |batches| < w
    && Flatten(windows) + batches == all[..j]
    && forall i :: 0 <= i < |windows| ==> |windows[i]| == w
  }

  /** Pushing batch j either fills the window, which is then flushed, or leaves it short. */
  lemma PushKeeps(all: seq<Batch>, j: nat, windows: seq<seq<Batch>>, batches: seq<Batch>, concurrency: int)
    requires j < |all| && Buffered(all, j, windows, batches, WindowSize(concurrency))
    ensures var pushed := batches + [all[j]];
      if |pushed| >= concurrency then Buffered(all, j + 1, windows + [pushed], [], WindowSize(concurrency))
      else Buffered(all, j + 1, windows, pushed, WindowSize(concurrency))
  {
    var pushed := batches + [all[j]];
    assert all[..j + 1] == all[..j] + [all[j]];
    if |pushed| >= concurrency {
      FlattenAppend(windows, [pushed]);
      assert Flatten([pushed]) == pushed + Flatten([pushed][1..]);
    }
  }

  lemma PrependNothing(ys: seq<DequeueResult>, end: DrainEnd)
    ensures Prepend(ys, DrainRun([], end)) == DrainRun(ys, end)
  {
    assert ys + [] == ys;
  }

  lemma PrependTwice(ys: seq<DequeueResult>, d: DequeueResult, run: DrainRun)
    ensures Prepend(ys, Prepend([d], run)) == Prepend(ys + [d], run)
  {
    assert ys + ([d] + run.yielded) == (ys + [d]) + run.yielded;
  }

  class Queue {
    const url: string
    const defaultOptions: Params

    constructor (url: string, options: Params)
      ensures this.url == url && defaultOptions == options
    {
      this.url := url;
      this.defaultOptions := options;
    }

    /**
     * The SendMessage parameters of `enqueue`: the queue's default options, overridden by
     * the call's options, overridden by the serialised body and the queue's own URL.
     */
    function EnqueueParams(obj: Json, options: Params, stringify: Json -> string): (r: Params)
      ensures r.Keys == defaultOptions.Keys + options.Keys + {"MessageBody", "QueueUrl"}
      ensures r["MessageBody"] == JString(stringify(obj)) && r["QueueUrl"] == JString(url)
      ensures forall k :: k in options && k != "MessageBody" && k != "QueueUrl" ==> r[k] == options[k]
      ensures forall k :: k in defaultOptions && k !in options && k != "MessageBody" && k != "QueueUrl" ==>
        r[k] == defaultOptions[k]
    {
      Assign(Assign(defaultOptions, options),
             map["MessageBody" := JString(stringify(obj)), "QueueUrl" := JString(url)])
    }

    /**
     * The ReceiveMessage parameters of `dequeue`: the default options, overridden by the
     * call's options, overridden by the queue's own URL.
     */
    function DequeueParams(options: Params): (r: Params)
      ensures r.Keys == defaultOptions.Keys + options.Keys + {"QueueUrl"}
      ensures r["QueueUrl"] == JString(url)
      ensures forall k :: k in options && k != "QueueUrl" ==> r[k] == options[k]
      ensures forall k :: k in defaultOptions && k !in options && k != "QueueUrl" ==> r[k] == defaultOptions[k]
    {
      Assign(Assign(defaultOptions, options), map["QueueUrl" := JString(url)])
    }

    /** The batches bulkEnqueue sends: getEntries over the merged options, 10 entries a batch. */
    function BulkEntries(objs: seq<Json>, options: Params, uuid: string, stringify: Json -> string): seq<Batch>
    {
      GetEntries(objs, Assign(defaultOptions, options), MaxBatchSize, uuid, stringify)
    }

    /** The results of the flushed windows, appended window after window. */
    function WindowedResult(windows: seq<seq<Batch>>, send: SendBatch): BulkEnqueueResult
    {
      if windows == [] then BulkEnqueueResult([], [])
      else
        var n := |windows| - 1;
        Join(WindowedResult(windows[..n], send), Reconcile(windows[n], AllSettled(windows[n], url, send)))
    }

    /**
     * The `for ... of getEntries(...)` loop of bulkEnqueue: buffers the batches and flushes
     * them through processConcurrentBatches whenever `concurrency` of them wait. What is
     * left in the buffer is fewer than a window.
     */
    method FlushFullWindows(all: seq<Batch>, concurrency: int, send: SendBatch)
      returns (result: BulkEnqueueResult, dispatched: seq<seq<Batch>>, batches: seq<Batch>)
      ensures Flatten(dispatched) + batches == all
      ensures forall i :: 0 <= i < |dispatched| ==> |dispatched[i]| == WindowSize(concurrency)
      ensures |batches| < WindowSize(concurrency)
      ensures result == WindowedResult(dispatched, send)
    {
      result := BulkEnqueueResult([], []);
      dispatched := [];
      batches := [];
      var j := 0;
      while j < |all|
        invariant j <= |all|
        invariant Buffered(all, j, dispatched, batches, WindowSize(concurrency))
        invariant result == WindowedResult(dispatched, send)
      {
        PushKeeps(all, j, dispatched, batches, concurrency);
        batches := batches + [all[j]];
        if |batches| >= concurrency {
          var r := ProcessConcurrentBatches(batches, send, url);
          result := Join(result, r);
          Flush(dispatched, batches, send);
          dispatched := dispatched + [batches];
          batches := [];
        }
        j := j + 1;
      }
      assert all[..j] == all;
    }

    /**
     * bulkEnqueue: the batches of getEntries over the merged options, flushed window by
     * window, then the remainder. `dispatched` lists the flushed windows in order; `uuid`
     * is the randomUUID of the call.
     */
    method BulkEnqueue(objs: seq<Json>, options: Params, concurrency: int, uuid: string,
                       stringify: Json -> string, send: SendBatch)
      returns (result: BulkEnqueueResult, dispatched: seq<seq<Batch>>)
      ensures dispatched == Chunks(BulkEntries(objs, options, uuid, stringify), WindowSize(concurrency))
      ensures result == WindowedResult(dispatched, send)
      ensures result == Reconcile(BulkEntries(objs, options, uuid, stringify),
                                  AllSettled(BulkEntries(objs, options, uuid, stringify), url, send))
      ensures objs == [] ==> dispatched == [] && result == BulkEnqueueResult([], [])
    {
      var params := Assign(defaultOptions, options);
      var all := GetEntries(objs, params, MaxBatchSize, uuid, stringify);
      var w := WindowSize(concurrency);
      var batches;
      result, dispatched, batches := FlushFullWindows(all, concurrency, send);
      ChunksOfFull(dispatched, batches, w);
      WindowingTransparent(Chunks(all, w), send);
      if |batches| > 0 {
        var r := ProcessConcurrentBatches(batches, send, url);
        result := Join(result, r);
        Flush(dispatched, batches, send);
        dispatched := dispatched + [batches];
      } else {
        assert dispatched + [] == dispatched;
      }
      ChunksShape(all, w);
    }

    /** Flushing one more window appends its batches and its reconciled result. */
    lemma Flush(windows: seq<seq<Batch>>, batches: seq<Batch>, send: SendBatch)
      ensures Flatten(windows + [batches]) == Flatten(windows) + batches
      ensures WindowedResult(windows + [batches], send)
        == Join(WindowedResult(windows, send), Reconcile(batches, AllSettled(batches, url, send)))
    {
      FlattenAppend(windows, [batches]);
      assert Flatten([batches]) == batches + Flatten([batches][1..]);
      assert (windows + [batches])[..|windows|] == windows;
    }

    /** Sending the batches window by window gives the same result as reconciling them all in order. */
    lemma {:induction false} WindowingTransparent(windows: seq<seq<Batch>>, send: SendBatch)
      ensures WindowedResult(windows, send)
        == Reconcile(Flatten(windows), AllSettled(Flatten(windows), url, send))
    {
      if windows != [] {
        var n := |windows| - 1;
        var front := Flatten(windows[..n]);
        WindowingTransparent(windows[..n], send);
        FlattenSnoc(windows);
        AllSettledAppend(front, windows[n], url, send);
        ReconcileAppend(front, AllSettled(front, url, send), windows[n], AllSettled(windows[n], url, send));
      }
    }

    /**
     * dequeue: a rejected receive throws; a response without `Messages` gives no objects;
     * otherwise every body is parsed, and the first malformed one throws.
     */
    function Dequeue(response: ReceiveOutcome, parse: JsonParse): (r: Result<DequeueResult, DequeueError>)
      ensures response.ReceiveRejected? ==> r == Failure(ReceiveFailed(response.reason))
      ensures response.Received? && response.messages.None? ==> r == Success(DequeueResult(None, None))
      ensures response.Received? && response.messages.Some? ==>
        (r.Success? <==> forall i :: 0 <= i < |response.messages.value| ==> Parses(response.messages.value[i], parse))
      ensures r.Success? ==>
        r.value.messages == response.messages &&
        (r.value.messageObjects.Some? <==> response.messages.Some?)
      ensures r.Success? && r.value.messageObjects.Some? ==>
        var ms := r.value.messages.value;
        var objs := r.value.messageObjects.value;
        |objs| == |ms| &&
        forall i :: 0 <= i < |ms| ==> objs[i] == (if ms[i].body.None? then None else parse(ms[i].body.value))
    {
      match response
      case ReceiveRejected(reason) => Failure(ReceiveFailed(reason))
      case Received(None) => Success(DequeueResult(None, None))
      case Received(Some(ms)) =>
        match ParseBodies(ms, parse)
        case Failure(e) => Failure(e)
        case Success(objs) => Success(DequeueResult(Some(ms), Some(objs)))
    }

    /** The `delete` closure of a dequeue result: one DeleteMessage per received message, in order. */
    function DeleteCalls(d: DequeueResult): (r: seq<DeleteRequest>)
      ensures d.messages.None? ==> r == []
      ensures d.messages.Some? ==>
        |r| == |d.messages.value| &&
        forall i :: 0 <= i < |r| ==> r[i] == DeleteRequest(url, d.messages.value[i].receiptHandle)
    {
      match d.messages
      case None => []
      case Some(ms) => seq(|ms|, i requires 0 <= i < |ms| => DeleteRequest(url, ms[i].receiptHandle))
    }

    /**
     * The `next` generator over a script of receive outcomes: yield each dequeue result, go on
     * while it has messages, stop after the first empty one; a throw ends the iteration.
     */
    function Drain(responses: seq<ReceiveOutcome>, parse: JsonParse): DrainRun
      decreases |responses|
    {
      if responses == [] then DrainRun([], AwaitingBackend)
      else
        match Dequeue(responses[0], parse)
        case Failure(e) => DrainRun([], Aborted(e))
        case Success(d) =>
          if HasMore(d) then Prepend([d], Drain(responses[1..], parse))
          else DrainRun([d], Exhausted)
    }

    /** One step of the drain from position `i`. */
    lemma DrainAt(responses: seq<ReceiveOutcome>, i: nat, parse: JsonParse)
      requires i < |responses|
      ensures Dequeue(responses[i], parse).Failure? ==>
        Drain(responses[i..], parse) == DrainRun([], Aborted(Dequeue(responses[i], parse).error))
      ensures Dequeue(responses[i], parse).Success? ==>
        var d := Dequeue(responses[i], parse).value;
        Drain(responses[i..], parse)
          == if HasMore(d) then Prepend([d], Drain(responses[i + 1..], parse)) else DrainRun([d], Exhausted)
    {
      assert responses[i..][0] == responses[i] && responses[i..][1..] == responses[i + 1..];
    }

    /** The do-while loop of `next`, run against the receive outcomes it is given. */
    method Next(responses: seq<ReceiveOutcome>, parse: JsonParse) returns (yielded: seq<DequeueResult>, end: DrainEnd)
      ensures DrainRun(yielded, end) == Drain(responses, parse)
    {
      yielded := [];
      end := Exhausted;
      var i := 0;
      var more := true;
      while more
        invariant 0 <= i <= |responses|
        invariant more ==> Drain(responses, parse) == Prepend(yielded, Drain(responses[i..], parse))
        invariant !more ==> Drain(responses, parse) == DrainRun(yielded, Exhausted) && end == Exhausted
        decreases |responses| - i, more
      {
        if i == |responses| {
          assert responses[i..] == [];
          end := AwaitingBackend;
          PrependNothing(yielded, end);
          return;
        }
        var result := Dequeue(responses[i], parse);
        DrainAt(responses, i, parse);
        if result.Failure? {
          end := Aborted(result.error);
          PrependNothing(yielded, end);
          return;
        }
        var d := result.value;
        PrependTwice(yielded, d, Drain(responses[i + 1..], parse));
        yielded := yielded + [d];
        i := i + 1;
        more := HasMore(d);
      }
    }

    /**
     * bulkEnqueue sends ceil(n/10) batches in ceil(batches/window) windows, every window but
     * the last full, and every object exactly once, in order, under its own offset.
     */
    lemma BulkWindowShape(objs: seq<Json>, options: Params, concurrency: int, uuid: string, stringify: Json -> string)
      ensures |BulkEntries(objs, options, uuid, stringify)| == (|objs| + 9) / 10
      ensures var w := WindowSize(concurrency);
        var ws := Chunks(BulkEntries(objs, options, uuid, stringify), w);
        && |ws| == (|BulkEntries(objs, options, uuid, stringify)| + w - 1) / w
        && (forall i :: 0 <= i < |ws| ==> 0 < |ws[i]| <= w)
        && (forall i :: 0 <= i < |ws| - 1 ==> |ws[i]| == w)
        && Flatten(Flatten(ws)) == AllEntries(objs, Assign(defaultOptions, options), uuid, stringify)
    {
      var entries := BulkEntries(objs, options, uuid, stringify);
      GetEntriesShape(objs, Assign(defaultOptions, options), MaxBatchSize, uuid, stringify);
      ChunksShape(entries, WindowSize(concurrency));
      ChunksCount(entries, WindowSize(concurrency));
    }

    /** When the service accepts every entry, bulkEnqueue reports one success per object and no failure. */
    lemma BulkAllSucceeded(objs: seq<Json>, options: Params, uuid: string, stringify: Json -> string, send: SendBatch)
      requires forall i :: 0 <= i < |BulkEntries(objs, options, uuid, stringify)| ==>
        FullySucceeded(BulkEntries(objs, options, uuid, stringify)[i],
                       send(url, BulkEntries(objs, options, uuid, stringify)[i]))
      ensures var entries := BulkEntries(objs, options, uuid, stringify);
        var r := Reconcile(entries, AllSettled(entries, url, send));
        r.failed == [] && |r.successful| == |objs|
    {
      var entries := BulkEntries(objs, options, uuid, stringify);
      GetEntriesShape(objs, Assign(defaultOptions, options), MaxBatchSize, uuid, stringify);
      ReconcileAllSucceeded(entries, AllSettled(entries, url, send));
    }

    /** When every response accounts for its batch, each object is reported once, as success or failure. */
    lemma BulkAccounted(objs: seq<Json>, options: Params, uuid: string, stringify: Json -> string, send: SendBatch)
      requires forall i :: 0 <= i < |BulkEntries(objs, options, uuid, stringify)| ==>
        Accounted(BulkEntries(objs, options, uuid, stringify)[i],
                  send(url, BulkEntries(objs, options, uuid, stringify)[i]))
      ensures var entries := BulkEntries(objs, options, uuid, stringify);
        var r := Reconcile(entries, AllSettled(entries, url, send));
        |r.successful| + |r.failed| == |objs|
    {
      var entries := BulkEntries(objs, options, uuid, stringify);
      GetEntriesShape(objs, Assign(defaultOptions, options), MaxBatchSize, uuid, stringify);
      ReconcileCount(entries, AllSettled(entries, url, send));
    }

    /**
     * When batch j is rejected and the others succeed, the failures are exactly batch j's
     * objects: Id is the object's offset in decimal, Code the rejection reason, Message its body.
     */
    lemma BulkOneRejected(objs: seq<Json>, options: Params, uuid: string, stringify: Json -> string,
                          send: SendBatch, j: nat, reason: string)
      requires ValidPrefix(uuid)
      requires j < |BulkEntries(objs, options, uuid, stringify)|
      requires send(url, BulkEntries(objs, options, uuid, stringify)[j]) == Rejected(reason)
      requires forall i :: 0 <= i < |BulkEntries(objs, options, uuid, stringify)| && i != j ==>
        FullySucceeded(BulkEntries(objs, options, uuid, stringify)[i],
                       send(url, BulkEntries(objs, options, uuid, stringify)[i]))
      ensures var entries := BulkEntries(objs, options, uuid, stringify);
        var r := Reconcile(entries, AllSettled(entries, url, send));
        && |r.failed| == |entries[j]|
        && |r.successful| == |objs| - |entries[j]|
        && forall t :: 0 <= t < |entries[j]| ==>
             GlobalOffset(j, MaxBatchSize, t) < |objs| &&
             r.failed[t] == ErrorEntry(Some(Decimal(GlobalOffset(j, MaxBatchSize, t))), None, Some(reason),
                                       Some(stringify(objs[GlobalOffset(j, MaxBatchSize, t)])))
    {
      var params := Assign(defaultOptions, options);
      var entries := BulkEntries(objs, options, uuid, stringify);
      GetEntriesShape(objs, params, MaxBatchSize, uuid, stringify);
      ReconcileOneRejected(entries, AllSettled(entries, url, send), j, reason);
      RejectedBatchRecords(objs, params, MaxBatchSize, uuid, stringify, j, reason);
    }

    /** 41 objects at concurrency 3: five batches in two windows, and 41 successes when all are accepted. */
    lemma BulkFortyOne(objs: seq<Json>, options: Params, uuid: string, stringify: Json -> string, send: SendBatch)
      requires |objs| == 41
      requires forall i :: 0 <= i < |BulkEntries(objs, options, uuid, stringify)| ==>
        FullySucceeded(BulkEntries(objs, options, uuid, stringify)[i],
                       send(url, BulkEntries(objs, options, uuid, stringify)[i]))
      ensures |BulkEntries(objs, options, uuid, stringify)| == 5
      ensures var ws := Chunks(BulkEntries(objs, options, uuid, stringify), WindowSize(3));
        |ws| == 2 && |ws[0]| == 3 && |ws[1]| == 2
      ensures var entries := BulkEntries(objs, options, uuid, stringify);
        var r := Reconcile(entries, AllSettled(entries, url, send));
        r.failed == [] && |r.successful| == 41
    {
      BulkWindowShape(objs, options, 3, uuid, stringify);
      BulkAllSucceeded(objs, options, uuid, stringify, send);
      var entries := BulkEntries(objs, options, uuid, stringify);
      var ws := Chunks(entries, WindowSize(3));
      ChunksShape(entries, WindowSize(3));
      assert Flatten(ws) == ws[0] + (ws[1] + Flatten(ws[2..]));
    }

    /** A dequeue's delete closure removes exactly the messages it returned, one call each. */
    lemma DeleteMatchesDequeue(response: ReceiveOutcome, parse: JsonParse)
      requires Dequeue(response, parse).Success?
      ensures var d := Dequeue(response, parse).value;
        && (response.messages.None? ==> DeleteCalls(d) == [])
        && (response.messages.Some? ==>
              |DeleteCalls(d)| == |d.messageObjects.value| &&
              forall i :: 0 <= i < |DeleteCalls(d)| ==>
                DeleteCalls(d)[i].queueUrl == url &&
                DeleteCalls(d)[i].receiptHandle == response.messages.value[i].receiptHandle)
    {
    }

    /**
     * Everything a drain run yields came from one dequeue each, in order; every result but
     * the last has messages; it ends Exhausted exactly when the last result is empty; a
     * throw comes from the outcome after the last yield.
     */
    lemma {:induction false} DrainShape(responses: seq<ReceiveOutcome>, parse: JsonParse)
      ensures |Drain(responses, parse).yielded| <= |responses|
      ensures forall i :: 0 <= i < |Drain(responses, parse).yielded| ==>
        Dequeue(responses[i], parse) == Success(Drain(responses, parse).yielded[i])
      ensures forall i :: 0 <= i < |Drain(responses, parse).yielded| - 1 ==> HasMore(Drain(responses, parse).yielded[i])
      ensures var run := Drain(responses, parse);
        run.end == Exhausted <==> run.yielded != [] && !HasMore(run.yielded[|run.yielded| - 1])
      ensures Drain(responses, parse).end == AwaitingBackend ==> |Drain(responses, parse).yielded| == |responses|
      ensures var run := Drain(responses, parse);
        run.end.Aborted? ==> |run.yielded| < |responses| && Dequeue(responses[|run.yielded|], parse) == Failure(run.end.error)
      decreases |responses|
    {
      if responses != [] && Dequeue(responses[0], parse).Success? && HasMore(Dequeue(responses[0], parse).value) {
        var rest := responses[1..];
        DrainShape(rest, parse);
        assert forall i :: 1 <= i < |responses| ==> responses[i] == rest[i - 1];
      }
    }

    /** The drain yields the first empty result and stops there: j + 1 yields when it is the j-th. */
    lemma {:induction false} DrainStopsAtFirstEmpty(responses: seq<ReceiveOutcome>, parse: JsonParse, j: nat)
      requires j < |responses|
      requires forall i :: 0 <= i < j ==> Dequeue(responses[i], parse).Success? && HasMore(Dequeue(responses[i], parse).value)
      requires Dequeue(responses[j], parse).Success? && !HasMore(Dequeue(responses[j], parse).value)
      ensures Drain(responses, parse).end == Exhausted
      ensures |Drain(responses, parse).yielded| == j + 1
      ensures Drain(responses, parse).yielded[j] == Dequeue(responses[j], parse).value
      decreases j
    {
      if j > 0 {
        var rest := responses[1..];
        assert forall i :: 1 <= i < |responses| ==> responses[i] == rest[i - 1];
        DrainStopsAtFirstEmpty(rest, parse, j - 1);
      }
    }
  }

  /** A backlog of messages delivered `perReceive` at a time, then a response with no `Messages`. */
  function Deliveries(backlog: seq<Message>, perReceive: nat): (r: seq<ReceiveOutcome>)
    requires perReceive > 0
  {
    var cs := Chunks(backlog, perReceive);
    seq(|cs|, i requires 0 <= i < |cs| => Received(Some(cs[i]))) + [Received(None)]
  }

  /**
   * Draining a backlog received `perReceive` at a time yields ceil(n / perReceive) non-empty
   * results holding the backlog in order, then the empty result, and stops.
   */
  lemma DrainBacklog(q: Queue, backlog: seq<Message>, perReceive: nat, parse: JsonParse)
    requires perReceive > 0
    requires forall i :: 0 <= i < |backlog| ==> Parses(backlog[i], parse)
    ensures var run := q.Drain(Deliveries(backlog, perReceive), parse);
      && run.end == Exhausted
      && |run.yielded| == (|backlog| + perReceive - 1) / perReceive + 1
      && run.yielded[|run.yielded| - 1] == DequeueResult(None, None)
      && forall i :: 0 <= i < |Chunks(backlog, perReceive)| ==>
           i < |run.yielded| && run.yielded[i].messages == Some(Chunks(backlog, perReceive)[i])
  {
    var cs := Chunks(backlog, perReceive);
    var rs := Deliveries(backlog, perReceive);
    ChunksShape(backlog, perReceive);
    ChunksCount(backlog, perReceive);
    forall i | 0 <= i < |cs|
      ensures q.Dequeue(rs[i], parse).Success? && HasMore(q.Dequeue(rs[i], parse).value)
      ensures q.Dequeue(rs[i], parse).value.messages == Some(cs[i])
    {
      assert rs[i] == Received(Some(cs[i]));
      forall k | 0 <= k < |cs[i]|
        ensures Parses(cs[i][k], parse)
      {
        FlattenIndex(cs, i, k);
      }
    }
    assert rs[|cs|] == Received(None);
    q.DrainStopsAtFirstEmpty(rs, parse, |cs|);
    q.DrainShape(rs, parse);
  }
}

/**
 * processConcurrentBatches (src/utils.ts): sends a window of batches, then folds the
 * settled outcomes, in batch order, into one BulkEnqueueResult.
 */
module Reconciler {
  import opened Wrappers
  import opened Types
  import opened Chunking
  import opened EntryIds
  import opened Batching

  /** The SendMessageBatch call, as an oracle: the settled outcome for a queue URL and its entries. */
  type SendBatch = (string, Batch) -> Settled

  function Join(a: BulkEnqueueResult, b: BulkEnqueueResult): BulkEnqueueResult
  {
    BulkEnqueueResult(a.successful + b.successful, a.failed + b.failed)
  }

  predicate AllIdsPresent(s: seq<SuccessEntry>)
  {
    forall i :: 0 <= i < |s| ==> s[i].messageId.Some?
  }

  /** The ids `Successful?.forEach(...)` pushes: every non-null MessageId, in reported order. */
  function SuccessIds(s: seq<SuccessEntry>): (r: seq<string>)
    ensures |r| <= |s|
    ensures forall x :: x in r ==> exists i :: 0 <= i < |s| && s[i].messageId == Some(x)
    ensures AllIdsPresent(s) ==> |r| == |s| && forall i :: 0 <= i < |s| ==> s[i].messageId == Some(r[i])
  {
    if s == [] then []
    else
      var last := s[|s| - 1];
      SuccessIds(s[..|s| - 1]) + (if last.messageId.Some? then [last.messageId.value] else [])
  }

  /** One reported success contributes its MessageId when it has one, and nothing otherwise. */
  lemma SuccessIdsSingle(e: SuccessEntry)
    ensures SuccessIds([e]) == if e.messageId.Some? then [e.messageId.value] else []
  {
    assert [e][..0] == [];
  }

  /** The ids of two runs of successes are the ids of each run, in reported order. */
  lemma {:induction false} SuccessIdsAppend(a: seq<SuccessEntry>, b: seq<SuccessEntry>)
    ensures SuccessIds(a + b) == SuccessIds(a) + SuccessIds(b)
    decreases |b|
  {
    if b == [] {
      assert a + b == a;
    } else {
      var n := |b| - 1;
      assert (a + b)[..|a + b| - 1] == a + b[..n];
      assert (a + b)[|a + b| - 1] == b[n];
      SuccessIdsAppend(a, b[..n]);
    }
  }

  /** `{ ...message, Id: message.Id?.split('__')[1] }`. */
  function Relabel(e: ErrorEntry): (r: ErrorEntry)
    ensures r.id == DecodeId(e.id)
    ensures r.(id := e.id) == e
  {
    e.(id := DecodeId(e.id))
  }

  function RelabelAll(f: seq<ErrorEntry>): (r: seq<ErrorEntry>)
    ensures |r| == |f| && forall i :: 0 <= i < |f| ==> r[i] == Relabel(f[i])
  {
    seq(|f|, i requires 0 <= i < |f| => Relabel(f[i]))
  }

  /** The failure recorded for one entry of a rejected batch. */
  function RejectedRecord(m: Entry, reason: string): ErrorEntry
  {
    ErrorEntry(DecodeId(StrField(m, "Id")), None, Some(reason), StrField(m, "MessageBody"))
  }

  function RejectedRecords(batch: Batch, reason: string): (r: seq<ErrorEntry>)
    ensures |r| == |batch| && forall i :: 0 <= i < |batch| ==> r[i] == RejectedRecord(batch[i], reason)
  {
    seq(|batch|, i requires 0 <= i < |batch| => RejectedRecord(batch[i], reason))
  }

  /** What one settled batch contributes to the aggregate result. */
  function Settle(batch: Batch, outcome: Settled): (r: BulkEnqueueResult)
    ensures outcome.Rejected? ==> r.successful == [] && |r.failed| == |batch|
    ensures outcome.Fulfilled? ==>
      && |r.successful| <= |outcome.value.successful.GetOr([])|
      && |r.failed| == |outcome.value.failed.GetOr([])|
  {
    match outcome
    case Fulfilled(response) =>
      BulkEnqueueResult(SuccessIds(response.successful.GetOr([])), RelabelAll(response.failed.GetOr([])))
    case Rejected(reason) =>
      BulkEnqueueResult([], RejectedRecords(batch, reason))
  }

  /** The `forEach` over the settled outcomes: each batch's contribution, in batch order. */
  function Reconcile(batches: seq<Batch>, outcomes: seq<Settled>): BulkEnqueueResult
    requires |batches| == |outcomes|
  {
    if batches == [] then BulkEnqueueResult([], [])
    else
      var n := |batches| - 1;
      Join(Reconcile(batches[..n], outcomes[..n]), Settle(batches[n], outcomes[n]))
  }

  /** `Promise.allSettled` over one SendMessageBatch call per batch, outcomes in batch order. */
  function AllSettled(batches: seq<Batch>, queueUrl: string, send: SendBatch): (r: seq<Settled>)
    ensures |r| == |batches| && forall i :: 0 <= i < |batches| ==> r[i] == send(queueUrl, batches[i])
  {
    seq(|batches|, i requires 0 <= i < |batches| => send(queueUrl, batches[i]))
  }

  /** `Successful?.forEach(...)`: pushes every non-null MessageId onto `acc`, in order. */
  method PushSuccessIds(acc: seq<string>, successful: seq<SuccessEntry>) returns (r: seq<string>)
    ensures r == acc + SuccessIds(successful)
  {
    r := acc;
    var k := 0;
    while k < |successful|
      invariant 0 <= k <= |successful|
      invariant r == acc + SuccessIds(successful[..k])
    {
      assert successful[..k + 1][..k] == successful[..k];
      if successful[k].messageId.Some? {
        r := r + [successful[k].messageId.value];
      }
      k := k + 1;
    }
    assert successful[..k] == successful;
  }

  /** `Failed?.forEach(...)`: pushes every reported failure with its Id decoded. */
  method PushRelabelled(acc: seq<ErrorEntry>, failed: seq<ErrorEntry>) returns (r: seq<ErrorEntry>)
    ensures r == acc + RelabelAll(failed)
  {
    r := acc;
    var k := 0;
    while k < |failed|
      invariant 0 <= k <= |failed|
      invariant r == acc + RelabelAll(failed[..k])
    {
      assert RelabelAll(failed[..k + 1]) == RelabelAll(failed[..k]) + [Relabel(failed[k])];
      r := r + [Relabel(failed[k])];
      k := k + 1;
    }
    assert failed[..k] == failed;
  }

  /** `batches[i].forEach(...)` for a rejected batch: one failure per entry, coded with the reason. */
  method PushRejected(acc: seq<ErrorEntry>, entries: Batch, reason: string) returns (r: seq<ErrorEntry>)
    ensures r == acc + RejectedRecords(entries, reason)
  {
    r := acc;
    var k := 0;
    while k < |entries|
      invariant 0 <= k <= |entries|
      invariant r == acc + RejectedRecords(entries[..k], reason)
    {
      assert RejectedRecords(entries[..k + 1], reason)
          == RejectedRecords(entries[..k], reason) + [RejectedRecord(entries[k], reason)];
      r := r + [RejectedRecord(entries[k], reason)];
      k := k + 1;
    }
    assert entries[..k] == entries;
  }

  /** The outcomes of two runs of batches are the outcomes of each, in order. */
  lemma AllSettledAppend(b1: seq<Batch>, b2: seq<Batch>, queueUrl: string, send: SendBatch)
    ensures AllSettled(b1 + b2, queueUrl, send) == AllSettled(b1, queueUrl, send) + AllSettled(b2, queueUrl, send)
  {
    var all, o1, o2 := AllSettled(b1 + b2, queueUrl, send), AllSettled(b1, queueUrl, send), AllSettled(b2, queueUrl, send);
    assert forall i :: 0 <= i < |b1| ==> all[i] == o1[i];
    assert forall i :: |b1| <= i < |all| ==> all[i] == o2[i - |b1|];
  }

  /**
   * processConcurrentBatches: one SendMessageBatch per batch, then the pushes of the
   * `forEach` into `successful` and `failed`, batch by batch.
   */
  method ProcessConcurrentBatches(batches: seq<Batch>, send: SendBatch, queueUrl: string)
    returns (result: BulkEnqueueResult)
    ensures result == Reconcile(batches, AllSettled(batches, queueUrl, send))
  {
    result := BulkEnqueueResult([], []);
    var batchResult := AllSettled(batches, queueUrl, send);
    var i := 0;
    while i < |batchResult|
      invariant 0 <= i <= |batches|
      invariant result == Reconcile(batches[..i], batchResult[..i])
    {
      var item := batchResult[i];
      var successful := result.successful;
      var failed := result.failed;
      if item.Fulfilled? {
        successful := PushSuccessIds(successful, item.value.successful.GetOr([]));
        failed := PushRelabelled(failed, item.value.failed.GetOr([]));
      } else {
        failed := PushRejected(failed, batches[i], item.reason);
      }
      assert BulkEnqueueResult(successful, failed) == Join(result, Settle(batches[i], item));
      result := BulkEnqueueResult(successful, failed);
      assert batches[..i + 1][..i] == batches[..i];
      assert batchResult[..i + 1][..i] == batchResult[..i];
      i := i + 1;
    }
    assert batches[..i] == batches && batchResult[..i] == batchResult;
  }

  lemma JoinEmpty(a: BulkEnqueueResult)
    ensures Join(a, BulkEnqueueResult([], [])) == a
  {
    assert a.successful + [] == a.successful && a.failed + [] == a.failed;
  }

  lemma JoinAssoc(a: BulkEnqueueResult, b: BulkEnqueueResult, c: BulkEnqueueResult)
    ensures Join(Join(a, b), c) == Join(a, Join(b, c))
  {
    assert (a.successful + b.successful) + c.successful == a.successful + (b.successful + c.successful);
    assert (a.failed + b.failed) + c.failed == a.failed + (b.failed + c.failed);
  }

  /** Reconciling two runs of batches is joining their separate results: the fold keeps batch order. */
  lemma {:induction false} ReconcileAppend(b1: seq<Batch>, o1: seq<Settled>, b2: seq<Batch>, o2: seq<Settled>)
    requires |b1| == |o1| && |b2| == |o2|
    ensures Reconcile(b1 + b2, o1 + o2) == Join(Reconcile(b1, o1), Reconcile(b2, o2))
    decreases |b2|
  {
    if b2 == [] {
      assert b1 + b2 == b1 && o1 + o2 == o1;
      JoinEmpty(Reconcile(b1, o1));
    } else {
      var n := |b2| - 1;
      var bs, os := b1 + b2, o1 + o2;
      var m := |bs| - 1;
      assert bs[..m] == b1 + b2[..n] && os[..m] == o1 + o2[..n];
      assert bs[m] == b2[n] && os[m] == o2[n];
      calc {
        Reconcile(bs, os);
        Join(Reconcile(bs[..m], os[..m]), Settle(bs[m], os[m]));
        { ReconcileAppend(b1, o1, b2[..n], o2[..n]); }
        Join(Join(Reconcile(b1, o1), Reconcile(b2[..n], o2[..n])), Settle(b2[n], o2[n]));
        { JoinAssoc(Reconcile(b1, o1), Reconcile(b2[..n], o2[..n]), Settle(b2[n], o2[n])); }
        Join(Reconcile(b1, o1), Join(Reconcile(b2[..n], o2[..n]), Settle(b2[n], o2[n])));
        Join(Reconcile(b1, o1), Reconcile(b2, o2));
      }
    }
  }

  /** An outcome that accounts for every entry of its batch: a rejection, or a response listing each entry once. */
  predicate Accounted(batch: Batch, outcome: Settled)
  {
    outcome.Rejected?
    || (AllIdsPresent(outcome.value.successful.GetOr([]))
        && |outcome.value.successful.GetOr([])| + |outcome.value.failed.GetOr([])| == |batch|)
  }

  /** A response in which every entry of the batch succeeded with a MessageId. */
  predicate FullySucceeded(batch: Batch, outcome: Settled)
  {
    && outcome.Fulfilled?
    && AllIdsPresent(outcome.value.successful.GetOr([]))
    && |outcome.value.successful.GetOr([])| == |batch|
    && outcome.value.failed.GetOr([]) == []
  }

  lemma FlattenSnoc<T>(ss: seq<seq<T>>)
    requires ss != []
    ensures Flatten(ss) == Flatten(ss[..|ss| - 1]) + ss[|ss| - 1]
  {
    var n := |ss| - 1;
    assert ss == ss[..n] + [ss[n]];
    FlattenAppend(ss[..n], [ss[n]]);
    assert Flatten([ss[n]]) == ss[n] + Flatten([ss[n]][1..]);
  }

  /**
   * When every outcome accounts for its batch, every entry is counted exactly once:
   * |successful| + |failed| is the number of entries sent.
   */
  lemma {:induction false} ReconcileCount(batches: seq<Batch>, outcomes: seq<Settled>)
    requires |batches| == |outcomes|
    requires forall i :: 0 <= i < |batches| ==> Accounted(batches[i], outcomes[i])
    ensures |Reconcile(batches, outcomes).successful| + |Reconcile(batches, outcomes).failed|
      == |Flatten(batches)|
  {
    if batches != [] {
      var n := |batches| - 1;
      ReconcileCount(batches[..n], outcomes[..n]);
      FlattenSnoc(batches);
    }
  }

  /** With every batch fully successful there are no failures and one MessageId per entry. */
  lemma {:induction false} ReconcileAllSucceeded(batches: seq<Batch>, outcomes: seq<Settled>)
    requires |batches| == |outcomes|
    requires forall i :: 0 <= i < |batches| ==> FullySucceeded(batches[i], outcomes[i])
    ensures Reconcile(batches, outcomes).failed == []
    ensures |Reconcile(batches, outcomes).successful| == |Flatten(batches)|
  {
    if batches != [] {
      var n := |batches| - 1;
      ReconcileAllSucceeded(batches[..n], outcomes[..n]);
      FlattenSnoc(batches);
    }
  }

  /** The result around batch j: what precedes it, its own contribution, what follows. */
  lemma ReconcileAround(batches: seq<Batch>, outcomes: seq<Settled>, j: nat)
    requires |batches| == |outcomes| && j < |batches|
    ensures Reconcile(batches, outcomes)
      == Join(Join(Reconcile(batches[..j], outcomes[..j]), Settle(batches[j], outcomes[j])),
              Reconcile(batches[j + 1..], outcomes[j + 1..]))
    ensures Flatten(batches) == Flatten(batches[..j]) + batches[j] + Flatten(batches[j + 1..])
  {
    var b1, o1 := batches[..j + 1], outcomes[..j + 1];
    var b2, o2 := batches[j + 1..], outcomes[j + 1..];
    assert batches == b1 + b2 && outcomes == o1 + o2;
    ReconcileAppend(b1, o1, b2, o2);
    ReconcileUpTo(batches, outcomes, j);
    FlattenAround(batches, j);
  }

  /** The batches up to and including j: those before it, then j's own contribution. */
  lemma ReconcileUpTo(batches: seq<Batch>, outcomes: seq<Settled>, j: nat)
    requires |batches| == |outcomes| && j < |batches|
    ensures Reconcile(batches[..j + 1], outcomes[..j + 1])
      == Join(Reconcile(batches[..j], outcomes[..j]), Settle(batches[j], outcomes[j]))
  {
    var b1, o1 := batches[..j + 1], outcomes[..j + 1];
    assert b1[..j] == batches[..j] && o1[..j] == outcomes[..j];
    assert b1[j] == batches[j] && o1[j] == outcomes[j];
  }

  lemma FlattenAround<T>(ss: seq<seq<T>>, j: nat)
    requires j < |ss|
    ensures Flatten(ss) == Flatten(ss[..j]) + ss[j] + Flatten(ss[j + 1..])
  {
    var s1, s2 := ss[..j + 1], ss[j + 1..];
    assert ss == s1 + s2;
    assert s1[..j] == ss[..j] && s1[j] == ss[j];
    FlattenSnoc(s1);
    FlattenAppend(s1, s2);
  }

  /**
   * One rejected batch among fully successful ones: the failures are exactly that
   * batch's entries, and every other entry has a MessageId.
   */
  lemma ReconcileOneRejected(batches: seq<Batch>, outcomes: seq<Settled>, j: nat, reason: string)
    requires |batches| == |outcomes| && j < |batches|
    requires outcomes[j] == Rejected(reason)
    requires forall i :: 0 <= i < |batches| && i != j ==> FullySucceeded(batches[i], outcomes[i])
    ensures Reconcile(batches, outcomes).failed == RejectedRecords(batches[j], reason)
    ensures |Reconcile(batches, outcomes).successful| == |Flatten(batches)| - |batches[j]|
  {
    SliceSucceeded(batches, outcomes, 0, j);
    SliceSucceeded(batches, outcomes, j + 1, |batches|);
    assert batches[0..j] == batches[..j] && outcomes[0..j] == outcomes[..j];
    assert batches[j + 1..|batches|] == batches[j + 1..] && outcomes[j + 1..|batches|] == outcomes[j + 1..];
    ReconcileAround(batches, outcomes, j);
    JoinAroundRejected(Reconcile(batches[..j], outcomes[..j]), batches[j], reason,
                       Reconcile(batches[j + 1..], outcomes[j + 1..]));
  }

  /** A rejected batch between two runs without failures: its failures are all there are. */
  lemma JoinAroundRejected(a: BulkEnqueueResult, batch: Batch, reason: string, c: BulkEnqueueResult)
    requires a.failed == [] && c.failed == []
    ensures var r := Join(Join(a, Settle(batch, Rejected(reason))), c);
      && r.failed == RejectedRecords(batch, reason)
      && |r.successful| == |a.successful| + |c.successful|
  {
    assert Settle(batch, Rejected(reason)) == BulkEnqueueResult([], RejectedRecords(batch, reason));
  }

  /** A run of fully successful batches contributes no failure and one success per entry. */
  lemma SliceSucceeded(batches: seq<Batch>, outcomes: seq<Settled>, lo: nat, hi: nat)
    requires |batches| == |outcomes| && lo <= hi <= |batches|
    requires forall i :: lo <= i < hi ==> FullySucceeded(batches[i], outcomes[i])
    ensures Reconcile(batches[lo..hi], outcomes[lo..hi]).failed == []
    ensures |Reconcile(batches[lo..hi], outcomes[lo..hi]).successful| == |Flatten(batches[lo..hi])|
  {
    var b, o := batches[lo..hi], outcomes[lo..hi];
    assert forall i :: 0 <= i < |b| ==> b[i] == batches[lo + i] && o[i] == outcomes[lo + i];
    ReconcileAllSucceeded(b, o);
  }

  /**
   * A rejected batch of getEntries records one failure per entry, in entry order: its
   * Id is the decimal global offset of the record, its Message that record's body, its
   * Code the rejection reason, and it has no SenderFault.
   */
  lemma RejectedBatchRecords(records: seq<Json>, options: Params, batchSize: nat, uuid: string,
                             stringify: Json -> string, j: nat, reason: string)
    requires batchSize > 0 && ValidPrefix(uuid)
    requires j < |GetEntries(records, options, batchSize, uuid, stringify)|
    ensures var batch := GetEntries(records, options, batchSize, uuid, stringify)[j];
      var r := Settle(batch, Rejected(reason));
      && r.successful == []
      && |r.failed| == |batch|
      && forall t :: 0 <= t < |batch| ==>
           GlobalOffset(j, batchSize, t) < |records|
           && r.failed[t] == ErrorEntry(Some(Decimal(GlobalOffset(j, batchSize, t))), None, Some(reason),
                                        Some(stringify(records[GlobalOffset(j, batchSize, t)])))
  {
    var batch := GetEntries(records, options, batchSize, uuid, stringify)[j];
    forall t | 0 <= t < |batch|
      ensures GlobalOffset(j, batchSize, t) < |records|
      ensures RejectedRecord(batch[t], reason)
        == ErrorEntry(Some(Decimal(GlobalOffset(j, batchSize, t))), None, Some(reason),
                      Some(stringify(records[GlobalOffset(j, batchSize, t)])))
    {
      GetEntriesAt(records, options, batchSize, uuid, stringify, j, t);
      RejectedEntryRecord(options, uuid, GlobalOffset(j, batchSize, t), records[GlobalOffset(j, batchSize, t)],
                          stringify, reason);
    }
  }

  lemma RejectedEntryRecord(options: Params, uuid: string, k: nat, item: Json, stringify: Json -> string, reason: string)
    requires ValidPrefix(uuid)
    ensures RejectedRecord(MakeEntry(options, uuid, k, item, stringify), reason)
      == ErrorEntry(Some(Decimal(k)), None, Some(reason), Some(stringify(item)))
  {
    IdRoundTrip(uuid, k);
  }

  /** A failure the service reports for the entry at offset k is recorded with Id = k in decimal, all else kept. */
  lemma RelabelRecoversOffset(e: ErrorEntry, uuid: string, k: nat)
    requires ValidPrefix(uuid) && e.id == Some(EncodeId(uuid, k))
    ensures Relabel(e) == e.(id := Some(Decimal(k)))
  {
    IdRoundTrip(uuid, k);
  }
}

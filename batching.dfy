/**
 * The batch splitters of src/utils.ts: getBatch (destructive, with `splice`),
 * getConcurrentBatch (windows of batches) and getEntries (SQS batch entries with
 * offset-carrying identifiers).
 */
module Batching {
  import opened Wrappers
  import opened Types
  import opened Chunking
  import opened EntryIds

  /** The caller's JavaScript array, which getBatch empties with `splice`. */
  class RecordArray {
    var elems: seq<Json>

    constructor (elems: seq<Json>)
      ensures this.elems == elems
    {
      this.elems := elems;
    }

    /**
     * `splice(0, deleteCount)`: removes and returns the first deleteCount elements
     * (all of them when fewer remain, none when deleteCount is negative).
     */
    method Splice(deleteCount: int) returns (removed: seq<Json>)
      modifies this
      ensures var n := if deleteCount < 0 then 0 else Min(deleteCount, |old(elems)|);
        removed == old(elems)[..n] && elems == old(elems)[n..]
    {
      var n := if deleteCount < 0 then 0 else Min(deleteCount, |elems|);
      removed := elems[..n];
      elems := elems[n..];
    }
  }

  /** One value yielded by getBatch. */
  datatype NumberedBatch = NumberedBatch(batch: seq<Json>, batchNo: nat)

  /**
   * getBatch run to completion: while the array is non-empty it splices off the next
   * batchSize records and yields them with a running batch number. A batchSize below 1
   * on a non-empty array never terminates in the source, hence the precondition.
   */
  method GetBatch(records: RecordArray, batchSize: nat) returns (yielded: seq<NumberedBatch>)
    requires batchSize > 0 || records.elems == []
    modifies records
    ensures records.elems == []
    ensures |yielded| == |Chunks(old(records.elems), batchSize)|
    ensures forall i :: 0 <= i < |yielded| ==>
      yielded[i].batch == Chunks(old(records.elems), batchSize)[i] && yielded[i].batchNo == i
  {
    ghost var all := Chunks(records.elems, batchSize);
    var batchNo: nat := 0;
    yielded := [];
    while |records.elems| > 0
      invariant batchNo == |yielded|
      invariant batchSize > 0 || records.elems == []
      invariant all == Batches(yielded) + Chunks(records.elems, batchSize)
      invariant forall i :: 0 <= i < |yielded| ==> yielded[i].batchNo == i
      decreases |records.elems|
    {
      ghost var before := records.elems;
      var batch := records.Splice(batchSize);
      assert Chunks(before, batchSize) == [batch] + Chunks(records.elems, batchSize);
      assert Batches(yielded + [NumberedBatch(batch, batchNo)]) == Batches(yielded) + [batch];
      yielded := yielded + [NumberedBatch(batch, batchNo)];
      batchNo := batchNo + 1;
    }
    assert Batches(yielded) == all;
  }

  function Batches(ys: seq<NumberedBatch>): (r: seq<seq<Json>>)
    ensures |r| == |ys| && forall i :: 0 <= i < |ys| ==> r[i] == ys[i].batch
  {
    seq(|ys|, i requires 0 <= i < |ys| => ys[i].batch)
  }

  /**
   * One step of the `reduce` in getConcurrentBatch: open a new batch when the last one
   * is full, then push the value onto the last batch.
   */
  function ReduceStep<T>(chunk: seq<seq<T>>, val: T, batchSize: nat): (r: seq<seq<T>>)
    requires chunk != []
    ensures r != []
  {
    var last := chunk[|chunk| - 1];
    if |last| == batchSize then chunk + [[val]]
    else chunk[..|chunk| - 1] + [last + [val]]
  }

  /** `vals.reduce(ReduceStep, chunk)`. */
  function Reduce<T>(chunk: seq<seq<T>>, vals: seq<T>, batchSize: nat): (r: seq<seq<T>>)
    requires chunk != []
    decreases |vals|
  {
    if vals == [] then chunk
    else Reduce(ReduceStep(chunk, vals[0], batchSize), vals[1..], batchSize)
  }

  /** Reducing onto a non-empty, not over-full last batch is chunking what follows it. */
  lemma {:induction false} ReduceIsChunks<T>(done: seq<seq<T>>, last: seq<T>, vals: seq<T>, batchSize: nat)
    requires 0 < |last| <= batchSize
    ensures Reduce(done + [last], vals, batchSize) == done + Chunks(last + vals, batchSize)
    decreases |vals|
  {
    var s := last + vals;
    if vals == [] {
      assert s == last && s[..|s|] == s && s[|s|..] == [];
      assert Chunks(s, batchSize) == [s] + Chunks(s[|s|..], batchSize);
    } else if |last| == batchSize {
      var v, more := vals[0], vals[1..];
      assert s[..batchSize] == last && s[batchSize..] == vals && [v] + more == vals;
      calc {
        Reduce(done + [last], vals, batchSize);
        Reduce(ReduceStep(done + [last], v, batchSize), more, batchSize);
        { assert ReduceStep(done + [last], v, batchSize) == (done + [last]) + [[v]]; }
        Reduce((done + [last]) + [[v]], more, batchSize);
        { ReduceIsChunks(done + [last], [v], more, batchSize); }
        (done + [last]) + Chunks(vals, batchSize);
        done + ([last] + Chunks(vals, batchSize));
        { assert Chunks(s, batchSize) == [s[..batchSize]] + Chunks(s[batchSize..], batchSize); }
        done + Chunks(s, batchSize);
      }
    } else {
      var v, more := vals[0], vals[1..];
      assert (last + [v]) + more == s;
      assert (done + [last])[..|done|] == done;
      calc {
        Reduce(done + [last], vals, batchSize);
        Reduce(ReduceStep(done + [last], v, batchSize), more, batchSize);
        { assert ReduceStep(done + [last], v, batchSize) == done + [last + [v]]; }
        Reduce(done + [last + [v]], more, batchSize);
        { ReduceIsChunks(done, last + [v], more, batchSize); }
        done + Chunks(s, batchSize);
      }
    }
  }

  /** The reduce in getConcurrentBatch, started from `[[]]` on a non-empty slice, chunks it. */
  lemma ReduceFromEmpty<T>(vals: seq<T>, batchSize: nat)
    requires batchSize > 0 && vals != []
    ensures Reduce([[]], vals, batchSize) == Chunks(vals, batchSize)
  {
    var v, more := vals[0], vals[1..];
    var empty: seq<T> := [];
    assert [empty][..0] == [] && empty + [v] == [v];
    assert ReduceStep([empty], v, batchSize) == [] + [[v]];
    ReduceIsChunks([], [v], more, batchSize);
    assert [v] + more == vals;
  }

  /** The records a group of getConcurrentBatch spans: `concurrency` batches of `batchSize`. */
  function GroupSize(batchSize: nat, concurrency: nat): (r: nat)
    requires batchSize > 0 && concurrency > 0
    ensures r >= batchSize
  {
    MulMonotone(batchSize, concurrency);
    batchSize * concurrency
  }

  /** The groups getConcurrentBatch yields from loop index i on (i steps by batchSize * concurrency). */
  function ConcurrentFrom<T>(records: seq<T>, batchSize: nat, concurrency: nat, i: nat): seq<seq<seq<T>>>
    requires batchSize > 0 && concurrency > 0
    decreases |records| - i
  {
    if i >= |records| then []
    else
      var step := GroupSize(batchSize, concurrency);
      [Reduce([[]], records[i..Min(i + step, |records|)], batchSize)]
        + ConcurrentFrom(records, batchSize, concurrency, i + step)
  }

  /** getConcurrentBatch run to completion. Sizes below 1 loop forever on a non-empty array. */
  function GetConcurrentBatch<T>(records: seq<T>, batchSize: nat, concurrency: nat): seq<seq<seq<T>>>
    requires (batchSize > 0 && concurrency > 0) || records == []
  {
    if records == [] then [] else ConcurrentFrom(records, batchSize, concurrency, 0)
  }

  function MapChunks<T>(groups: seq<seq<T>>, batchSize: nat): (r: seq<seq<seq<T>>>)
    requires batchSize > 0
    ensures |r| == |groups|
    ensures forall j :: 0 <= j < |groups| ==> r[j] == Chunks(groups[j], batchSize)
  {
    seq(|groups|, j requires 0 <= j < |groups| => Chunks(groups[j], batchSize))
  }

  lemma MapChunksCons<T>(head: seq<T>, groups: seq<seq<T>>, batchSize: nat)
    requires batchSize > 0
    ensures MapChunks([head] + groups, batchSize) == [Chunks(head, batchSize)] + MapChunks(groups, batchSize)
  {
    var l, r := MapChunks([head] + groups, batchSize), [Chunks(head, batchSize)] + MapChunks(groups, batchSize);
    assert forall j :: 1 <= j < |l| ==> ([head] + groups)[j] == groups[j - 1];
    assert forall j :: 0 <= j < |l| ==> l[j] == r[j];
  }

  /** One iteration of getConcurrentBatch's loop: the group at i, cut into batches, then the rest. */
  lemma ConcurrentFromStep<T>(records: seq<T>, batchSize: nat, concurrency: nat, i: nat)
    requires batchSize > 0 && concurrency > 0 && i < |records|
    ensures var step := GroupSize(batchSize, concurrency);
      var e := Min(i + step, |records|);
      && ConcurrentFrom(records, batchSize, concurrency, i)
           == [Chunks(records[i..e], batchSize)] + ConcurrentFrom(records, batchSize, concurrency, i + step)
      && Chunks(records[i..], step) == [records[i..e]] + Chunks(records[e..], step)
  {
    var step := GroupSize(batchSize, concurrency);
    var e := Min(i + step, |records|);
    ReduceFromEmpty(records[i..e], batchSize);
    var rest := records[i..];
    var k := Min(step, |rest|);
    assert rest[..k] == records[i..e] && rest[k..] == records[e..];
  }

  /** If the loop from the next group on is the cut of the rest, so is the loop from i. */
  lemma ConcurrentFromCons<T>(records: seq<T>, batchSize: nat, concurrency: nat, i: nat)
    requires batchSize > 0 && concurrency > 0 && i < |records|
    requires var step := GroupSize(batchSize, concurrency);
      ConcurrentFrom(records, batchSize, concurrency, i + step)
        == MapChunks(Chunks(records[Min(i + step, |records|)..], step), batchSize)
    ensures ConcurrentFrom(records, batchSize, concurrency, i)
      == MapChunks(Chunks(records[i..], GroupSize(batchSize, concurrency)), batchSize)
  {
    var step := GroupSize(batchSize, concurrency);
    var e := Min(i + step, |records|);
    var tail := Chunks(records[e..], step);
    ConcurrentFromStep(records, batchSize, concurrency, i);
    calc {
      ConcurrentFrom(records, batchSize, concurrency, i);
      [Chunks(records[i..e], batchSize)] + ConcurrentFrom(records, batchSize, concurrency, i + step);
      [Chunks(records[i..e], batchSize)] + MapChunks(tail, batchSize);
      { MapChunksCons(records[i..e], tail, batchSize); }
      MapChunks([records[i..e]] + tail, batchSize);
      MapChunks(Chunks(records[i..], step), batchSize);
    }
  }

  lemma {:induction false} ConcurrentFromIsChunks<T>(records: seq<T>, batchSize: nat, concurrency: nat, i: nat)
    requires batchSize > 0 && concurrency > 0 && i <= |records|
    ensures ConcurrentFrom(records, batchSize, concurrency, i)
      == MapChunks(Chunks(records[i..], GroupSize(batchSize, concurrency)), batchSize)
    decreases |records| - i
  {
    var step := GroupSize(batchSize, concurrency);
    if i < |records| {
      if i + step <= |records| {
        ConcurrentFromIsChunks(records, batchSize, concurrency, i + step);
      } else {
        assert records[|records|..] == [];
      }
      ConcurrentFromCons(records, batchSize, concurrency, i);
    } else {
      assert records[i..] == [];
    }
  }

  /** The batches of each group joined back together. */
  function FlattenEach<T>(g: seq<seq<seq<T>>>): (r: seq<seq<T>>)
    ensures |r| == |g| && forall j :: 0 <= j < |g| ==> r[j] == Flatten(g[j])
  {
    seq(|g|, j requires 0 <= j < |g| => Flatten(g[j]))
  }

  /** getConcurrentBatch cuts the records into groups of batchSize * concurrency, then each group into batches. */
  lemma GetConcurrentBatchIsChunks<T>(records: seq<T>, batchSize: nat, concurrency: nat)
    requires batchSize > 0 && concurrency > 0
    ensures GetConcurrentBatch(records, batchSize, concurrency)
      == MapChunks(Chunks(records, GroupSize(batchSize, concurrency)), batchSize)
  {
    if records != [] {
      ConcurrentFromIsChunks(records, batchSize, concurrency, 0);
      assert records[0..] == records;
    }
  }

  /** Flattening the groups, then the batches, gives back the records in order. */
  lemma GetConcurrentBatchCovers<T>(records: seq<T>, batchSize: nat, concurrency: nat)
    requires batchSize > 0 && concurrency > 0
    ensures Flatten(FlattenEach(GetConcurrentBatch(records, batchSize, concurrency))) == records
  {
    GetConcurrentBatchIsChunks(records, batchSize, concurrency);
    var groups := Chunks(records, GroupSize(batchSize, concurrency));
    var g := GetConcurrentBatch(records, batchSize, concurrency);
    ChunksShape(records, GroupSize(batchSize, concurrency));
    forall j | 0 <= j < |g|
      ensures FlattenEach(g)[j] == groups[j]
    {
      ChunksShape(groups[j], batchSize);
    }
    assert FlattenEach(g) == groups;
  }

  /**
   * Every group holds at most `concurrency` batches of at most `batchSize` records;
   * every group but the last holds exactly `concurrency` full batches, and within the
   * last group only the last batch may be short.
   */
  lemma GetConcurrentBatchSizes<T>(records: seq<T>, batchSize: nat, concurrency: nat)
    requires batchSize > 0 && concurrency > 0
    ensures var g := GetConcurrentBatch(records, batchSize, concurrency);
      && (forall j :: 0 <= j < |g| ==> 0 < |g[j]| <= concurrency)
      && (forall j :: 0 <= j < |g| - 1 ==> |g[j]| == concurrency)
      && (forall j, t :: 0 <= j < |g| && 0 <= t < |g[j]| ==> 0 < |g[j][t]| <= batchSize)
      && (forall j, t :: 0 <= j < |g| && 0 <= t < |g[j]| && (j < |g| - 1 || t < |g[j]| - 1) ==>
            |g[j][t]| == batchSize)
  {
    GetConcurrentBatchIsChunks(records, batchSize, concurrency);
    var step := GroupSize(batchSize, concurrency);
    var groups := Chunks(records, step);
    var g := GetConcurrentBatch(records, batchSize, concurrency);
    ChunksShape(records, step);
    forall j | 0 <= j < |g|
      ensures 0 < |g[j]| <= concurrency
      ensures forall t :: 0 <= t < |g[j]| ==> 0 < |g[j][t]| <= batchSize
      ensures forall t :: 0 <= t < |g[j]| - 1 ==> |g[j][t]| == batchSize
      ensures j < |g| - 1 ==> |g[j]| == concurrency
      ensures j < |g| - 1 ==> forall t :: 0 <= t < |g[j]| ==> |g[j][t]| == batchSize
    {
      ChunksShape(groups[j], batchSize);
      ChunksAtMost(groups[j], batchSize, concurrency);
      if j < |g| - 1 {
        ChunksExact(groups[j], batchSize, concurrency);
      }
    }
  }

  /** The largest batch SendMessageBatch accepts, getEntries' default batch size. */
  const MaxBatchSize: nat := 10

  /**
   * The entry for the record at global offset k: the call's options, overridden by the
   * offset-carrying `Id` and by the record's serialised `MessageBody`.
   */
  function MakeEntry(options: Params, uuid: string, k: nat, item: Json, stringify: Json -> string): (e: Entry)
    ensures e.Keys == options.Keys + {"Id", "MessageBody"}
    ensures StrField(e, "Id") == Some(EncodeId(uuid, k))
    ensures StrField(e, "MessageBody") == Some(stringify(item))
    ensures forall key :: key in options && key != "Id" && key != "MessageBody" ==> e[key] == options[key]
  {
    Assign(options, map["Id" := JString(EncodeId(uuid, k)), "MessageBody" := JString(stringify(item))])
  }

  /** Every record's entry, in input order: the reference getEntries is checked against. */
  function AllEntries(records: seq<Json>, options: Params, uuid: string, stringify: Json -> string): (r: seq<Entry>)
    ensures |r| == |records|
    ensures forall k :: 0 <= k < |records| ==> r[k] == MakeEntry(options, uuid, k, records[k], stringify)
  {
    seq(|records|, k requires 0 <= k < |records| => MakeEntry(options, uuid, k, records[k], stringify))
  }

  /** The batches getEntries yields from loop index i on (i steps by batchSize). */
  function EntriesFrom(records: seq<Json>, options: Params, batchSize: nat, uuid: string,
                       stringify: Json -> string, i: nat): seq<Batch>
    requires batchSize > 0
    decreases |records| - i
  {
    if i >= |records| then []
    else
      var len := Min(batchSize, |records| - i);
      [seq(len, t requires 0 <= t < len => MakeEntry(options, uuid, i + t, records[i + t], stringify))]
        + EntriesFrom(records, options, batchSize, uuid, stringify, i + batchSize)
  }

  /**
   * getEntries run to completion, for the per-call prefix `uuid` (randomUUID). A batch
   * size below 1 loops forever on a non-empty array, hence the precondition.
   */
  function GetEntries(records: seq<Json>, options: Params, batchSize: nat, uuid: string,
                      stringify: Json -> string): seq<Batch>
    requires batchSize > 0 || records == []
  {
    if records == [] then [] else EntriesFrom(records, options, batchSize, uuid, stringify, 0)
  }

  /** The batch getEntries yields at loop index i. */
  lemma EntriesFromHead(records: seq<Json>, options: Params, batchSize: nat,
                        uuid: string, stringify: Json -> string, i: nat)
    requires batchSize > 0 && i < |records|
    ensures var next := Min(i + batchSize, |records|);
      var r := EntriesFrom(records, options, batchSize, uuid, stringify, i);
      && r == [AllEntries(records, options, uuid, stringify)[i..next]]
              + EntriesFrom(records, options, batchSize, uuid, stringify, next)
  {
    var next := Min(i + batchSize, |records|);
    var all := AllEntries(records, options, uuid, stringify);
    var len := Min(batchSize, |records| - i);
    var head := seq(len, t requires 0 <= t < len => MakeEntry(options, uuid, i + t, records[i + t], stringify));
    assert head == all[i..next];
    assert EntriesFrom(records, options, batchSize, uuid, stringify, i + batchSize)
        == EntriesFrom(records, options, batchSize, uuid, stringify, next);
  }

  lemma {:induction false} EntriesFromSizes(records: seq<Json>, options: Params, batchSize: nat,
                                            uuid: string, stringify: Json -> string, i: nat)
    requires batchSize > 0 && i <= |records|
    ensures var r := EntriesFrom(records, options, batchSize, uuid, stringify, i);
      var c := Chunks(records[i..], batchSize);
      |r| == |c| && forall j :: 0 <= j < |r| ==> |r[j]| == |c[j]|
    decreases |records| - i
  {
    if i < |records| {
      var rest := records[i..];
      var len := Min(batchSize, |records| - i);
      var next := Min(i + batchSize, |records|);
      EntriesFromHead(records, options, batchSize, uuid, stringify, i);
      EntriesFromSizes(records, options, batchSize, uuid, stringify, next);
      assert rest[len..] == records[next..];
      assert Chunks(rest, batchSize) == [rest[..len]] + Chunks(records[next..], batchSize);
    } else {
      assert records[i..] == [];
    }
  }

  lemma {:induction false} EntriesFromFlatten(records: seq<Json>, options: Params, batchSize: nat,
                                              uuid: string, stringify: Json -> string, i: nat)
    requires batchSize > 0 && i <= |records|
    ensures Flatten(EntriesFrom(records, options, batchSize, uuid, stringify, i))
      == AllEntries(records, options, uuid, stringify)[i..]
    decreases |records| - i
  {
    var all := AllEntries(records, options, uuid, stringify);
    if i < |records| {
      var next := Min(i + batchSize, |records|);
      var r := EntriesFrom(records, options, batchSize, uuid, stringify, i);
      EntriesFromHead(records, options, batchSize, uuid, stringify, i);
      EntriesFromFlatten(records, options, batchSize, uuid, stringify, next);
      assert r[1..] == EntriesFrom(records, options, batchSize, uuid, stringify, next);
      assert all[i..] == all[i..next] + all[next..];
    }
  }

  /**
   * getEntries yields ceil(n / batchSize) batches; each holds between 1 and batchSize
   * entries, all but the last exactly batchSize; and the entries, concatenated, are the
   * records' entries one-to-one and in order. Empty input yields no batches.
   */
  lemma GetEntriesShape(records: seq<Json>, options: Params, batchSize: nat, uuid: string, stringify: Json -> string)
    requires batchSize > 0
    ensures var r := GetEntries(records, options, batchSize, uuid, stringify);
      && |r| == (|records| + batchSize - 1) / batchSize
      && (forall j :: 0 <= j < |r| ==> 0 < |r[j]| <= batchSize)
      && (forall j :: 0 <= j < |r| - 1 ==> |r[j]| == batchSize)
      && Flatten(r) == AllEntries(records, options, uuid, stringify)
      && (r == [] <==> records == [])
  {
    EntriesFromSizes(records, options, batchSize, uuid, stringify, 0);
    EntriesFromFlatten(records, options, batchSize, uuid, stringify, 0);
    assert records[0..] == records;
    assert AllEntries(records, options, uuid, stringify)[0..] == AllEntries(records, options, uuid, stringify);
    ChunksShape(records, batchSize);
    ChunksCount(records, batchSize);
  }

  /** The concatenated length before piece j, when every earlier piece is full. */
  lemma {:induction false} FlattenFullPrefix<T>(ss: seq<seq<T>>, j: nat, size: nat)
    requires j <= |ss|
    requires forall i :: 0 <= i < j ==> |ss[i]| == size
    ensures |Flatten(ss[..j])| == j * size
  {
    if j > 0 {
      FlattenFullPrefix(ss, j - 1, size);
      assert ss[..j] == ss[..j - 1] + [ss[j - 1]];
      FlattenAppend(ss[..j - 1], [ss[j - 1]]);
      assert Flatten([ss[j - 1]]) == ss[j - 1];
    }
  }

  /** Element t of piece j sits in the concatenation after all earlier pieces. */
  lemma {:induction false} FlattenIndex<T>(ss: seq<seq<T>>, j: nat, t: nat)
    requires j < |ss| && t < |ss[j]|
    ensures |Flatten(ss[..j])| + t < |Flatten(ss)|
    ensures Flatten(ss)[|Flatten(ss[..j])| + t] == ss[j][t]
  {
    assert ss == ss[..j] + ss[j..];
    FlattenAppend(ss[..j], ss[j..]);
    assert Flatten(ss[j..]) == ss[j] + Flatten(ss[j + 1..]);
  }

  /** The offset `i + index` of the t-th item of batch j, where the loop index i is j * batchSize. */
  function GlobalOffset(j: nat, batchSize: nat, t: nat): nat
  {
    j * batchSize + t
  }

  /**
   * Entry t of batch j is the entry of the record at global offset j * batchSize + t:
   * its Id is the call's prefix, "__", and that offset.
   */
  lemma GetEntriesAt(records: seq<Json>, options: Params, batchSize: nat, uuid: string,
                     stringify: Json -> string, j: nat, t: nat)
    requires batchSize > 0
    requires j < |GetEntries(records, options, batchSize, uuid, stringify)|
    requires t < |GetEntries(records, options, batchSize, uuid, stringify)[j]|
    ensures GlobalOffset(j, batchSize, t) < |records|
    ensures GetEntries(records, options, batchSize, uuid, stringify)[j][t]
      == MakeEntry(options, uuid, GlobalOffset(j, batchSize, t), records[GlobalOffset(j, batchSize, t)], stringify)
  {
    var r := GetEntries(records, options, batchSize, uuid, stringify);
    GetEntriesShape(records, options, batchSize, uuid, stringify);
    FlattenFullPrefix(r, j, batchSize);
    FlattenIndex(r, j, t);
  }
}

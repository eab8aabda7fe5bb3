/**
 * The value shapes of src/types.ts and of the SQS messages the core exchanges with the
 * service: JSON values, option bags (plain objects), batch entries, batch responses and
 * the aggregate bulk-enqueue result.
 */
module Types {
  import opened Wrappers

  /** `Json` of src/types.ts. JavaScript numbers are represented by `real`. */
  datatype Json =
    | JNull
    | JBool(b: bool)
    | JNumber(n: real)
    | JString(s: string)
    | JArray(items: seq<Json>)
    | JObject(fields: map<string, Json>)

  /** A plain JavaScript object used as an option bag or a request parameter object. */
  type Params = map<string, Json>

  /** One `SendMessageBatchRequestEntry`: the object getEntries builds. */
  type Entry = Params

  /** The entries sent in one `SendMessageBatch` call. */
  type Batch = seq<Entry>

  /**
   * `Object.assign({}, target, source)`: every own key of `source` overrides the same key
   * of `target`; keys of `target` that `source` lacks are kept.
   */
  function Assign(target: Params, source: Params): (r: Params)
    ensures r.Keys == target.Keys + source.Keys
    ensures forall k :: k in source ==> r[k] == source[k]
    ensures forall k :: k in target && k !in source ==> r[k] == target[k]
  {
    target + source
  }

  /** Reads a string-typed property such as `entry.Id`; `None` when it is absent. */
  function StrField(obj: Params, key: string): (r: Option<string>)
    ensures r.Some? <==> key in obj && obj[key].JString?
    ensures r.Some? ==> obj[key] == JString(r.value)
  {
    if key in obj && obj[key].JString? then Some(obj[key].s) else None
  }

  /** A `SendMessageBatchResultEntry`; only the fields the core reads. */
  datatype SuccessEntry = SuccessEntry(id: Option<string>, messageId: Option<string>)

  /** A `BatchResultErrorEntry`: `Id`, `SenderFault`, `Code`, `Message`. */
  datatype ErrorEntry = ErrorEntry(
    id: Option<string>,
    senderFault: Option<bool>,
    code: Option<string>,
    message: Option<string>)

  /** The `Successful` and `Failed` lists of a `SendMessageBatch` response; either may be absent. */
  datatype BatchResponse = BatchResponse(
    successful: Option<seq<SuccessEntry>>,
    failed: Option<seq<ErrorEntry>>)

  /**
   * The settled outcome of one `SendMessageBatch` call, as `Promise.allSettled` reports it.
   * The rejection reason is represented by its text.
   */
  datatype Settled = Fulfilled(value: BatchResponse) | Rejected(reason: string)

  /** `BulkEnqueueResult` of src/types.ts. */
  datatype BulkEnqueueResult = BulkEnqueueResult(successful: seq<string>, failed: seq<ErrorEntry>)

  /** A received SQS `Message`; only the fields the core reads. */
  datatype Message = Message(messageId: Option<string>, receiptHandle: Option<string>, body: Option<string>)
}

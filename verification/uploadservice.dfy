/** The upload and export service: the receipt upload form, the CSV export query, and the
    offline-queue sync call, which is a single pass-through request. */
module UploadService {
  import opened Base
  import opened Api
  import Query

  const ReceiptsEndpoint := "/uploads/receipts"
  const ExportEndpoint := "/exports/transactions"
  const SyncEndpoint := "/sync/queue"
  const AcceptHeader := "Accept"
  const CsvMediaType := "text/csv"

  // ---- uploadReceipt ----

  datatype UploadReceiptParams = UploadReceiptParams(file: FileRef, transactionId: Option<string>)

  /** The receipt form: the file first, then the transaction id only when it is given and
      non-empty. */
  function ReceiptForm(p: UploadReceiptParams): (form: Form)
    ensures 1 <= |form| <= 2 && form[0] == FormFile("file", p.file)
    ensures FindPart(form, "file") == Some(FormFile("file", p.file))
    ensures FindPart(form, "transaction_id") ==
      (if p.transactionId.Some? && p.transactionId.value != "" then Some(FormField("transaction_id", p.transactionId.value)) else None)
  {
    var withFile := [FormFile("file", p.file)];
    if p.transactionId.Some? && p.transactionId.value != "" then
      withFile + [FormField("transaction_id", p.transactionId.value)]
    else withFile
  }

  /** `uploadReceipt`: the form, handed to `api.upload`. */
  function UploadReceipt(p: UploadReceiptParams): (c: Call<Form>) {
    Call(Upload, ReceiptsEndpoint, Some(ReceiptForm(p)), NoOptions)
  }

  /** `api` has no `upload`, so `uploadReceipt` rejects with a `TypeError` once the form is
      built, and no receipt is ever sent. */
  lemma UploadReceiptSendsNothing(p: UploadReceiptParams, base: string, encode: Encoder<Form>,
                                  stringify: Json.Json -> string, escape: string -> string)
    ensures Wire(base, UploadReceipt(p), encode, stringify, escape).None?
  {
  }

  // ---- exportTransactionsCSV ----

  datatype ExportTransactionsParams = ExportTransactionsParams(
    recordedFor: Option<string>,
    dateFrom: Option<string>,
    dateTo: Option<string>,
    category: Option<string>)

  function ExportFields(p: ExportTransactionsParams): seq<(string, Query.Field)> {
    [("recorded_for", Query.Str(p.recordedFor)),
     ("date_from", Query.Str(p.dateFrom)),
     ("date_to", Query.Str(p.dateTo)),
     ("category", Query.Str(p.category))]
  }

  const ExportKeys: set<string> := {"recorded_for", "date_from", "date_to", "category"}

  /** The export query: each filter verbatim, only when non-empty, and no other key. */
  function ExportQuery(p: ExportTransactionsParams): (q: Query.Query)
    ensures Query.Copied(q, "recorded_for", Query.Str(p.recordedFor))
    ensures Query.Copied(q, "date_from", Query.Str(p.dateFrom))
    ensures Query.Copied(q, "date_to", Query.Str(p.dateTo))
    ensures Query.Copied(q, "category", Query.Str(p.category))
    ensures Query.KeysWithin(q, ExportKeys)
  {
    var fields := ExportFields(p);
    Query.BuildSpec(fields, ExportKeys);
    assert fields[0].0 == "recorded_for" && fields[1].0 == "date_from";
    assert fields[2].0 == "date_to" && fields[3].0 == "category";
    Query.Build(fields)
  }

  /** `exportTransactionsCSV`: a `GET` of the export asking for CSV. */
  function ExportTransactionsCsv(p: ExportTransactionsParams): (c: Call<Json.Json>) {
    Call(Get, ExportEndpoint, None, RequestOptions(Some(ExportQuery(p)), Some(map[AcceptHeader := CsvMediaType])))
  }

  /** On the wire, the export is a `GET` with no body, `Accept: text/csv` beside the JSON
      content type, and a query string that reads back to the filters it copied. */
  lemma ExportTransactionsCsvSends(p: ExportTransactionsParams, base: string, encode: Encoder<Json.Json>,
                                   stringify: Json.Json -> string, escape: string -> string)
    ensures var out := Wire(base, ExportTransactionsCsv(p), encode, stringify, escape);
      && out == Some(Outgoing("GET", base + ExportEndpoint + "?" + Query.Encode(escape, ExportQuery(p)),
                              map[ContentTypeHeader := JsonMediaType, AcceptHeader := CsvMediaType], None))
      && (Query.SafeEscape(escape) ==>
            Query.Decode(out.value.url[|base + ExportEndpoint| + 1..]) == Query.EscapeAll(escape, ExportQuery(p)))
  {
    var h := MergeHeaders(Some(map[AcceptHeader := CsvMediaType]));
    assert h.Keys == {ContentTypeHeader, AcceptHeader};
    assert h == map[ContentTypeHeader := JsonMediaType, AcceptHeader := CsvMediaType];
    GetSendsQuery(base, ExportEndpoint, ExportQuery(p), Some(map[AcceptHeader := CsvMediaType]), encode, stringify, escape);
  }

  /** With no filters, the export sends an empty params object, so its URL ends in a bare
      `?` and still asks for CSV. */
  lemma ExportWithoutFilters(base: string, escape: string -> string)
    ensures var c := ExportTransactionsCsv(ExportTransactionsParams(None, None, None, None));
      && Url(base, c.endpoint, c.options.params, escape) == base + ExportEndpoint + "?"
      && MergeHeaders(c.options.headers) == map[ContentTypeHeader := JsonMediaType, AcceptHeader := CsvMediaType]
  {
    Query.BuildAllFalsy(ExportFields(ExportTransactionsParams(None, None, None, None)));
  }

  // ---- syncOfflineQueue ----

  /** `QueueItem.action`. */
  datatype QueueAction = AddContribution | UndoTransaction

  datatype QueueItemPayload = QueueItemPayload(
    recordedFor: string,
    amount: int,
    category: string,
    context: Option<string>,
    date: Option<string>)

  datatype QueueItem = QueueItem(
    localId: string,
    action: QueueAction,
    payload: QueueItemPayload,
    timestamp: Option<string>,
    idempotencyKey: Option<string>)

  datatype SyncQueueRequest = SyncQueueRequest(deviceId: string, queue: seq<QueueItem>)

  /** `SyncQueueResult.status`. */
  datatype SyncStatus = StatusOk | StatusError

  /** One result per queued item; the duplicate flag is always present. */
  datatype SyncQueueResult = SyncQueueResult(
    localId: string,
    status: SyncStatus,
    serverId: Option<string>,
    duplicate: bool,
    error: Option<string>)

  datatype SyncSummary = SyncSummary(total: int, success: int, failed: int)

  datatype SyncQueueResponse = SyncQueueResponse(results: seq<SyncQueueResult>, summary: SyncSummary)

  /** `syncOfflineQueue`: one `POST` of the request. */
  function SyncOfflineQueue(r: SyncQueueRequest): (c: Call<SyncQueueRequest>) {
    Call(Post, SyncEndpoint, Some(r), NoOptions)
  }

  /** On the wire, a sync is one `POST` of `/sync/queue` with no query and only the JSON
      content type, whose body is always sent and parses back to the request exactly as
      given: the client neither filters nor reorders the queue. */
  lemma SyncOfflineQueueSends(r: SyncQueueRequest, base: string, encode: Encoder<SyncQueueRequest>,
                              stringify: Json.Json -> string, parse: string -> Json.Json, escape: string -> string)
    ensures var out := Wire(base, SyncOfflineQueue(r), encode, stringify, escape);
      && out == Some(Outgoing("POST", base + SyncEndpoint, JsonHeaders, Some(stringify(Json.JObj(encode(r))))))
      && (JsonRoundTrip(stringify, parse) ==> parse(out.value.body.value) == Json.JObj(encode(r)))
  {
    PostSendsPayload(base, SyncEndpoint, r, None, encode, stringify, parse, escape);
  }
}

/** The transaction service: the list query (shared by the JSON and CSV variants) and the
    endpoints of the single-transaction calls. */
module TransactionService {
  import opened Base
  import opened Api
  import Query

  /** A ledger entry as the server returns it (amounts as integers). */
  datatype Transaction = Transaction(
    id: string,
    recordedFor: string,
    recordedForName: string,
    recordedBy: string,
    amount: int,
    currency: string,
    kind: string,
    category: string,
    context: string,
    description: Option<string>,
    receiptId: Option<string>,
    date: string,
    createdAt: string)

  /** The list response's paging metadata. */
  datatype PageMeta = PageMeta(total: int, page: int, perPage: int)

  datatype TransactionsResponse = TransactionsResponse(data: seq<Transaction>, meta: PageMeta)

  /** `GetTransactionsParams`; every filter is optional. */
  datatype GetTransactionsParams = GetTransactionsParams(
    recordedFor: Option<string>,
    recordedBy: Option<string>,
    dateFrom: Option<string>,
    dateTo: Option<string>,
    category: Option<string>,
    q: Option<string>,
    page: Option<int>,
    perPage: Option<int>,
    sortBy: Option<string>)

  const NoFilters := GetTransactionsParams(None, None, None, None, None, None, None, None, None)

  const TransactionsEndpoint := "/transactions"
  const AcceptHeader := "Accept"
  const CsvMediaType := "text/csv"

  /** The filters in the order the service copies them. */
  function TransactionFields(p: GetTransactionsParams): seq<(string, Query.Field)> {
    [("recorded_for", Query.Str(p.recordedFor)),
     ("recorded_by", Query.Str(p.recordedBy)),
     ("date_from", Query.Str(p.dateFrom)),
     ("date_to", Query.Str(p.dateTo)),
     ("category", Query.Str(p.category)),
     ("q", Query.Str(p.q)),
     ("page", Query.Num(p.page)),
     ("per_page", Query.Num(p.perPage)),
     ("sort_by", Query.Str(p.sortBy))]
  }

  const TransactionKeys: set<string> :=
    {"recorded_for", "recorded_by", "date_from", "date_to", "category", "q", "page", "per_page", "sort_by"}

  /** The query map both list calls build: each filter is copied only when truthy, numbers
      as decimal text, and nothing else appears. */
  function TransactionsQuery(p: GetTransactionsParams): (q: Query.Query)
    ensures Query.Copied(q, "recorded_for", Query.Str(p.recordedFor))
    ensures Query.Copied(q, "recorded_by", Query.Str(p.recordedBy))
    ensures Query.Copied(q, "date_from", Query.Str(p.dateFrom))
    ensures Query.Copied(q, "date_to", Query.Str(p.dateTo))
    ensures Query.Copied(q, "category", Query.Str(p.category))
    ensures Query.Copied(q, "q", Query.Str(p.q))
    ensures Query.Copied(q, "page", Query.Num(p.page))
    ensures Query.Copied(q, "per_page", Query.Num(p.perPage))
    ensures Query.Copied(q, "sort_by", Query.Str(p.sortBy))
    ensures Query.KeysWithin(q, TransactionKeys)
  {
    var fields := TransactionFields(p);
    Query.BuildSpec(fields, TransactionKeys);
    assert fields[0].0 == "recorded_for" && fields[1].0 == "recorded_by" && fields[2].0 == "date_from";
    assert fields[3].0 == "date_to" && fields[4].0 == "category" && fields[5].0 == "q";
    assert fields[6].0 == "page" && fields[7].0 == "per_page" && fields[8].0 == "sort_by";
    Query.Build(fields)
  }

  /** `getTransactions`. */
  function GetTransactions(p: GetTransactionsParams): (c: Call<Json.Json>) {
    Call(Get, TransactionsEndpoint, None, RequestOptions(Some(TransactionsQuery(p)), None))
  }

  /** `getTransactionsCSV`: the same request, asking for CSV. */
  function GetTransactionsCsv(p: GetTransactionsParams): (c: Call<Json.Json>) {
    Call(Get, TransactionsEndpoint, None, RequestOptions(Some(TransactionsQuery(p)), Some(map[AcceptHeader := CsvMediaType])))
  }

  /** On the wire, `getTransactions` is a `GET` with no body and only the JSON content
      type, whose query string reads back to the filters the service copied. */
  lemma GetTransactionsSends(p: GetTransactionsParams, base: string, encode: Encoder<Json.Json>,
                             stringify: Json.Json -> string, escape: string -> string)
    ensures var out := Wire(base, GetTransactions(p), encode, stringify, escape);
      && out == Some(Outgoing("GET", base + TransactionsEndpoint + "?" + Query.Encode(escape, TransactionsQuery(p)), JsonHeaders, None))
      && (Query.SafeEscape(escape) ==>
            Query.Decode(out.value.url[|base + TransactionsEndpoint| + 1..]) == Query.EscapeAll(escape, TransactionsQuery(p)))
  {
    GetSendsQuery(base, TransactionsEndpoint, TransactionsQuery(p), None, encode, stringify, escape);
  }

  /** On the wire, `getTransactionsCSV` is the same `GET`, with `Accept: text/csv` beside
      the JSON content type. */
  lemma GetTransactionsCsvSends(p: GetTransactionsParams, base: string, encode: Encoder<Json.Json>,
                                stringify: Json.Json -> string, escape: string -> string)
    ensures Wire(base, GetTransactionsCsv(p), encode, stringify, escape)
      == Some(Outgoing("GET", base + TransactionsEndpoint + "?" + Query.Encode(escape, TransactionsQuery(p)),
                       map[ContentTypeHeader := JsonMediaType, AcceptHeader := CsvMediaType], None))
  {
    GetSendsQuery(base, TransactionsEndpoint, TransactionsQuery(p), Some(map[AcceptHeader := CsvMediaType]), encode, stringify, escape);
    CsvVariantOnlyAddsAccept(p);
  }

  /** The CSV variant differs from the JSON one only in asking for CSV: same endpoint, same
      query, and on the wire the JSON content type plus `Accept: text/csv`. */
  lemma CsvVariantOnlyAddsAccept(p: GetTransactionsParams)
    ensures GetTransactionsCsv(p).(options := GetTransactions(p).options) == GetTransactions(p)
    ensures MergeHeaders(GetTransactionsCsv(p).options.headers)
      == map[ContentTypeHeader := JsonMediaType, AcceptHeader := CsvMediaType]
    ensures MergeHeaders(GetTransactions(p).options.headers) == map[ContentTypeHeader := JsonMediaType]
  {
    var h := MergeHeaders(GetTransactionsCsv(p).options.headers);
    assert h.Keys == {ContentTypeHeader, AcceptHeader};
  }

  /** `/transactions/${id}`. */
  function TransactionPath(id: string): string {
    TransactionsEndpoint + "/" + id
  }

  /** `/transactions/${id}/undo`. */
  function UndoPath(id: string): string {
    TransactionPath(id) + "/undo"
  }

  /** Different transactions never share a detail, update or undo URL. */
  lemma PathsInjective(a: string, b: string)
    ensures TransactionPath(a) == TransactionPath(b) ==> a == b
    ensures UndoPath(a) == UndoPath(b) ==> a == b
  {
    var n := |TransactionsEndpoint| + 1;
    assert TransactionPath(a)[n..] == a && TransactionPath(b)[n..] == b;
    if UndoPath(a) == UndoPath(b) {
      assert |a| == |b|;
      assert UndoPath(a)[..|UndoPath(a)| - 5] == TransactionPath(a);
      assert UndoPath(b)[..|UndoPath(b)| - 5] == TransactionPath(b);
    }
  }

  /** `getTransaction`. */
  function GetTransaction(id: string): (c: Call<Json.Json>) {
    Call(Get, TransactionPath(id), None, NoOptions)
  }

  /** On the wire, `getTransaction` is a bare `GET` of `/transactions/` and the id: no
      query, no body, only the JSON content type. */
  lemma GetTransactionSends(id: string, base: string, encode: Encoder<Json.Json>,
                            stringify: Json.Json -> string, escape: string -> string)
    ensures Wire(base, GetTransaction(id), encode, stringify, escape)
      == Some(Outgoing("GET", base + "/transactions/" + id, JsonHeaders, None))
  {
    assert base + TransactionPath(id) == base + "/transactions/" + id;
  }

  datatype UpdateTransactionPayload = UpdateTransactionPayload(
    amount: Option<int>,
    category: Option<string>,
    context: Option<string>,
    date: Option<string>,
    receiptId: Option<string>,
    recordedFor: Option<string>)

  /** `updateTransaction`: the payload handed to `api.patch` for the transaction's URL. */
  function UpdateTransaction(id: string, payload: UpdateTransactionPayload): (c: Call<UpdateTransactionPayload>) {
    Call(Patch, TransactionPath(id), Some(payload), NoOptions)
  }

  /** `api` has no `patch`, so `updateTransaction` rejects with a `TypeError` and no
      request for the transaction is ever made, whatever the id and payload. */
  lemma UpdateTransactionSendsNothing(id: string, payload: UpdateTransactionPayload, base: string,
                                      encode: Encoder<UpdateTransactionPayload>,
                                      stringify: Json.Json -> string, escape: string -> string)
    ensures Wire(base, UpdateTransaction(id, payload), encode, stringify, escape).None?
  {
  }

  datatype UndoTransactionPayload = UndoTransactionPayload(reason: Option<string>)

  /** `undoTransaction`: a `POST` to the undo URL. */
  function UndoTransaction(id: string, payload: Option<UndoTransactionPayload>): (c: Call<UndoTransactionPayload>) {
    Call(Post, UndoPath(id), payload, NoOptions)
  }

  /** On the wire, an undo is a `POST` of `/transactions/<id>/undo` with no query; it
      carries a body exactly when a payload is given (an object, so never dropped as
      falsy), and that body parses back to the payload. */
  lemma UndoTransactionSends(id: string, payload: Option<UndoTransactionPayload>, base: string,
                             encode: Encoder<UndoTransactionPayload>, stringify: Json.Json -> string,
                             parse: string -> Json.Json, escape: string -> string)
    ensures var out := Wire(base, UndoTransaction(id, payload), encode, stringify, escape);
      && out.Some? && out.value.verb == "POST" && out.value.url == base + "/transactions/" + id + "/undo"
      && out.value.headers == JsonHeaders
      && (out.value.body.Some? <==> payload.Some?)
      && (payload.Some? && JsonRoundTrip(stringify, parse) ==> parse(out.value.body.value) == Json.JObj(encode(payload.value)))
  {
    if payload.Some? {
      PostSendsPayload(base, UndoPath(id), payload.value, None, encode, stringify, parse, escape);
    }
  }
}

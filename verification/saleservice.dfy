/** The sales service: the sales list query, the summary period, and the endpoints of a
    new sale, a sale's detail and its refund. */
module SaleService {
  import opened Base
  import opened Api
  import Query

  const SalesEndpoint := "/sales"
  const SummaryEndpoint := "/sales/summary"

  /** How a sale was paid. */
  datatype PaymentMethod = Cash | Bank

  function PaymentMethodName(m: PaymentMethod): string {
    match m
    case Cash => "cash"
    case Bank => "bank"
  }

  datatype CreateSalePayload = CreateSalePayload(
    productName: string,
    quantity: Option<int>,
    saleTotal: int,
    currency: Option<string>,
    paymentMethod: PaymentMethod,
    bankId: Option<string>,
    bankName: Option<string>,
    cashHolder: Option<string>,
    date: Option<string>)

  /** `createSale`: a `POST` of the payload as given. */
  function CreateSale(payload: CreateSalePayload): (c: Call<CreateSalePayload>) {
    Call(Post, SalesEndpoint, Some(payload), NoOptions)
  }

  /** On the wire, a new sale is one `POST` of `/sales` with no query and only the JSON content
      type, whose body is always sent and parses back to the payload as given. */
  lemma CreateSaleSends(payload: CreateSalePayload, base: string, encode: Encoder<CreateSalePayload>,
      stringify: Json.Json -> string, parse: string -> Json.Json, escape: string -> string)
    ensures var out := Wire(base, CreateSale(payload), encode, stringify, escape);
      && out == Some(Outgoing("POST", base + SalesEndpoint, JsonHeaders, Some(stringify(Json.JObj(encode(payload))))))
      && (JsonRoundTrip(stringify, parse) ==> parse(out.value.body.value) == Json.JObj(encode(payload)))
  {
    PostSendsPayload(base, SalesEndpoint, payload, None, encode, stringify, parse, escape);
  }

  // ---- getSales ----

  /** `getSales`' parameters; `sort_by` is one of four names, which only the type checker
      enforces. */
  datatype GetSalesParams = GetSalesParams(
    page: Option<int>,
    perPage: Option<int>,
    sortBy: Option<string>,
    from: Option<string>,
    to: Option<string>,
    paymentMethod: Option<PaymentMethod>,
    q: Option<string>)

  function SalesFields(p: GetSalesParams): seq<(string, Query.Field)> {
    [("page", Query.Num(p.page)),
     ("per_page", Query.Num(p.perPage)),
     ("sort_by", Query.Str(p.sortBy)),
     ("from", Query.Str(p.from)),
     ("to", Query.Str(p.to)),
     ("payment_method", Query.Str(if p.paymentMethod.Some? then Some(PaymentMethodName(p.paymentMethod.value)) else None)),
     ("q", Query.Str(p.q))]
  }

  const SalesKeys: set<string> := {"page", "per_page", "sort_by", "from", "to", "payment_method", "q"}

  /** The sales query: page numbers as decimal text and texts verbatim, each only when
      truthy, the payment method by name, and no other key. */
  function SalesQuery(p: GetSalesParams): (q: Query.Query)
    ensures Query.Copied(q, "page", Query.Num(p.page))
    ensures Query.Copied(q, "per_page", Query.Num(p.perPage))
    ensures Query.Copied(q, "sort_by", Query.Str(p.sortBy))
    ensures Query.Copied(q, "from", Query.Str(p.from))
    ensures Query.Copied(q, "to", Query.Str(p.to))
    ensures Query.Lookup(q, "payment_method") ==
      (if p.paymentMethod.Some? then Some(PaymentMethodName(p.paymentMethod.value)) else None)
    ensures Query.Copied(q, "q", Query.Str(p.q))
    ensures Query.KeysWithin(q, SalesKeys)
  {
    var fields := SalesFields(p);
    Query.BuildSpec(fields, SalesKeys);
    assert fields[0].0 == "page" && fields[1].0 == "per_page" && fields[2].0 == "sort_by";
    assert fields[3].0 == "from" && fields[4].0 == "to" && fields[5].0 == "payment_method" && fields[6].0 == "q";
    Query.Build(fields)
  }

  /** `getSales`. */
  function GetSales(p: GetSalesParams): (c: Call<Json.Json>) {
    Call(Get, SalesEndpoint, None, RequestOptions(Some(SalesQuery(p)), None))
  }

  /** On the wire, `getSales` is a `GET` with no body and only the JSON content type, whose
      query string reads back to the filters the service copied. */
  lemma GetSalesSends(p: GetSalesParams, base: string, encode: Encoder<Json.Json>,
      stringify: Json.Json -> string, escape: string -> string)
    ensures var out := Wire(base, GetSales(p), encode, stringify, escape);
      && out == Some(Outgoing("GET", base + SalesEndpoint + "?" + Query.Encode(escape, SalesQuery(p)), JsonHeaders, None))
      && (Query.SafeEscape(escape) ==>
            Query.Decode(out.value.url[|base + SalesEndpoint| + 1..]) == Query.EscapeAll(escape, SalesQuery(p)))
  {
    GetSendsQuery(base, SalesEndpoint, SalesQuery(p), None, encode, stringify, escape);
  }

  // ---- the single-sale calls ----

  /** `/sales/${saleId}`. */
  function SalePath(id: string): string {
    SalesEndpoint + "/" + id
  }

  /** `/sales/${saleId}/refund`. */
  function RefundPath(id: string): string {
    SalePath(id) + "/refund"
  }

  /** `getSaleDetail`: no options at all, so no `?` either. */
  function GetSaleDetail(id: string): (c: Call<Json.Json>) {
    Call(Get, SalePath(id), None, NoOptions)
  }

  /** `refundSale`: a `POST` with no body. */
  function RefundSale(id: string): (c: Call<Json.Json>) {
    Call(Post, RefundPath(id), None, NoOptions)
  }

  /** On the wire, a sale's detail is a bare `GET` of `/sales/<id>` and its refund a `POST`
      of `/sales/<id>/refund` without a body, neither with a query; and those URLs name the
      sale, so different sales never share one. */
  lemma SaleCallsNameTheSale(a: string, b: string, base: string, encode: Encoder<Json.Json>,
                             stringify: Json.Json -> string, escape: string -> string)
    ensures Wire(base, GetSaleDetail(a), encode, stringify, escape) == Some(Outgoing("GET", base + "/sales/" + a, JsonHeaders, None))
    ensures Wire(base, RefundSale(a), encode, stringify, escape) == Some(Outgoing("POST", base + "/sales/" + a + "/refund", JsonHeaders, None))
    ensures SalePath(a) == SalePath(b) ==> a == b
    ensures RefundPath(a) == RefundPath(b) ==> a == b
  {
    assert base + SalePath(a) == base + "/sales/" + a;
    assert base + RefundPath(a) == base + "/sales/" + a + "/refund";
    var n := |SalesEndpoint| + 1;
    assert SalePath(a)[n..] == a && SalePath(b)[n..] == b;
    if RefundPath(a) == RefundPath(b) {
      assert |a| == |b|;
      assert RefundPath(a)[..|RefundPath(a)| - 7] == SalePath(a);
      assert RefundPath(b)[..|RefundPath(b)| - 7] == SalePath(b);
    }
  }

  // ---- getSalesSummary ----

  /** The summary query: `from` then `to`, both always present, even when empty. */
  function SummaryQuery(from: string, to: string): (q: Query.Query)
    ensures Query.Lookup(q, "from") == Some(from)
    ensures Query.Lookup(q, "to") == Some(to)
    ensures Query.KeysWithin(q, {"from", "to"})
  {
    [Query.Param("from", from), Query.Param("to", to)]
  }

  /** `getSalesSummary`. */
  function GetSalesSummary(from: string, to: string): (c: Call<Json.Json>) {
    Call(Get, SummaryEndpoint, None, RequestOptions(Some(SummaryQuery(from, to)), None))
  }

  /** On the wire, the summary is a `GET` with no body whose query string is exactly the
      two escaped bounds, `from` first, whatever their values. */
  lemma GetSalesSummarySends(from: string, to: string, base: string, encode: Encoder<Json.Json>,
                             stringify: Json.Json -> string, escape: string -> string)
    ensures Wire(base, GetSalesSummary(from, to), encode, stringify, escape)
      == Some(Outgoing("GET", base + SummaryEndpoint + "?" + escape("from") + "=" + escape(from) + "&" + escape("to") + "=" + escape(to),
                       JsonHeaders, None))
  {
    var q := SummaryQuery(from, to);
    assert Query.Encode(escape, q) == escape("from") + "=" + escape(from) + "&" + escape("to") + "=" + escape(to) by {
      assert q[1..] == [Query.Param("to", to)];
    }
    GetSendsQuery(base, SummaryEndpoint, q, None, encode, stringify, escape);
    assert base + SummaryEndpoint + "?" + Query.Encode(escape, q)
      == base + SummaryEndpoint + "?" + escape("from") + "=" + escape(from) + "&" + escape("to") + "=" + escape(to);
  }

  /** Unlike the filter builders, the summary keeps an empty period bound: a `from=` with
      nothing after it still goes out, where `getSales` would drop it. */
  lemma SummaryKeepsEmptyBounds(p: GetSalesParams)
    requires p.from == Some("")
    ensures Query.Lookup(GetSalesSummary("", "").options.params.value, "from") == Some("")
    ensures Query.Lookup(GetSales(p).options.params.value, "from").None?
  {
  }
}

/** The cost-entry service: the list query and the endpoint of a new entry. */
module CostEntryService {
  import opened Base
  import opened Api
  import Query

  const CostEntriesEndpoint := "/cost-entries"

  datatype CreateCostEntryPayload = CreateCostEntryPayload(
    description: string,
    totalCost: int,
    currency: Option<string>,
    date: Option<string>)

  /** `createCostEntry`: a `POST` of the payload as given. */
  function CreateCostEntry(payload: CreateCostEntryPayload): (c: Call<CreateCostEntryPayload>) {
    Call(Post, CostEntriesEndpoint, Some(payload), NoOptions)
  }

  /** On the wire, a new cost entry is one `POST` of `/cost-entries` with no query and only the JSON content
      type, whose body is always sent and parses back to the payload as given. */
  lemma CreateCostEntrySends(payload: CreateCostEntryPayload, base: string, encode: Encoder<CreateCostEntryPayload>,
      stringify: Json.Json -> string, parse: string -> Json.Json, escape: string -> string)
    ensures var out := Wire(base, CreateCostEntry(payload), encode, stringify, escape);
      && out == Some(Outgoing("POST", base + CostEntriesEndpoint, JsonHeaders, Some(stringify(Json.JObj(encode(payload))))))
      && (JsonRoundTrip(stringify, parse) ==> parse(out.value.body.value) == Json.JObj(encode(payload)))
  {
    PostSendsPayload(base, CostEntriesEndpoint, payload, None, encode, stringify, parse, escape);
  }

  /** `getCostEntries`' parameters; `sort_by` and `status` are each one of a few names,
      which only the type checker enforces. */
  datatype GetCostEntriesParams = GetCostEntriesParams(
    page: Option<int>,
    perPage: Option<int>,
    sortBy: Option<string>,
    from: Option<string>,
    to: Option<string>,
    status: Option<string>,
    q: Option<string>)

  function CostEntryFields(p: GetCostEntriesParams): seq<(string, Query.Field)> {
    [("page", Query.Num(p.page)),
     ("per_page", Query.Num(p.perPage)),
     ("sort_by", Query.Str(p.sortBy)),
     ("from", Query.Str(p.from)),
     ("to", Query.Str(p.to)),
     ("status", Query.Str(p.status)),
     ("q", Query.Str(p.q))]
  }

  const CostEntryKeys: set<string> := {"page", "per_page", "sort_by", "from", "to", "status", "q"}

  /** The cost-entry query: page numbers as decimal text and texts verbatim, each only
      when truthy, and none of any other key. */
  function CostEntriesQuery(p: GetCostEntriesParams): (q: Query.Query)
    ensures Query.Copied(q, "page", Query.Num(p.page))
    ensures Query.Copied(q, "per_page", Query.Num(p.perPage))
    ensures Query.Copied(q, "sort_by", Query.Str(p.sortBy))
    ensures Query.Copied(q, "from", Query.Str(p.from))
    ensures Query.Copied(q, "to", Query.Str(p.to))
    ensures Query.Copied(q, "status", Query.Str(p.status))
    ensures Query.Copied(q, "q", Query.Str(p.q))
    ensures Query.KeysWithin(q, CostEntryKeys)
  {
    var fields := CostEntryFields(p);
    Query.BuildSpec(fields, CostEntryKeys);
    assert fields[0].0 == "page" && fields[1].0 == "per_page" && fields[2].0 == "sort_by";
    assert fields[3].0 == "from" && fields[4].0 == "to" && fields[5].0 == "status" && fields[6].0 == "q";
    Query.Build(fields)
  }

  /** `getCostEntries`. */
  function GetCostEntries(p: GetCostEntriesParams): (c: Call<Json.Json>) {
    Call(Get, CostEntriesEndpoint, None, RequestOptions(Some(CostEntriesQuery(p)), None))
  }

  /** On the wire, `getCostEntries` is a `GET` with no body and only the JSON content type, whose
      query string reads back to the filters the service copied. */
  lemma GetCostEntriesSends(p: GetCostEntriesParams, base: string, encode: Encoder<Json.Json>,
      stringify: Json.Json -> string, escape: string -> string)
    ensures var out := Wire(base, GetCostEntries(p), encode, stringify, escape);
      && out == Some(Outgoing("GET", base + CostEntriesEndpoint + "?" + Query.Encode(escape, CostEntriesQuery(p)), JsonHeaders, None))
      && (Query.SafeEscape(escape) ==>
            Query.Decode(out.value.url[|base + CostEntriesEndpoint| + 1..]) == Query.EscapeAll(escape, CostEntriesQuery(p)))
  {
    GetSendsQuery(base, CostEntriesEndpoint, CostEntriesQuery(p), None, encode, stringify, escape);
  }
}

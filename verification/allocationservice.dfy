/** The allocation service: the list query and the endpoint of a new allocation. */
module AllocationService {
  import opened Base
  import opened Api
  import Query

  const AllocationsEndpoint := "/allocations"

  datatype CreateAllocationPayload = CreateAllocationPayload(saleId: string, costId: string, allocatedAmount: int)

  /** `createAllocation`: a `POST` of the payload as given. */
  function CreateAllocation(payload: CreateAllocationPayload): (c: Call<CreateAllocationPayload>) {
    Call(Post, AllocationsEndpoint, Some(payload), NoOptions)
  }

  /** On the wire, a new allocation is one `POST` of `/allocations` with no query and only the JSON content
      type, whose body is always sent and parses back to the payload as given. */
  lemma CreateAllocationSends(payload: CreateAllocationPayload, base: string, encode: Encoder<CreateAllocationPayload>,
      stringify: Json.Json -> string, parse: string -> Json.Json, escape: string -> string)
    ensures var out := Wire(base, CreateAllocation(payload), encode, stringify, escape);
      && out == Some(Outgoing("POST", base + AllocationsEndpoint, JsonHeaders, Some(stringify(Json.JObj(encode(payload))))))
      && (JsonRoundTrip(stringify, parse) ==> parse(out.value.body.value) == Json.JObj(encode(payload)))
  {
    PostSendsPayload(base, AllocationsEndpoint, payload, None, encode, stringify, parse, escape);
  }

  datatype GetAllocationsParams = GetAllocationsParams(
    saleId: Option<string>,
    costId: Option<string>,
    page: Option<int>,
    perPage: Option<int>)

  const NoAllocationFilters := GetAllocationsParams(None, None, None, None)

  function AllocationFields(p: GetAllocationsParams): seq<(string, Query.Field)> {
    [("sale_id", Query.Str(p.saleId)),
     ("cost_id", Query.Str(p.costId)),
     ("page", Query.Num(p.page)),
     ("per_page", Query.Num(p.perPage))]
  }

  const AllocationKeys: set<string> := {"sale_id", "cost_id", "page", "per_page"}

  /** The allocation query: the ids verbatim when non-empty, the page numbers as decimal
      text when non-zero, and no other key. */
  function AllocationsQuery(p: GetAllocationsParams): (q: Query.Query)
    ensures Query.Copied(q, "sale_id", Query.Str(p.saleId))
    ensures Query.Copied(q, "cost_id", Query.Str(p.costId))
    ensures Query.Copied(q, "page", Query.Num(p.page))
    ensures Query.Copied(q, "per_page", Query.Num(p.perPage))
    ensures Query.KeysWithin(q, AllocationKeys)
  {
    var fields := AllocationFields(p);
    Query.BuildSpec(fields, AllocationKeys);
    assert fields[0].0 == "sale_id" && fields[1].0 == "cost_id";
    assert fields[2].0 == "page" && fields[3].0 == "per_page";
    Query.Build(fields)
  }

  /** `getAllocations`. */
  function GetAllocations(p: GetAllocationsParams): (c: Call<Json.Json>) {
    Call(Get, AllocationsEndpoint, None, RequestOptions(Some(AllocationsQuery(p)), None))
  }

  /** Empty input builds an empty query, and so does input whose every field is falsy
      (empty ids, zero page numbers). */
  lemma FalsyInputEmptyQuery(p: GetAllocationsParams)
    requires p.saleId.None? || p.saleId == Some("")
    requires p.costId.None? || p.costId == Some("")
    requires p.page.None? || p.page == Some(0)
    requires p.perPage.None? || p.perPage == Some(0)
    ensures AllocationsQuery(p) == []
  {
    Query.BuildAllFalsy(AllocationFields(p));
  }

  /** On the wire, `getAllocations` is a `GET` with no body and only the JSON content type, whose
      query string reads back to the filters the service copied. */
  lemma GetAllocationsSends(p: GetAllocationsParams, base: string, encode: Encoder<Json.Json>,
      stringify: Json.Json -> string, escape: string -> string)
    ensures var out := Wire(base, GetAllocations(p), encode, stringify, escape);
      && out == Some(Outgoing("GET", base + AllocationsEndpoint + "?" + Query.Encode(escape, AllocationsQuery(p)), JsonHeaders, None))
      && (Query.SafeEscape(escape) ==>
            Query.Decode(out.value.url[|base + AllocationsEndpoint| + 1..]) == Query.EscapeAll(escape, AllocationsQuery(p)))
  {
    GetSendsQuery(base, AllocationsEndpoint, AllocationsQuery(p), None, encode, stringify, escape);
  }
}

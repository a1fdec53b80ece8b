/** The partner service: the query builders of the partner list, the leaderboard and the
    partner ledger, and the idempotency header of a new contribution. */
module PartnerService {
  import opened Base
  import opened Api
  import Query

  /** A partner as the list returns it (amounts as integers). */
  datatype Partner = Partner(id: string, name: string, avatarUrl: string, totalContributed: int, lastContributionAt: string)

  /** One row of the leaderboard. */
  datatype LeaderboardEntry = LeaderboardEntry(
    partnerId: string,
    name: string,
    avatarUrl: string,
    totalContributed: int,
    rank: int,
    topContributor: bool,
    lastContributionAt: string)

  /** The leaderboard response: the rows and the time they were computed. */
  datatype LeaderboardResponse = LeaderboardResponse(data: seq<LeaderboardEntry>, asOf: string)

  const PartnersEndpoint := "/partners"
  const LeaderboardEndpoint := "/partners/leaderboard"
  const IdempotencyHeader := "Idempotency-Key"

  // ---- getPartners / getPartnersWithTransactions ----

  /** `GetPartnersParams`; `sort_by` is one of three names, which only the type checker
      enforces. */
  datatype GetPartnersParams = GetPartnersParams(
    sortBy: Option<string>,
    limit: Option<int>,
    offset: Option<int>,
    page: Option<int>,
    perPage: Option<int>,
    includeTransactions: Option<bool>)

  function PartnersFields(p: GetPartnersParams): seq<(string, Query.Field)> {
    [("sort_by", Query.Str(p.sortBy)),
     ("limit", Query.Num(p.limit)),
     ("offset", Query.Num(p.offset)),
     ("page", Query.Num(p.page)),
     ("per_page", Query.Num(p.perPage)),
     ("include_transactions", Query.Bool(p.includeTransactions))]
  }

  const PartnersKeys: set<string> := {"sort_by", "limit", "offset", "page", "per_page", "include_transactions"}

  /** The partner-list query: each field only when truthy (so a zero is omitted), numbers
      as decimal text, the flag as `'true'` only when set, and no other key. */
  function PartnersQuery(p: GetPartnersParams): (q: Query.Query)
    ensures Query.Copied(q, "sort_by", Query.Str(p.sortBy))
    ensures Query.Copied(q, "limit", Query.Num(p.limit))
    ensures Query.Copied(q, "offset", Query.Num(p.offset))
    ensures Query.Copied(q, "page", Query.Num(p.page))
    ensures Query.Copied(q, "per_page", Query.Num(p.perPage))
    ensures Query.Lookup(q, "include_transactions") ==
      (if p.includeTransactions == Some(true) then Some("true") else None)
    ensures Query.KeysWithin(q, PartnersKeys)
  {
    var fields := PartnersFields(p);
    Query.BuildSpec(fields, PartnersKeys);
    assert fields[0].0 == "sort_by" && fields[1].0 == "limit" && fields[2].0 == "offset";
    assert fields[3].0 == "page" && fields[4].0 == "per_page" && fields[5].0 == "include_transactions";
    Query.Build(fields)
  }

  /** `getPartners`. */
  function GetPartners(p: GetPartnersParams): (c: Call<Json.Json>) {
    Call(Get, PartnersEndpoint, None, RequestOptions(Some(PartnersQuery(p)), None))
  }

  /** On the wire, `getPartners` is a `GET` of the partner list with no body and only the
      JSON content type, whose query string reads back to the filters the service copied. */
  lemma GetPartnersSends(p: GetPartnersParams, base: string, encode: Encoder<Json.Json>,
                         stringify: Json.Json -> string, escape: string -> string)
    ensures var out := Wire(base, GetPartners(p), encode, stringify, escape);
      && out == Some(Outgoing("GET", base + PartnersEndpoint + "?" + Query.Encode(escape, PartnersQuery(p)), JsonHeaders, None))
      && (Query.SafeEscape(escape) ==>
            Query.Decode(out.value.url[|base + PartnersEndpoint| + 1..]) == Query.EscapeAll(escape, PartnersQuery(p)))
  {
    GetSendsQuery(base, PartnersEndpoint, PartnersQuery(p), None, encode, stringify, escape);
  }

  /** `getPartnersWithTransactions`: the same filters, with the transactions flag always
      sent (the parameter type has no flag, so whatever the record holds is ignored). */
  function GetPartnersWithTransactions(p: GetPartnersParams): (c: Call<Json.Json>)
    ensures c.verb == Get && c.endpoint == PartnersEndpoint && c.payload.None? && c.options.headers.None?
    ensures c.options.params.Some?
    ensures Query.Lookup(c.options.params.value, "include_transactions") == Some("true")
  {
    GetPartners(p.(includeTransactions := Some(true)))
  }

  /** The flag the caller sets makes no difference, and the other filters are those of
      `getPartners`. */
  lemma WithTransactionsIgnoresFlag(p: GetPartnersParams, flag: Option<bool>)
    ensures GetPartnersWithTransactions(p.(includeTransactions := flag)) == GetPartnersWithTransactions(p)
    ensures var q := GetPartnersWithTransactions(p).options.params.value;
      && Query.Copied(q, "sort_by", Query.Str(p.sortBy))
      && Query.Copied(q, "limit", Query.Num(p.limit))
      && Query.Copied(q, "offset", Query.Num(p.offset))
      && Query.Copied(q, "page", Query.Num(p.page))
      && Query.Copied(q, "per_page", Query.Num(p.perPage))
  {
  }

  // ---- getLeaderboard ----

  datatype GetLeaderboardParams = GetLeaderboardParams(limit: Option<int>, includeRecentTransactions: Option<bool>)

  const NoLeaderboardParams := GetLeaderboardParams(None, None)

  function LeaderboardFields(p: GetLeaderboardParams): seq<(string, Query.Field)> {
    [("limit", Query.Num(p.limit)),
     ("include_recent_transactions", Query.Bool(p.includeRecentTransactions))]
  }

  /** The leaderboard query: only the limit and the recent-transactions flag. */
  function LeaderboardQuery(p: GetLeaderboardParams): (q: Query.Query)
    ensures Query.Copied(q, "limit", Query.Num(p.limit))
    ensures Query.Lookup(q, "include_recent_transactions") ==
      (if p.includeRecentTransactions == Some(true) then Some("true") else None)
    ensures Query.KeysWithin(q, {"limit", "include_recent_transactions"})
  {
    var fields := LeaderboardFields(p);
    Query.BuildSpec(fields, {"limit", "include_recent_transactions"});
    assert fields[0].0 == "limit" && fields[1].0 == "include_recent_transactions";
    Query.Build(fields)
  }

  /** `getLeaderboard`. */
  function GetLeaderboard(p: GetLeaderboardParams): (c: Call<Json.Json>) {
    Call(Get, LeaderboardEndpoint, None, RequestOptions(Some(LeaderboardQuery(p)), None))
  }

  /** On the wire, `getLeaderboard` is a `GET` of the leaderboard with no body and only the
      JSON content type, whose query string reads back to the limit and flag it copied. */
  lemma GetLeaderboardSends(p: GetLeaderboardParams, base: string, encode: Encoder<Json.Json>,
                            stringify: Json.Json -> string, escape: string -> string)
    ensures var out := Wire(base, GetLeaderboard(p), encode, stringify, escape);
      && out == Some(Outgoing("GET", base + LeaderboardEndpoint + "?" + Query.Encode(escape, LeaderboardQuery(p)), JsonHeaders, None))
      && (Query.SafeEscape(escape) ==>
            Query.Decode(out.value.url[|base + LeaderboardEndpoint| + 1..]) == Query.EscapeAll(escape, LeaderboardQuery(p)))
  {
    GetSendsQuery(base, LeaderboardEndpoint, LeaderboardQuery(p), None, encode, stringify, escape);
  }

  /** Called without parameters, the leaderboard still passes an (empty) params object, so
      its URL ends in a bare `?`. */
  lemma LeaderboardDefaultUrl(base: string, escape: string -> string)
    ensures var c := GetLeaderboard(NoLeaderboardParams);
      Url(base, c.endpoint, c.options.params, escape) == base + LeaderboardEndpoint + "?"
  {
    Query.BuildAllFalsy(LeaderboardFields(NoLeaderboardParams));
  }

  // ---- getPartnerDetail ----

  datatype GetPartnerDetailParams = GetPartnerDetailParams(
    from: Option<string>,
    to: Option<string>,
    category: Option<string>,
    page: Option<int>,
    perPage: Option<int>,
    search: Option<string>)

  function PartnerDetailFields(p: GetPartnerDetailParams): seq<(string, Query.Field)> {
    [("from", Query.Str(p.from)),
     ("to", Query.Str(p.to)),
     ("category", Query.Str(p.category)),
     ("page", Query.Num(p.page)),
     ("per_page", Query.Num(p.perPage)),
     ("search", Query.Str(p.search))]
  }

  const PartnerDetailKeys: set<string> := {"from", "to", "category", "page", "per_page", "search"}

  /** The ledger query: texts verbatim and numbers as decimal text, each only when truthy. */
  function PartnerDetailQuery(p: GetPartnerDetailParams): (q: Query.Query)
    ensures Query.Copied(q, "from", Query.Str(p.from))
    ensures Query.Copied(q, "to", Query.Str(p.to))
    ensures Query.Copied(q, "category", Query.Str(p.category))
    ensures Query.Copied(q, "page", Query.Num(p.page))
    ensures Query.Copied(q, "per_page", Query.Num(p.perPage))
    ensures Query.Copied(q, "search", Query.Str(p.search))
    ensures Query.KeysWithin(q, PartnerDetailKeys)
  {
    var fields := PartnerDetailFields(p);
    Query.BuildSpec(fields, PartnerDetailKeys);
    assert fields[0].0 == "from" && fields[1].0 == "to" && fields[2].0 == "category";
    assert fields[3].0 == "page" && fields[4].0 == "per_page" && fields[5].0 == "search";
    Query.Build(fields)
  }

  /** `/partners/${partnerId}`. */
  function PartnerPath(id: string): string {
    PartnersEndpoint + "/" + id
  }

  /** `getPartnerDetail`. */
  function GetPartnerDetail(id: string, p: GetPartnerDetailParams): (c: Call<Json.Json>) {
    Call(Get, PartnerPath(id), None, RequestOptions(Some(PartnerDetailQuery(p)), None))
  }

  /** On the wire, `getPartnerDetail` is a `GET` of `/partners/<id>` with no body and only
      the JSON content type, whose query string reads back to the ledger filters. */
  lemma GetPartnerDetailSends(id: string, p: GetPartnerDetailParams, base: string, encode: Encoder<Json.Json>,
                              stringify: Json.Json -> string, escape: string -> string)
    ensures var out := Wire(base, GetPartnerDetail(id, p), encode, stringify, escape);
      && out == Some(Outgoing("GET", base + PartnerPath(id) + "?" + Query.Encode(escape, PartnerDetailQuery(p)), JsonHeaders, None))
      && (Query.SafeEscape(escape) ==>
            Query.Decode(out.value.url[|base + PartnerPath(id)| + 1..]) == Query.EscapeAll(escape, PartnerDetailQuery(p)))
  {
    GetSendsQuery(base, PartnerPath(id), PartnerDetailQuery(p), None, encode, stringify, escape);
  }

  /** The ledger URL names the partner: it is the partner list's path, a `/`, then the id,
      so different partners never share one. */
  lemma PartnerPathNamesPartner(a: string, b: string)
    ensures PartnerPath(a)[..|PartnersEndpoint| + 1] == PartnersEndpoint + "/"
    ensures PartnerPath(a)[|PartnersEndpoint| + 1..] == a
    ensures PartnerPath(a) == PartnerPath(b) ==> a == b
  {
    var n := |PartnersEndpoint| + 1;
    assert PartnerPath(a)[n..] == a && PartnerPath(b)[n..] == b;
  }

  // ---- createContribution ----

  datatype CreateContributionPayload = CreateContributionPayload(
    recordedFor: string,
    amount: int,
    currency: Option<string>,
    category: Option<string>,
    context: Option<string>,
    date: Option<string>,
    receiptId: Option<string>)

  /** The headers `createContribution` passes: the idempotency key when one is given and
      non-empty, and nothing otherwise. */
  function ContributionHeaders(idempotencyKey: Option<string>): (h: Headers)
    ensures IdempotencyHeader in h <==> idempotencyKey.Some? && idempotencyKey.value != ""
    ensures IdempotencyHeader in h ==> h[IdempotencyHeader] == idempotencyKey.value
    ensures h.Keys <= {IdempotencyHeader}
  {
    if idempotencyKey.Some? && idempotencyKey.value != "" then map[IdempotencyHeader := idempotencyKey.value]
    else map[]
  }

  /** `createContribution`: a `POST` of the payload as given to the partner list. */
  function CreateContribution(payload: CreateContributionPayload, idempotencyKey: Option<string>): (c: Call<CreateContributionPayload>) {
    Call(Post, PartnersEndpoint, Some(payload), RequestOptions(None, Some(ContributionHeaders(idempotencyKey))))
  }

  /** On the wire, a contribution is JSON with the key attached exactly when one was given
      and non-empty; with none it carries only the content type. */
  lemma ContributionWireHeaders(payload: CreateContributionPayload, idempotencyKey: Option<string>)
    ensures var h := MergeHeaders(CreateContribution(payload, idempotencyKey).options.headers);
      && h[ContentTypeHeader] == JsonMediaType
      && (IdempotencyHeader in h <==> idempotencyKey.Some? && idempotencyKey.value != "")
      && (IdempotencyHeader in h ==> h[IdempotencyHeader] == idempotencyKey.value)
      && h.Keys <= {ContentTypeHeader, IdempotencyHeader}
  {
  }

  /** On the wire, a contribution is a `POST` of `/partners` with no query whose body is
      always sent and parses back to the payload, under the headers above. */
  lemma CreateContributionSends(payload: CreateContributionPayload, idempotencyKey: Option<string>, base: string,
                                encode: Encoder<CreateContributionPayload>, stringify: Json.Json -> string,
                                parse: string -> Json.Json, escape: string -> string)
    ensures var out := Wire(base, CreateContribution(payload, idempotencyKey), encode, stringify, escape);
      && out.Some? && out.value.verb == "POST" && out.value.url == base + "/partners"
      && out.value.headers == MergeHeaders(CreateContribution(payload, idempotencyKey).options.headers)
      && out.value.body == Some(stringify(Json.JObj(encode(payload))))
      && (JsonRoundTrip(stringify, parse) ==> parse(out.value.body.value) == Json.JObj(encode(payload)))
  {
    PostSendsPayload(base, PartnersEndpoint, payload, Some(ContributionHeaders(idempotencyKey)), encode, stringify, parse, escape);
  }
}

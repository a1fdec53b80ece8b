/** The authentication service: how a rejected request is classified for the screens, and
    which credential-store writes each account call performs, in which order. The server's
    reply is an input (`Result<…, ApiError>`, what the `api` promise settled to); the
    store is a `Storage.Store` with its injected faults. */
module Auth {
  import opened Base
  import opened Json
  import opened Api
  import Query
  import Storage

  // ---- error taxonomy ----

  datatype ValidationError = ValidationError(field: string, message: string)

  /** An `errors` array entry `parseValidationErrors` keeps: a non-null object with both a
      `field` and a `message` property. */
  predicate IsFieldError(j: Json) {
    j.JObj? && "field" in j.fields && "message" in j.fields
  }

  /** The kept entry, both properties passed through `String`. */
  function ToValidationError(j: Json): ValidationError
    requires IsFieldError(j)
  {
    ValidationError(AsString(j.fields["field"]), AsString(j.fields["message"]))
  }

  /** The loop of `parseValidationErrors`: well-formed entries, in order, converted. */
  function KeepFieldErrors(items: seq<Json>): (r: seq<ValidationError>)
    ensures |r| <= |items|
    ensures (forall i :: 0 <= i < |items| ==> !IsFieldError(items[i])) ==> r == []
    ensures (forall i :: 0 <= i < |items| ==> IsFieldError(items[i])) ==>
      |r| == |items| && forall i :: 0 <= i < |items| ==> r[i] == ToValidationError(items[i])
  {
    if items == [] then []
    else
      var head := if IsFieldError(items[0]) then [ToValidationError(items[0])] else [];
      head + KeepFieldErrors(items[1..])
  }

  /** Filtering distributes over concatenation: each entry is judged on its own, and the
      kept entries stay in their original order. Together with the one-entry case this
      determines `KeepFieldErrors` completely. */
  lemma {:induction false} KeepFieldErrorsAppend(a: seq<Json>, b: seq<Json>)
    ensures KeepFieldErrors(a + b) == KeepFieldErrors(a) + KeepFieldErrors(b)
  {
    if a != [] {
      assert (a + b)[0] == a[0];
      assert (a + b)[1..] == a[1..] + b;
      KeepFieldErrorsAppend(a[1..], b);
      var head := if IsFieldError(a[0]) then [ToValidationError(a[0])] else [];
      assert KeepFieldErrors(a + b) == head + KeepFieldErrors(a[1..] + b);
      assert KeepFieldErrors(a) == head + KeepFieldErrors(a[1..]);
    } else {
      assert a + b == b;
    }
  }

  lemma KeepFieldErrorsSingle(j: Json)
    ensures KeepFieldErrors([j]) == if IsFieldError(j) then [ToValidationError(j)] else []
  {
  }

  /** The body is JSON with an `errors` property that is an array. */
  predicate ErrorsArray(data: Option<Body>) {
    data.Some? && data.value.Parsed? && Has(data.value.json, "errors") && data.value.json.fields["errors"].JArr?
  }

  /** `parseValidationErrors(error.data || {})`: entries are read only from an `errors`
      property that is an array; a missing body (or a falsy one, which becomes `{}`), a text
      body and a non-array `errors` all give `[]`. */
  function ParseValidationErrors(data: Option<Body>): (r: seq<ValidationError>)
    ensures r != [] ==> ErrorsArray(data)
    ensures ErrorsArray(data) ==> r == KeepFieldErrors(data.value.json.fields["errors"].items)
  {
    if data.None? then []
    else match BodyProperty(data.value, "errors")
      case Some(JArr(items)) => KeepFieldErrors(items)
      case _ => []
  }

  /** What `handleAuthError` returns. */
  datatype AuthErrorInfo = AuthErrorInfo(
    message: string,
    isDuplicateEmail: bool,
    isRateLimited: bool,
    isTimeout: bool,
    fieldErrors: seq<ValidationError>)

  const UnexpectedErrorMessage := "An unexpected error occurred"

  /** `handleAuthError`: total over everything a call can throw. Only an `ApiError` is
      classified; any other value, even an `Error` that happens to carry a `status`, gets
      every flag cleared. */
  function HandleAuthError(t: Thrown): (info: AuthErrorInfo)
    ensures info.isDuplicateEmail <==> t.Raised? && t.apiError.status == 409
    ensures info.isRateLimited <==> t.Raised? && t.apiError.status == 429
    ensures info.isTimeout <==> t.Raised? && t.apiError.isTimeout == Some(true)
    ensures info.fieldErrors != [] ==> t.Raised? && t.apiError.status == 400
    ensures t.Raised? && t.apiError.status == 400 ==>
      info.fieldErrors == ParseValidationErrors(t.apiError.data)
    ensures t.Raised? ==> info.message == t.apiError.message
    ensures t.Faulted? ==> info.fieldErrors == []
    ensures t.Faulted? ==>
      info.message == if t.fault.ErrorValue? then t.fault.message else UnexpectedErrorMessage
  {
    match t
    case Raised(e) =>
      AuthErrorInfo(
        e.message,
        e.status == 409,
        e.status == 429,
        e.isTimeout == Some(true),
        if e.status == 400 then ParseValidationErrors(e.data) else [])
    case Faulted(f) =>
      AuthErrorInfo(if f.ErrorValue? then f.message else UnexpectedErrorMessage, false, false, false, [])
  }

  /** Every timeout `request` produces is reported as a timeout, with its message. */
  lemma TimeoutClassified(o: FetchOutcome)
    requires Aborted(o)
    ensures var info := HandleAuthError(Raised(Request(o).error));
      info.isTimeout && info.message == TimeoutMessage && !info.isDuplicateEmail && !info.isRateLimited
  {
  }

  // ---- account calls ----

  datatype RegisterPayload = RegisterPayload(
    name: string, email: string, password: string, phone: Option<string>, company: Option<string>)

  datatype LoginPayload = LoginPayload(email: string, password: string, deviceName: Option<string>)

  /** The `data` of a register or login response: the profile and the token pair. */
  datatype AuthReply = AuthReply(user: Storage.UserData, tokens: Storage.Tokens)

  /** A call's effect: the store afterwards and how its promise settled. */
  datatype Settled<T> = Settled(store: Storage.Store, outcome: Result<T, Thrown>)

  /** A service call: the request it issues, and its effect. */
  datatype Exchange<P, T> = Exchange(call: Call<P>, effect: Settled<T>)

  /** The body of `createUser` and `loginUser` after the request: tokens are written first,
      the profile only once the tokens are stored, and `data` is returned. A rejected
      request writes nothing; a failed write rejects the call with the store's error. */
  function PersistSession(reply: Result<AuthReply, ApiError>, s: Storage.Store,
                          encode: Storage.UserData -> string, faults: Storage.WriteFaults): (x: Settled<AuthReply>)
    ensures reply.Failure? ==> x == Settled(s, Failure(Raised(reply.error)))
    ensures x.outcome.Success? <==>
      reply.Success? && Storage.AccessTokenKey !in faults && Storage.RefreshTokenKey !in faults && Storage.UserKey !in faults
    ensures x.outcome.Success? ==> x.outcome.value == reply.value
    // the profile is not touched unless both token writes landed
    ensures reply.Success? && (Storage.AccessTokenKey in faults || Storage.RefreshTokenKey in faults) ==>
      Storage.Kept(s, x.store, Storage.UserKey) && x.outcome.Failure? && x.outcome.error.Faulted?
    ensures forall k :: k !in Storage.OwnKeys ==> Storage.Kept(s, x.store, k)
  {
    if reply.Failure? then Settled(s, Failure(Raised(reply.error)))
    else
      var w := Storage.SetTokens(s, reply.value.tokens, faults);
      if w.failure.Some? then Settled(w.store, Failure(Faulted(w.failure.value)))
      else
        var v := Storage.SetUser(w.store, reply.value.user, encode, faults);
        if v.failure.Some? then Settled(v.store, Failure(Faulted(v.failure.value)))
        else Settled(v.store, Success(reply.value))
  }

  /** A successful sign-in leaves exactly the returned session readable from the store. */
  lemma PersistSessionReadsBack(reply: Result<AuthReply, ApiError>, s: Storage.Store,
                                encode: Storage.UserData -> string, decode: string -> Option<Storage.UserData>,
                                faults: Storage.WriteFaults)
    requires Storage.Codec(encode, decode)
    requires PersistSession(reply, s, encode, faults).outcome.Success?
    requires reply.value.tokens.accessToken != "" && reply.value.tokens.refreshToken != ""
    ensures var st := PersistSession(reply, s, encode, faults).store;
      Storage.GetTokens(st, {}) == Some(reply.value.tokens) && Storage.GetUser(st, {}, decode) == Some(reply.value.user)
  {
    var w := Storage.SetTokens(s, reply.value.tokens, faults);
    Storage.SetTokensGetTokens(s, reply.value.tokens, faults, {});
    Storage.SetUserGetUser(w.store, reply.value.user, encode, decode, faults, {});
    Storage.SetUserKeepsTokens(w.store, reply.value.user, encode, faults, {});
  }

  const RegisterEndpoint := "/auth/register"
  const LoginEndpoint := "/auth/login"
  const RefreshEndpoint := "/auth/refresh"
  const LogoutEndpoint := "/auth/logout"
  const ProfileEndpoint := "/users/me"

  /** `createUser`: the payload is posted as is, then the session is persisted. */
  function CreateUser(payload: RegisterPayload, reply: Result<AuthReply, ApiError>, s: Storage.Store,
                      encode: Storage.UserData -> string, faults: Storage.WriteFaults): (x: Exchange<RegisterPayload, AuthReply>)
    ensures x.call.verb == Post && x.call.endpoint == RegisterEndpoint
    ensures x.call.payload == Some(payload) && x.call.options == NoOptions
    ensures x.effect == PersistSession(reply, s, encode, faults)
  {
    Exchange(Call(Post, RegisterEndpoint, Some(payload), NoOptions), PersistSession(reply, s, encode, faults))
  }

  /** `loginUser`: the same as `createUser`, against the login endpoint. */
  function LoginUser(payload: LoginPayload, reply: Result<AuthReply, ApiError>, s: Storage.Store,
                     encode: Storage.UserData -> string, faults: Storage.WriteFaults): (x: Exchange<LoginPayload, AuthReply>)
    ensures x.call.verb == Post && x.call.endpoint == LoginEndpoint
    ensures x.call.payload == Some(payload) && x.call.options == NoOptions
    ensures x.effect == PersistSession(reply, s, encode, faults)
  {
    Exchange(Call(Post, LoginEndpoint, Some(payload), NoOptions), PersistSession(reply, s, encode, faults))
  }

  /** `{ refresh_token: token }`. */
  function RefreshBody(token: string): Json {
    JObj(map["refresh_token" := JStr(token)])
  }

  /** The `data` of a refresh response. */
  datatype RefreshReply = RefreshReply(accessToken: string, refreshToken: string, expiresIn: int)

  /** `refreshToken`: posts the refresh token and stores exactly the pair the server
      returned, touching nothing but the two token keys. */
  function RefreshToken(token: string, reply: Result<RefreshReply, ApiError>, s: Storage.Store,
                        faults: Storage.WriteFaults): (x: Exchange<Json, RefreshReply>)
    ensures x.call == Call(Post, RefreshEndpoint, Some(RefreshBody(token)), NoOptions)
    ensures reply.Failure? ==> x.effect == Settled(s, Failure(Raised(reply.error)))
    ensures reply.Success? ==>
      var w := Storage.SetTokens(s, Storage.Tokens(reply.value.accessToken, reply.value.refreshToken), faults);
      x.effect.store == w.store &&
      x.effect.outcome == if w.failure.Some? then Failure(Faulted(w.failure.value)) else Success(reply.value)
  {
    var call := Call(Post, RefreshEndpoint, Some(RefreshBody(token)), NoOptions);
    if reply.Failure? then Exchange(call, Settled(s, Failure(Raised(reply.error))))
    else
      var w := Storage.SetTokens(s, Storage.Tokens(reply.value.accessToken, reply.value.refreshToken), faults);
      Exchange(call, Settled(w.store, if w.failure.Some? then Failure(Faulted(w.failure.value)) else Success(reply.value)))
  }

  /** After a successful refresh the store yields the new pair and the cached profile is
      what it was. */
  lemma RefreshTokenReadsBack(token: string, reply: RefreshReply, s: Storage.Store,
                              faults: Storage.WriteFaults, decode: string -> Option<Storage.UserData>)
    requires RefreshToken(token, Success(reply), s, faults).effect.outcome.Success?
    requires reply.accessToken != "" && reply.refreshToken != ""
    ensures var st := RefreshToken(token, Success(reply), s, faults).effect.store;
      Storage.GetTokens(st, {}) == Some(Storage.Tokens(reply.accessToken, reply.refreshToken))
      && Storage.GetUser(st, {}, decode) == Storage.GetUser(s, {}, decode)
  {
    var t := Storage.Tokens(reply.accessToken, reply.refreshToken);
    Storage.SetTokensGetTokens(s, t, faults, {});
    Storage.SetTokensKeepsUser(s, t, decode, faults, {});
  }

  /** `logoutUser`: the server is told first, with `all=true` only for a global sign-out,
      and the store is cleared only after it answers; a rejected call clears nothing. */
  function LogoutUser(token: string, revokeAll: bool, reply: Result<Body, ApiError>, s: Storage.Store,
                      failingDeletes: set<string>): (x: Exchange<Json, ()>)
    ensures x.call.verb == Post && x.call.endpoint == LogoutEndpoint
    ensures x.call.payload == Some(RefreshBody(token)) && x.call.options.headers.None?
    ensures x.call.options.params.Some? <==> revokeAll
    ensures revokeAll ==> x.call.options.params == Some([Query.Param("all", "true")])
    ensures reply.Failure? ==> x.effect == Settled(s, Failure(Raised(reply.error)))
    ensures reply.Success? ==> x.effect == Settled(Storage.ClearAll(s, failingDeletes), Success(()))
  {
    var params := if revokeAll then Some([Query.Param("all", "true")]) else None;
    var call := Call(Post, LogoutEndpoint, Some(RefreshBody(token)), RequestOptions(params, None));
    if reply.Failure? then Exchange(call, Settled(s, Failure(Raised(reply.error))))
    else Exchange(call, Settled(Storage.ClearAll(s, failingDeletes), Success(())))
  }

  /** A sign-out the server accepts leaves no session behind in the store; one it
      rejects leaves the session exactly as it was. */
  lemma LogoutUserEndsSession(token: string, revokeAll: bool, reply: Result<Body, ApiError>,
                              s: Storage.Store, decode: string -> Option<Storage.UserData>)
    ensures reply.Success? ==>
      var st := LogoutUser(token, revokeAll, reply, s, {}).effect.store;
      Storage.GetTokens(st, {}).None? && Storage.GetUser(st, {}, decode).None?
    ensures reply.Failure? ==> LogoutUser(token, revokeAll, reply, s, {}).effect.store == s
  {
    Storage.ClearAllLogsOut(s, {}, decode);
  }

  // ---- profile ----

  datatype Avatar = Avatar(uri: string, name: string, mimeType: string)

  datatype UpdateUserPayload = UpdateUserPayload(
    name: Option<string>, phone: Option<string>, company: Option<string>, avatar: Option<Avatar>)

  const DefaultAvatarName := "avatar.jpg"
  const DefaultAvatarType := "image/jpeg"

  /** `name || uri.split('/').pop() || 'avatar.jpg'`. */
  function AvatarFileName(uri: string, name: string): (r: string)
    ensures r != ""
    ensures name != "" ==> r == name
    // without a name, and when the URI does not end in `/`: its whole last segment
    ensures name == "" && uri != [] && uri[|uri| - 1] != '/' ==>
      && '/' !in r && |r| <= |uri| && r == uri[|uri| - |r|..]
      && (|r| < |uri| ==> uri[|uri| - |r| - 1] == '/')
    ensures name == "" && uri != [] && uri[|uri| - 1] != '/' ==> r == Split(uri, '/')[|Split(uri, '/')| - 1]
    // an empty URI, or one ending in `/`, leaves an empty last segment
    ensures name == "" && (uri == [] || uri[|uri| - 1] == '/') ==> r == DefaultAvatarName
  {
    AfterLastIsLastPart(uri, '/');
    if name != "" then name
    else
      var last := AfterLast(uri, '/');
      if last != "" then last else DefaultAvatarName
  }

  /** `if (x) formData.append(name, x)`. */
  function AppendIfSet(form: Form, name: string, value: Option<string>): Form {
    if value.Some? && value.value != "" then form + [FormField(name, value.value)] else form
  }

  lemma FindAfterAppendIfSet(form: Form, name: string, value: Option<string>, n: string)
    ensures FindPart(AppendIfSet(form, name, value), n) ==
      if FindPart(form, n).Some? then FindPart(form, n) else if n == name then SetField(name, value) else None
  {
    if value.Some? && value.value != "" {
      FindPartAppend(form, FormField(name, value.value), n);
    }
  }

  /** The file part for an avatar: file name as above, type defaulting to JPEG. */
  function AvatarPart(a: Avatar): FormPart {
    FormFile("avatar", FileRef(a.uri, AvatarFileName(a.uri, a.name),
                               if a.mimeType != "" then a.mimeType else DefaultAvatarType))
  }

  /** The part a truthy optional text field contributes, if any. */
  function SetField(name: string, value: Option<string>): Option<FormPart> {
    if value.Some? && value.value != "" then Some(FormField(name, value.value)) else None
  }

  /** `if (payload.avatar) formData.append('avatar', …)`. */
  function AppendAvatar(form: Form, avatar: Option<Avatar>): Form {
    if avatar.Some? then form + [AvatarPart(avatar.value)] else form
  }

  lemma FindAfterAppendAvatar(form: Form, avatar: Option<Avatar>, n: string)
    ensures FindPart(AppendAvatar(form, avatar), n) ==
      if FindPart(form, n).Some? then FindPart(form, n)
      else if n == "avatar" && avatar.Some? then Some(AvatarPart(avatar.value)) else None
  {
    if avatar.Some? {
      FindPartAppend(form, AvatarPart(avatar.value), n);
    }
  }

  /** The multipart body of `updateCurrentUser`: the three text fields in order, then the
      avatar. */
  function ProfileForm(p: UpdateUserPayload): Form {
    AppendAvatar(AppendIfSet(AppendIfSet(AppendIfSet([], "name", p.name), "phone", p.phone), "company", p.company), p.avatar)
  }

  /** Each text field reaches the form exactly when it is truthy, and the avatar part
      exactly when an avatar is given, with its derived file name and type. */
  lemma ProfileFormFields(p: UpdateUserPayload)
    ensures FindPart(ProfileForm(p), "name") == SetField("name", p.name)
    ensures FindPart(ProfileForm(p), "phone") == SetField("phone", p.phone)
    ensures FindPart(ProfileForm(p), "company") == SetField("company", p.company)
    ensures FindPart(ProfileForm(p), "avatar") == if p.avatar.Some? then Some(AvatarPart(p.avatar.value)) else None
  {
    var f1 := AppendIfSet([], "name", p.name);
    var f2 := AppendIfSet(f1, "phone", p.phone);
    var f3 := AppendIfSet(f2, "company", p.company);
    FindAfterAppendIfSet([], "name", p.name, "name");
    FindAfterAppendIfSet([], "name", p.name, "phone");
    FindAfterAppendIfSet([], "name", p.name, "company");
    FindAfterAppendIfSet([], "name", p.name, "avatar");
    FindAfterAppendIfSet(f1, "phone", p.phone, "name");
    FindAfterAppendIfSet(f1, "phone", p.phone, "phone");
    FindAfterAppendIfSet(f1, "phone", p.phone, "company");
    FindAfterAppendIfSet(f1, "phone", p.phone, "avatar");
    FindAfterAppendIfSet(f2, "company", p.company, "name");
    FindAfterAppendIfSet(f2, "company", p.company, "phone");
    FindAfterAppendIfSet(f2, "company", p.company, "company");
    FindAfterAppendIfSet(f2, "company", p.company, "avatar");
    FindAfterAppendAvatar(f3, p.avatar, "name");
    FindAfterAppendAvatar(f3, p.avatar, "phone");
    FindAfterAppendAvatar(f3, p.avatar, "company");
    FindAfterAppendAvatar(f3, p.avatar, "avatar");
  }

  /** `updateCurrentUser`: the form, handed to `api.patch` for the profile with an empty
      options object. */
  function UpdateCurrentUser(p: UpdateUserPayload): (c: Call<Form>) {
    Call(Patch, ProfileEndpoint, Some(ProfileForm(p)), NoOptions)
  }

  /** `api` has no `patch`, so `updateCurrentUser` rejects with a `TypeError` once the form
      is built: no profile change ever reaches the server. */
  lemma UpdateCurrentUserSendsNothing(p: UpdateUserPayload, base: string, encode: Encoder<Form>,
                                      stringify: Json -> string, escape: string -> string)
    ensures Wire(base, UpdateCurrentUser(p), encode, stringify, escape).None?
  {
  }

  /** `UserResponse`, the server's profile. */
  datatype UserResponse = UserResponse(
    id: string,
    name: string,
    email: string,
    phone: Option<string>,
    company: Option<string>,
    avatarUrl: Option<string>,
    roles: seq<string>,
    createdAt: string)

  /** The profile `getCurrentUser` caches: the identity and contact fields as returned,
      no roles, and both timestamps taken from `created_at`. */
  function CachedProfile(u: UserResponse): (d: Storage.UserData)
    ensures d.createdAt == u.createdAt && d.updatedAt == u.createdAt
    ensures d.id == u.id && d.name == u.name && d.email == u.email
    ensures d.phone == u.phone && d.company == u.company && d.avatarUrl == u.avatarUrl
  {
    Storage.UserData(u.id, u.name, u.email, u.phone, u.company, u.avatarUrl, u.createdAt, u.createdAt)
  }

  /** `getCurrentUser`: fetches the profile, caches it, and returns the response itself. */
  function GetCurrentUser(reply: Result<UserResponse, ApiError>, s: Storage.Store,
                          encode: Storage.UserData -> string, faults: Storage.WriteFaults): (x: Exchange<Json, UserResponse>)
    ensures x.call == Call(Get, ProfileEndpoint, None, NoOptions)
    ensures reply.Failure? ==> x.effect == Settled(s, Failure(Raised(reply.error)))
    ensures reply.Success? ==>
      var w := Storage.SetUser(s, CachedProfile(reply.value), encode, faults);
      x.effect.store == w.store &&
      x.effect.outcome == if w.failure.Some? then Failure(Faulted(w.failure.value)) else Success(reply.value)
  {
    var call := Call(Get, ProfileEndpoint, None, NoOptions);
    if reply.Failure? then Exchange(call, Settled(s, Failure(Raised(reply.error))))
    else
      var w := Storage.SetUser(s, CachedProfile(reply.value), encode, faults);
      Exchange(call, Settled(w.store, if w.failure.Some? then Failure(Faulted(w.failure.value)) else Success(reply.value)))
  }

  /** After `getCurrentUser` the cached profile reads back with `createdAt` equal to
      `updatedAt`, and the tokens are untouched. */
  lemma GetCurrentUserCaches(u: UserResponse, s: Storage.Store, encode: Storage.UserData -> string,
                             decode: string -> Option<Storage.UserData>)
    requires Storage.Codec(encode, decode)
    ensures var st := GetCurrentUser(Success(u), s, encode, map[]).effect.store;
      var cached := Storage.GetUser(st, {}, decode);
      cached.Some? && cached.value.createdAt == cached.value.updatedAt == u.createdAt && cached.value.id == u.id
      && Storage.GetTokens(st, {}) == Storage.GetTokens(s, {})
  {
    Storage.SetUserGetUser(s, CachedProfile(u), encode, decode, map[], {});
    Storage.SetUserKeepsTokens(s, CachedProfile(u), encode, map[], {});
  }
}

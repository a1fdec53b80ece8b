/** The credential store: three keys in the device's secure key-value store. The store is a
    map; which platform calls fail is an input. A failed write is reported to the caller
    and leaves its key as it was; a failed read reads as missing; a failed delete is
    swallowed and leaves its key as it was. */
module Storage {
  import opened Base
  import Api

  const AccessTokenKey := "access_token"
  const RefreshTokenKey := "refresh_token"
  const UserKey := "user_data"

  /** Every key the credential store owns. */
  const OwnKeys: set<string> := {AccessTokenKey, RefreshTokenKey, UserKey}

  type Store = map<string, string>

  /** The keys whose `setItemAsync` rejects, with the error it rejects with. */
  type WriteFaults = map<string, Api.Fault>

  datatype Tokens = Tokens(accessToken: string, refreshToken: string)

  /** The cached profile (`UserData`), as `JSON.stringify` would write it. */
  datatype UserData = UserData(
    id: string,
    name: string,
    email: string,
    phone: Option<string>,
    company: Option<string>,
    avatarUrl: Option<string>,
    createdAt: string,
    updatedAt: string)

  /** The store after an operation, and the error the operation rejected with, if any. */
  datatype Written = Written(store: Store, failure: Option<Api.Fault>)

  /** The value of `key` is what it was in `before`, including being absent. */
  predicate Kept(before: Store, after: Store, key: string) {
    (key in after <==> key in before) && (key in before ==> after[key] == before[key])
  }

  /** `setItem`: the write either lands or rejects, and a rejection reaches the caller. */
  function SetItem(s: Store, key: string, value: string, faults: WriteFaults): (w: Written)
    ensures w.failure.None? <==> key !in faults
    ensures key !in faults ==> w.store == s[key := value]
    ensures key in faults ==> w.store == s && w.failure == Some(faults[key])
  {
    if key in faults then Written(s, Some(faults[key])) else Written(s[key := value], None)
  }

  /** `getItem`: a failed read reads as `null`. */
  function GetItem(s: Store, key: string, failingReads: set<string>): (r: Option<string>)
    ensures r.Some? <==> key !in failingReads && key in s
    ensures r.Some? ==> r.value == s[key]
  {
    if key in failingReads || key !in s then None else Some(s[key])
  }

  /** `removeItem`: a failed delete is swallowed. */
  function RemoveItem(s: Store, key: string, failingDeletes: set<string>): (t: Store)
    ensures key !in failingDeletes ==> t == s - {key}
    ensures key in failingDeletes ==> t == s
  {
    if key in failingDeletes then s else s - {key}
  }

  /** `setTokens`: both writes are started together and neither is rolled back, so the
      promise rejects when either write fails while the other may already have landed.
      When both fail, the access-token error is the one reported. */
  function SetTokens(s: Store, t: Tokens, faults: WriteFaults): (w: Written)
    ensures w.failure.None? <==> AccessTokenKey !in faults && RefreshTokenKey !in faults
    ensures AccessTokenKey in faults ==> w.failure == Some(faults[AccessTokenKey])
    ensures AccessTokenKey !in faults ==> AccessTokenKey in w.store && w.store[AccessTokenKey] == t.accessToken
    ensures AccessTokenKey in faults ==> Kept(s, w.store, AccessTokenKey)
    ensures RefreshTokenKey !in faults ==> RefreshTokenKey in w.store && w.store[RefreshTokenKey] == t.refreshToken
    ensures RefreshTokenKey in faults ==> Kept(s, w.store, RefreshTokenKey)
    ensures forall k :: k != AccessTokenKey && k != RefreshTokenKey ==> Kept(s, w.store, k)
  {
    var a := SetItem(s, AccessTokenKey, t.accessToken, faults);
    var r := SetItem(a.store, RefreshTokenKey, t.refreshToken, faults);
    Written(r.store, if a.failure.Some? then a.failure else r.failure)
  }

  /** A stored token counts only when it can be read and is non-empty. */
  predicate Usable(s: Store, key: string, failingReads: set<string>) {
    key !in failingReads && key in s && s[key] != ""
  }

  /** `getTokens`: all or nothing. */
  function GetTokens(s: Store, failingReads: set<string>): (r: Option<Tokens>)
    ensures r.Some? <==> Usable(s, AccessTokenKey, failingReads) && Usable(s, RefreshTokenKey, failingReads)
    ensures r.Some? ==> r.value == Tokens(s[AccessTokenKey], s[RefreshTokenKey])
  {
    var access := GetItem(s, AccessTokenKey, failingReads);
    var refresh := GetItem(s, RefreshTokenKey, failingReads);
    if access.None? || access.value == "" || refresh.None? || refresh.value == "" then None
    else Some(Tokens(access.value, refresh.value))
  }

  /** `clearTokens`: never fails. */
  function ClearTokens(s: Store, failingDeletes: set<string>): (t: Store)
    ensures forall k :: k != AccessTokenKey && k != RefreshTokenKey ==> Kept(s, t, k)
    ensures AccessTokenKey !in failingDeletes ==> AccessTokenKey !in t
    ensures RefreshTokenKey !in failingDeletes ==> RefreshTokenKey !in t
  {
    RemoveItem(RemoveItem(s, AccessTokenKey, failingDeletes), RefreshTokenKey, failingDeletes)
  }

  /** `setUser`: writes only the profile key, with `encode` standing for `JSON.stringify`. */
  function SetUser(s: Store, u: UserData, encode: UserData -> string, faults: WriteFaults): (w: Written)
    ensures w.failure.None? <==> UserKey !in faults
    ensures UserKey !in faults ==> UserKey in w.store && w.store[UserKey] == encode(u)
    ensures forall k :: k != UserKey ==> Kept(s, w.store, k)
    ensures UserKey in faults ==> w.store == s
  {
    SetItem(s, UserKey, encode(u), faults)
  }

  /** `getUser`: missing, empty or undecodable data reads as `null`, with `decode` standing
      for `JSON.parse` abstracted to "a profile or nothing" (`None` when it throws or
      yields something other than a profile). */
  function GetUser(s: Store, failingReads: set<string>, decode: string -> Option<UserData>): (r: Option<UserData>)
    ensures r.Some? ==> Usable(s, UserKey, failingReads) && r == decode(s[UserKey])
    ensures Usable(s, UserKey, failingReads) ==> r == decode(s[UserKey])
  {
    var text := GetItem(s, UserKey, failingReads);
    if text.None? || text.value == "" then None else decode(text.value)
  }

  /** `clearUser`: never fails. */
  function ClearUser(s: Store, failingDeletes: set<string>): (t: Store)
    ensures UserKey !in failingDeletes ==> UserKey !in t
    ensures forall k :: k != UserKey ==> Kept(s, t, k)
  {
    RemoveItem(s, UserKey, failingDeletes)
  }

  /** `clearAll`: never fails, and removes every own key whose delete succeeds. */
  function ClearAll(s: Store, failingDeletes: set<string>): (t: Store)
    ensures forall k :: k in OwnKeys && k !in failingDeletes ==> k !in t
    ensures forall k :: k !in OwnKeys || k in failingDeletes ==> Kept(s, t, k)
  {
    ClearUser(ClearTokens(s, failingDeletes), failingDeletes)
  }

  /** `JSON.parse` undoes `JSON.stringify` on profiles, and a serialised profile is never
      the empty string. */
  ghost predicate Codec(encode: UserData -> string, decode: string -> Option<UserData>) {
    forall u :: decode(encode(u)) == Some(u) && encode(u) != ""
  }

  /** Writing a non-empty token pair and reading it back yields that pair. */
  lemma SetTokensGetTokens(s: Store, t: Tokens, faults: WriteFaults, failingReads: set<string>)
    requires AccessTokenKey !in faults && RefreshTokenKey !in faults
    requires AccessTokenKey !in failingReads && RefreshTokenKey !in failingReads
    requires t.accessToken != "" && t.refreshToken != ""
    ensures GetTokens(SetTokens(s, t, faults).store, failingReads) == Some(t)
  {
  }

  /** Writing a profile and reading it back yields that profile. */
  lemma SetUserGetUser(s: Store, u: UserData, encode: UserData -> string,
                       decode: string -> Option<UserData>, faults: WriteFaults, failingReads: set<string>)
    requires Codec(encode, decode)
    requires UserKey !in faults && UserKey !in failingReads
    ensures GetUser(SetUser(s, u, encode, faults).store, failingReads, decode) == Some(u)
  {
    assert decode(encode(u)) == Some(u) && encode(u) != "";
  }

  /** After a `clearAll` whose deletes succeed, neither tokens nor a profile can be read,
      whatever else the store held. */
  lemma ClearAllLogsOut(s: Store, failingReads: set<string>, decode: string -> Option<UserData>)
    ensures GetTokens(ClearAll(s, {}), failingReads).None?
    ensures GetUser(ClearAll(s, {}), failingReads, decode).None?
  {
  }

  /** Writing tokens leaves the profile readable exactly as before ... */
  lemma SetTokensKeepsUser(s: Store, t: Tokens, decode: string -> Option<UserData>,
                           faults: WriteFaults, failingReads: set<string>)
    ensures GetUser(SetTokens(s, t, faults).store, failingReads, decode) == GetUser(s, failingReads, decode)
  {
    var w := SetTokens(s, t, faults);
    assert Kept(s, w.store, UserKey);
  }

  /** ... and writing a profile leaves the tokens readable exactly as before. */
  lemma SetUserKeepsTokens(s: Store, u: UserData, encode: UserData -> string,
                           faults: WriteFaults, failingReads: set<string>)
    ensures GetTokens(SetUser(s, u, encode, faults).store, failingReads) == GetTokens(s, failingReads)
  {
    var v := SetUser(s, u, encode, faults);
    assert Kept(s, v.store, AccessTokenKey) && Kept(s, v.store, RefreshTokenKey);
  }

  /** No rollback: when only the refresh-token write fails, the new access token is paired
      with whatever refresh token was stored before, and `getTokens` returns that mixed
      pair. */
  lemma PartialSetTokensMixesPairs(s: Store, t: Tokens, faults: WriteFaults)
    requires AccessTokenKey !in faults && RefreshTokenKey in faults
    requires t.accessToken != ""
    requires RefreshTokenKey in s && s[RefreshTokenKey] != ""
    ensures SetTokens(s, t, faults).failure.Some?
    ensures GetTokens(SetTokens(s, t, faults).store, {}) == Some(Tokens(t.accessToken, s[RefreshTokenKey]))
  {
    var w := SetTokens(s, t, faults);
    assert Kept(s, w.store, RefreshTokenKey);
  }
}

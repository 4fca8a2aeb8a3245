/**
 * The user detail page's pure helpers: the RTK Query error message, link
 * normalisation, the `uuid` query parameter, unwrapping of the two response shapes,
 * the header name and the loading / action flags.
 */
module UserView {
  import opened Wrappers
  import opened JsStrings
  import opened JsValues

  const GenericError: string := "Something went wrong."

  /** `err?.data?.message`. */
  function DataMessage(err: Val): Val {
    Get(Get(err, "data"), "message")
  }

  /**
   * The four shapes an RTK Query or thrown error carries its text in, tried in order:
   * a string `data.message`, an array `data.message` (joined with ", "), a string
   * `error`, a string `message`. None when the error has none of them.
   */
  function RtkMessage(err: Val): (r: Option<string>)
    ensures DataMessage(err).Str? ==> r == Some(DataMessage(err).s)
    ensures DataMessage(err).Arr? ==> r == Some(JoinVals(DataMessage(err).items, ", "))
    ensures !DataMessage(err).Str? && !DataMessage(err).Arr? && Get(err, "error").Str? ==>
              r == Some(Get(err, "error").s)
    ensures (!DataMessage(err).Str? && !DataMessage(err).Arr? && !Get(err, "error").Str? &&
             Get(err, "message").Str?) ==> r == Some(Get(err, "message").s)
    ensures r.None? <==> !DataMessage(err).Str? && !DataMessage(err).Arr? &&
                         !Get(err, "error").Str? && !Get(err, "message").Str?
  {
    var dm := DataMessage(err);
    if dm.Str? then Some(dm.s)
    else if dm.Arr? then Some(JoinVals(dm.items, ", "))
    else if Get(err, "error").Str? then Some(Get(err, "error").s)
    else if Get(err, "message").Str? then Some(Get(err, "message").s)
    else None
  }

  /** `getRtkErrorMessage` (and the identical `getErrorMessage` of the admin password modal). */
  function GetRtkErrorMessage(err: Val): (r: string)
    ensures !Truthy(err) ==> r == GenericError
    ensures Truthy(err) && RtkMessage(err).Some? ==> r == RtkMessage(err).value
    ensures RtkMessage(err).None? ==> r == GenericError
  {
    if !Truthy(err) then GenericError else RtkMessage(err).GetOr(GenericError)
  }

  /** A thrown `Error` shows its own message. */
  lemma ThrownErrorShowsMessage(m: string)
    ensures GetRtkErrorMessage(ErrorWithMessage(m)) == m
  {
  }

  /** A server validation error listing several messages shows them joined with ", ". */
  lemma ValidationMessagesJoined(status: Val, msgs: seq<string>)
    ensures var items := seq(|msgs|, i requires 0 <= i < |msgs| => Str(msgs[i]));
      GetRtkErrorMessage(Obj(map["status" := status, "data" := Obj(map["message" := Arr(items)])]))
        == JoinStrings(msgs, ", ")
  {
    var items := seq(|msgs|, i requires 0 <= i < |msgs| => Str(msgs[i]));
    var err := Obj(map["status" := status, "data" := Obj(map["message" := Arr(items)])]);
    assert DataMessage(err) == Arr(items);
    assert GetRtkErrorMessage(err) == JoinVals(items, ", ");
    JoinValsOfStrings(items, ", ");
    assert seq(|items|, i requires 0 <= i < |items| => items[i].s) == msgs;
  }

  /** A thrown bare string has none of the fields, so only the generic text is shown. */
  lemma ThrownStringIsGeneric(s: string)
    ensures GetRtkErrorMessage(Str(s)) == GenericError
  {
  }

  /** `/^https?:\/\//i`: the scheme prefix, compared ignoring ASCII case. */
  predicate HasHttpScheme(u: string) {
    (|u| >= 7 && Lower(u[..7]) == "http://") || (|u| >= 8 && Lower(u[..8]) == "https://")
  }

  lemma HttpsPrefixed(u: string)
    requires u != [] && IsTrimmed(u)
    ensures HasHttpScheme("https://" + u) && IsTrimmed("https://" + u)
  {
    assert ("https://" + u)[..8] == "https://";
  }

  /**
   * `ensureHttp`: blank input gives "", a URL that already names http or https is only
   * trimmed, anything else is trimmed and prefixed with "https://".
   */
  function EnsureHttp(url: string): (r: string)
    ensures r == "" <==> AllWs(url)
    ensures r != "" ==> HasHttpScheme(r) && IsTrimmed(r)
    ensures HasHttpScheme(Trim(url)) ==> r == Trim(url)
    ensures !AllWs(url) && !HasHttpScheme(Trim(url)) ==> r == "https://" + Trim(url)
  {
    TrimEmptyIffAllWs(url);
    TrimIsTrimmed(url);
    var u := Trim(url);
    if u == "" then ""
    else if HasHttpScheme(u) then u
    else HttpsPrefixed(u); "https://" + u
  }

  /** Normalising a link twice changes nothing more. */
  lemma {:induction false} EnsureHttpIdempotent(url: string)
    ensures EnsureHttp(EnsureHttp(url)) == EnsureHttp(url)
  {
    var r := EnsureHttp(url);
    if r != "" {
      TrimStartOfTrimmed(r);
      TrimEndOfTrimmed(r);
      assert Trim(r) == r;
    }
  }

  /** `s?.trim() || ""` for an optional string. */
  function TrimmedOr(o: Option<string>): (r: string)
    ensures IsTrimmed(r)
    ensures r == "" <==> o.None? || AllWs(o.value)
    ensures o.Some? ==> r == Trim(o.value)
  {
    if o.None? then ""
    else
      TrimEmptyIffAllWs(o.value);
      TrimIsTrimmed(o.value);
      Trim(o.value)
  }

  /** The page's `uuid`: the trimmed query parameter, or "" when it is absent. */
  function UuidParam(param: Option<string>): (r: string)
    ensures IsTrimmed(r)
    ensures r == "" <==> param.None? || AllWs(param.value)
  {
    TrimmedOr(param)
  }

  /** `details`: the payload is `raw.data ?? raw`, and there are details only when it has a truthy `user`. */
  function Details(userInfo: Val): (r: Option<Val>)
    ensures r.Some? ==> Truthy(Get(r.value, "user"))
    ensures !Nullish(Get(userInfo, "data")) ==>
              (r.Some? <==> Truthy(Get(Get(userInfo, "data"), "user"))) &&
              (r.Some? ==> r.value == Get(userInfo, "data"))
    ensures Nullish(Get(userInfo, "data")) ==>
              (r.Some? <==> Truthy(Get(userInfo, "user"))) && (r.Some? ==> r.value == userInfo)
    ensures Nullish(userInfo) ==> r.None?
  {
    var payload := Coalesce(Get(userInfo, "data"), userInfo);
    if Truthy(Get(payload, "user")) then Some(payload) else None
  }

  /** The `{ data: { user, profile } }` shape unwraps to its inner object. */
  lemma WrappedDetails(p: Val)
    requires !Nullish(p)
    ensures Details(Obj(map["data" := p])) == (if Truthy(Get(p, "user")) then Some(p) else None)
  {
  }

  /** A `data` field wins over a top-level `user`: only the payload's own `user` counts. */
  lemma DataShadowsTopLevelUser(p: Val, u: Val)
    requires !Nullish(p) && !Truthy(Get(p, "user"))
    ensures Details(Obj(map["data" := p, "user" := u])) == None
  {
    var raw := Obj(map["data" := p, "user" := u]);
    assert Get(raw, "data") == p;
  }

  /** The bare `{ user, profile }` shape (no `data` field) is taken as it is. */
  lemma BareDetails(p: Val)
    requires p.Obj? && "data" !in p.fields
    ensures Details(p) == (if Truthy(Get(p, "user")) then Some(p) else None)
  {
  }

  /** `headerName`: the trimmed display name, else the trimmed username, else "User". */
  function HeaderName(displayName: Option<string>, username: Option<string>): (r: string)
    ensures r != "" && IsTrimmed(r)
    ensures displayName.Some? && !AllWs(displayName.value) ==> r == Trim(displayName.value)
    ensures (displayName.None? || AllWs(displayName.value)) && username.Some? && !AllWs(username.value) ==>
              r == Trim(username.value)
    ensures (displayName.None? || AllWs(displayName.value)) && (username.None? || AllWs(username.value)) ==>
              r == "User"
  {
    var dn := TrimmedOr(displayName);
    var un := TrimmedOr(username);
    if dn != "" then dn
    else if un != "" then un
    else assert "User"[0] == 'U' && "User"[3] == 'r'; "User"
  }

  /** `loading`: a request for a non-empty uuid is in flight. */
  predicate Loading(uuid: string, isLoading: bool, isFetching: bool) {
    uuid != "" && (isLoading || isFetching)
  }

  /** `canAct`: the loaded user has a uuid and nothing is loading. */
  predicate CanAct(userUuid: Option<string>, loading: bool) {
    userUuid.Some? && userUuid.value != "" && !loading
  }

  /** Without a usable `uuid` parameter the page never shows itself as loading. */
  lemma NoUuidNeverLoads(param: Option<string>, isLoading: bool, isFetching: bool)
    requires param.None? || AllWs(param.value)
    ensures !Loading(UuidParam(param), isLoading, isFetching)
  {
  }

  /** The action buttons are enabled only for a loaded user while no request is in flight. */
  lemma ActionsNeedIdleUser(param: Option<string>, isLoading: bool, isFetching: bool, userUuid: Option<string>)
    ensures CanAct(userUuid, Loading(UuidParam(param), isLoading, isFetching)) ==>
              userUuid.Some? && userUuid.value != "" &&
              (isLoading || isFetching ==> param.None? || AllWs(param.value))
  {
  }
}

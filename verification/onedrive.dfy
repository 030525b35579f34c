/** The Microsoft Graph adapter (services/onedrive.py): the OAuth token
    record kept in the state store, its bootstrap and refresh, and the two
    projections of Graph responses. The clock (`int(time.time())`), the JSON
    codec and the HTTP calls are parameters. */
module OneDrive {
  import opened Base
  import opened Seqs
  import opened Text
  import opened Json
  import opened StateStore
  import opened Models

  const TokenStateKey := "ms_graph_token_state"
  const GraphBase := "https://graph.microsoft.com/v1.0/me"
  const DefaultTokenUrl := "https://login.microsoftonline.com/common/oauth2/v2.0/token"
  const TokenScope := "https://graph.microsoft.com/.default offline_access"
  /** A token with less than this many seconds left is refreshed first. */
  const RefreshMargin := 300
  /** The lifetime assumed for a raw token and for a response without `expires_in`. */
  const DefaultLifetime := 3600

  const MissingEnvToken := "MS_GRAPH_TOKEN env var is required for OneDrive access"
  const NoRefreshToken := "No refresh_token available for MS Graph token refresh."
  const MissingClient := "MS_GRAPH_CLIENT_ID and MS_GRAPH_CLIENT_SECRET env vars are required for token refresh."

  /** `json.loads`: `None` when the text is not JSON. */
  type Loads = string -> Option<Json>
  /** `json.dumps`. */
  type Dumps = Json -> string
  /** `http.post(url, data=form)` followed by `raise_for_status()` and `.json()`. */
  type Post = (string, map<string, Json>) -> Result<Json>

  /** An adapter instance: its token record and the store it persists into. */
  datatype Service = Service(tokenData: Json, store: Store)

  /** The outcome of `_get_valid_access_token`: the adapter afterwards, the
      access token or the exception, and whether a refresh was attempted. */
  datatype TokenCall = TokenCall(svc: Service, token: Result<Json>, refreshAttempted: bool)

  // ---- persistence ------------------------------------------------------

  /** `_load_token`: the stored record, or `None` when nothing is stored or
      the stored text does not parse. */
  function LoadToken(st: Store, loads: Loads): (r: Option<Json>)
    ensures Get(st, TokenStateKey).None? ==> r.None?
    ensures Get(st, TokenStateKey).Some? ==> r == loads(Get(st, TokenStateKey).value)
  {
    var raw := Get(st, TokenStateKey);
    if raw.Some? then loads(raw.value) else None
  }

  /** `_save_token`. */
  function SaveToken(st: Store, td: Json, dumps: Dumps): (r: Store)
    ensures dumps(td) != "" ==> Get(r, TokenStateKey) == Some(dumps(td))
    ensures SameExcept(st, r, TokenStateKey)
  {
    Set(st, TokenStateKey, dumps(td))
  }

  /** What is saved is what is loaded next time, whenever the codec itself
      round-trips the record. */
  lemma SaveThenLoad(st: Store, td: Json, loads: Loads, dumps: Dumps)
    requires dumps(td) != "" && loads(dumps(td)) == Some(td)
    ensures LoadToken(SaveToken(st, td, dumps), loads) == Some(td)
  {
  }

  // ---- bootstrap --------------------------------------------------------

  /** The record built from an `MS_GRAPH_TOKEN` that is not JSON. */
  function RawToken(token: string, now: int): (r: Json)
    ensures r.JObj? && r.fields.Keys == {"access_token", "expires_at", "refresh_token"}
    ensures r.fields["access_token"] == JStr(token)
    ensures r.fields["expires_at"] == JNum(now + DefaultLifetime)
    ensures r.fields["refresh_token"] == JNull
  {
    JObj(map["access_token" := JStr(token), "expires_at" := JNum(now + DefaultLifetime), "refresh_token" := JNull])
  }

  /** `OneDriveService.__init__`: a truthy stored record wins; otherwise
      `MS_GRAPH_TOKEN` is required, parsed as JSON if possible and taken as a
      raw access token if not, and the result is saved. */
  function Bootstrap(st: Store, env: Env, now: int, loads: Loads, dumps: Dumps): (r: Result<Service>)
    ensures LoadToken(st, loads).Some? && PyTruthy(LoadToken(st, loads).value) ==>
      r == Ok(Service(LoadToken(st, loads).value, st))
    ensures r.Err? <==>
      !(LoadToken(st, loads).Some? && PyTruthy(LoadToken(st, loads).value)) && !Truthy(GetEnv(env, "MS_GRAPH_TOKEN"))
    ensures r.Err? ==> r.msg == MissingEnvToken
    ensures r.Ok? && r.value.store != st ==> r.value.store == SaveToken(st, r.value.tokenData, dumps)
    ensures r.Ok? && !(LoadToken(st, loads).Some? && PyTruthy(LoadToken(st, loads).value)) ==>
      r.value.store == SaveToken(st, r.value.tokenData, dumps) &&
      r.value.tokenData == loads(env["MS_GRAPH_TOKEN"]).GetOr(RawToken(env["MS_GRAPH_TOKEN"], now))
  {
    var loaded := LoadToken(st, loads);
    if loaded.Some? && PyTruthy(loaded.value) then Ok(Service(loaded.value, st))
    else
      var envToken := GetEnv(env, "MS_GRAPH_TOKEN");
      if !Truthy(envToken) then Err(MissingEnvToken)
      else
        var td := loads(envToken.value).GetOr(RawToken(envToken.value, now));
        Ok(Service(td, SaveToken(st, td, dumps)))
  }

  /** Stored state is preferred over the environment: with a truthy stored
      record the environment is never consulted. */
  lemma BootstrapIgnoresEnvWhenStored(st: Store, env1: Env, env2: Env, now1: int, now2: int, loads: Loads, dumps: Dumps)
    requires LoadToken(st, loads).Some? && PyTruthy(LoadToken(st, loads).value)
    ensures Bootstrap(st, env1, now1, loads, dumps) == Bootstrap(st, env2, now2, loads, dumps)
  {
  }

  /** A non-JSON environment token becomes the access token of a record that
      expires an hour from `now` and cannot be refreshed; that record is saved. */
  lemma BootstrapRawToken(st: Store, env: Env, now: int, loads: Loads, dumps: Dumps)
    requires LoadToken(st, loads).None?
    requires "MS_GRAPH_TOKEN" in env && env["MS_GRAPH_TOKEN"] != ""
    requires loads(env["MS_GRAPH_TOKEN"]).None?
    requires dumps(RawToken(env["MS_GRAPH_TOKEN"], now)) != ""
    ensures Bootstrap(st, env, now, loads, dumps).Ok?
    ensures Bootstrap(st, env, now, loads, dumps).value.tokenData == RawToken(env["MS_GRAPH_TOKEN"], now)
    ensures Get(Bootstrap(st, env, now, loads, dumps).value.store, TokenStateKey) ==
      Some(dumps(RawToken(env["MS_GRAPH_TOKEN"], now)))
  {
  }

  // ---- expiry -----------------------------------------------------------

  /** `token_data.get("expires_at", 0)` as an integer: the record must be an
      object, a missing entry reads 0, and `bool` is an `int` in Python. */
  function ExpiresAt(td: Json): (r: Result<int>)
    ensures r.Ok? <==> td.JObj? && ("expires_at" !in td.fields || td.fields["expires_at"].JNum? || td.fields["expires_at"].JBool?)
    ensures td.JObj? && "expires_at" !in td.fields ==> r == Ok(0)
    ensures td.JObj? && "expires_at" in td.fields && td.fields["expires_at"].JNum? ==> r == Ok(td.fields["expires_at"].n)
  {
    if !td.JObj? then Err("'token_data' has no attribute 'get'")
    else
      match Field(td.fields, "expires_at")
      case None => Ok(0)
      case Some(JNum(n)) => Ok(n)
      case Some(JBool(b)) => Ok(if b then 1 else 0)
      case Some(_) => Err("unsupported operand type(s) for -")
  }

  /** The refresh decision: less than five minutes left. */
  predicate NeedsRefresh(expiresAt: int, now: int) {
    expiresAt - now < RefreshMargin
  }

  // ---- refresh ----------------------------------------------------------

  function TokenUrl(env: Env): string {
    GetEnvOr(env, "MS_GRAPH_TOKEN_URL", DefaultTokenUrl)
  }

  /** The form posted to the token endpoint. */
  function RefreshForm(env: Env, refreshToken: Json): map<string, Json>
    requires "MS_GRAPH_CLIENT_ID" in env && "MS_GRAPH_CLIENT_SECRET" in env
  {
    map["client_id" := JStr(env["MS_GRAPH_CLIENT_ID"]), "client_secret" := JStr(env["MS_GRAPH_CLIENT_SECRET"]),
        "grant_type" := JStr("refresh_token"), "refresh_token" := refreshToken, "scope" := JStr(TokenScope)]
  }

  /** Both client credentials are set and non-empty. */
  predicate HasClient(env: Env) {
    Truthy(GetEnv(env, "MS_GRAPH_CLIENT_ID")) && Truthy(GetEnv(env, "MS_GRAPH_CLIENT_SECRET"))
  }

  /** The stored refresh token, when it is truthy. */
  predicate HasRefreshToken(td: Json) {
    td.JObj? && "refresh_token" in td.fields && PyTruthy(td.fields["refresh_token"])
  }

  /** `_refresh_token`. On success the new record holds the response's access
      token, `now + expires_in` (3600 when absent) and the response's refresh
      token when it sends one, the old one otherwise; the record is saved. */
  function Refresh(svc: Service, env: Env, now: int, post: Post, dumps: Dumps): (r: Result<Service>)
    ensures !HasRefreshToken(svc.tokenData) ==> r == Err(NoRefreshToken)
    ensures HasRefreshToken(svc.tokenData) && !HasClient(env) ==> r == Err(MissingClient)
    ensures r.Ok? ==> HasRefreshToken(svc.tokenData) && HasClient(env)
    ensures r.Ok? ==>
      var resp := post(TokenUrl(env), RefreshForm(env, svc.tokenData.fields["refresh_token"]));
      resp.Ok? && resp.value.JObj? && "access_token" in resp.value.fields &&
      var td := r.value.tokenData;
      td.JObj? && td.fields.Keys == {"access_token", "expires_at", "refresh_token"} &&
      td.fields["access_token"] == resp.value.fields["access_token"] &&
      PyInt(Field(resp.value.fields, "expires_in").GetOr(JNum(DefaultLifetime))).Ok? &&
      td.fields["expires_at"] == JNum(now + PyInt(Field(resp.value.fields, "expires_in").GetOr(JNum(DefaultLifetime))).value) &&
      td.fields["refresh_token"] == Field(resp.value.fields, "refresh_token").GetOr(svc.tokenData.fields["refresh_token"])
    ensures r.Ok? ==> r.value.store == SaveToken(svc.store, r.value.tokenData, dumps)
  {
    if !HasRefreshToken(svc.tokenData) then Err(NoRefreshToken)
    else
      var refreshToken := svc.tokenData.fields["refresh_token"];
      if !HasClient(env) then Err(MissingClient)
      else
        var resp :- post(TokenUrl(env), RefreshForm(env, refreshToken));
        if !resp.JObj? then Err("token response is not an object")
        else if "access_token" !in resp.fields then Err("KeyError: 'access_token'")
        else
          var expiresIn :- PyInt(Field(resp.fields, "expires_in").GetOr(JNum(DefaultLifetime)));
          var td := JObj(map[
            "access_token" := resp.fields["access_token"],
            "expires_at" := JNum(now + expiresIn),
            "refresh_token" := Field(resp.fields, "refresh_token").GetOr(refreshToken)]);
          Ok(Service(td, SaveToken(svc.store, td, dumps)))
  }

  /** A response without `refresh_token` keeps the old refresh token, and one
      without `expires_in` gives an hour. */
  lemma RefreshKeepsRefreshToken(svc: Service, env: Env, now: int, post: Post, dumps: Dumps, access: Json)
    requires HasRefreshToken(svc.tokenData) && HasClient(env)
    requires post(TokenUrl(env), RefreshForm(env, svc.tokenData.fields["refresh_token"])) ==
      Ok(JObj(map["access_token" := access]))
    ensures Refresh(svc, env, now, post, dumps).Ok?
    ensures Refresh(svc, env, now, post, dumps).value.tokenData.fields["refresh_token"] == svc.tokenData.fields["refresh_token"]
    ensures Refresh(svc, env, now, post, dumps).value.tokenData.fields["expires_at"] == JNum(now + DefaultLifetime)
  {
  }

  // ---- access token -----------------------------------------------------

  /** `_get_valid_access_token`: refresh first when the record expires within
      five minutes, then read its `access_token`. A failure leaves the adapter
      as it was. */
  function GetValidAccessToken(svc: Service, env: Env, now: int, post: Post, dumps: Dumps): (r: TokenCall)
    ensures r.refreshAttempted <==> ExpiresAt(svc.tokenData).Ok? && NeedsRefresh(ExpiresAt(svc.tokenData).value, now)
    ensures r.token.Err? || !r.refreshAttempted ==> r.svc == svc
    ensures r.refreshAttempted ==> (r.token.Ok? <==> Refresh(svc, env, now, post, dumps).Ok?)
    ensures r.refreshAttempted && r.token.Ok? ==>
      r.svc == Refresh(svc, env, now, post, dumps).value && r.token.value == r.svc.tokenData.fields["access_token"]
    ensures !r.refreshAttempted && r.token.Ok? ==>
      svc.tokenData.JObj? && "access_token" in svc.tokenData.fields && r.token.value == svc.tokenData.fields["access_token"]
  {
    var exp := ExpiresAt(svc.tokenData);
    if exp.Err? then TokenCall(svc, Err(exp.msg), false)
    else if NeedsRefresh(exp.value, now) then
      var refreshed := Refresh(svc, env, now, post, dumps);
      if refreshed.Err? then TokenCall(svc, Err(refreshed.msg), true)
      else TokenCall(refreshed.value, Ok(refreshed.value.tokenData.fields["access_token"]), true)
    else if "access_token" in svc.tokenData.fields then TokenCall(svc, Ok(svc.tokenData.fields["access_token"]), false)
    else TokenCall(svc, Err("KeyError: 'access_token'"), false)
  }

  /** The five-minute boundary: 299 seconds left refreshes, 300 does not. */
  lemma RefreshBoundary(svc: Service, env: Env, now: int, post: Post, dumps: Dumps)
    requires svc.tokenData.JObj?
    ensures "expires_at" in svc.tokenData.fields && svc.tokenData.fields["expires_at"] == JNum(now + 299) ==>
      GetValidAccessToken(svc, env, now, post, dumps).refreshAttempted
    ensures "expires_at" in svc.tokenData.fields && svc.tokenData.fields["expires_at"] == JNum(now + 300) ==>
      !GetValidAccessToken(svc, env, now, post, dumps).refreshAttempted
  {
  }

  /** A record without `expires_at` counts as expired at time 0, so any
      non-negative clock refreshes it. */
  lemma MissingExpiryRefreshes(svc: Service, env: Env, now: int, post: Post, dumps: Dumps)
    requires svc.tokenData.JObj? && "expires_at" !in svc.tokenData.fields
    requires now >= 0
    ensures GetValidAccessToken(svc, env, now, post, dumps).refreshAttempted
  {
  }

  /** Without a refresh token or client credentials, an expiring record
      makes the call fail and nothing changes. */
  lemma RefreshFailureKeepsState(svc: Service, env: Env, now: int, post: Post, dumps: Dumps)
    requires ExpiresAt(svc.tokenData).Ok? && NeedsRefresh(ExpiresAt(svc.tokenData).value, now)
    requires !HasRefreshToken(svc.tokenData) || !HasClient(env)
    ensures GetValidAccessToken(svc, env, now, post, dumps).token.Err?
    ensures GetValidAccessToken(svc, env, now, post, dumps).svc == svc
  {
  }

  /** A refreshed record no longer needs a refresh at the same instant when
      the endpoint grants at least five minutes. */
  lemma RefreshedRecordIsFresh(svc: Service, env: Env, now: int, post: Post, dumps: Dumps)
    requires Refresh(svc, env, now, post, dumps).Ok?
    requires var resp := post(TokenUrl(env), RefreshForm(env, svc.tokenData.fields["refresh_token"]));
      resp.Ok? && resp.value.JObj? && "expires_in" !in resp.value.fields
    ensures ExpiresAt(Refresh(svc, env, now, post, dumps).value.tokenData) == Ok(now + DefaultLifetime)
    ensures !NeedsRefresh(now + DefaultLifetime, now)
  {
  }

  // ---- Graph projections ------------------------------------------------

  /** `it.get(key)`, with `None` as JSON null. */
  function GetOrNull(fields: map<string, Json>, key: string): Json {
    Field(fields, key).GetOr(JNull)
  }

  /** A listing item that is a file (has a "file" facet); folders have none. */
  predicate IsFileItem(it: Json) {
    it.JObj? && "file" in it.fields
  }

  /** The FileRef built from a file item: Graph's `eTag` becomes `etag`. */
  function ItemRef(it: Json): (r: Result<FileRef>)
    ensures r.Ok? <==> (it.JObj? && "id" in it.fields && it.fields["id"].JStr? && "name" in it.fields &&
      it.fields["name"].JStr? && OptInt(it.fields, "size").Ok? && OptStr(it.fields, "eTag").Ok?)
    ensures r.Ok? ==> it.fields["id"] == JStr(r.value.id) && it.fields["name"] == JStr(r.value.name)
  {
    if !it.JObj? then Err("FileRef: Input should be a valid dictionary")
    else ValidateFileRef(JObj(map["id" := GetOrNull(it.fields, "id"), "name" := GetOrNull(it.fields, "name"),
                             "size" := GetOrNull(it.fields, "size"), "etag" := GetOrNull(it.fields, "eTag")]))
  }

  /** Converting file items one by one; the first invalid one raises. */
  function ItemRefs(items: seq<Json>): (r: Result<seq<FileRef>>)
    ensures r.Ok? <==> forall i :: 0 <= i < |items| ==> ItemRef(items[i]).Ok?
    ensures r.Ok? ==> |r.value| == |items| && forall i :: 0 <= i < |items| ==> ItemRef(items[i]) == Ok(r.value[i])
  {
    if items == [] then Ok([])
    else
      var head :- ItemRef(items[0]);
      var tail :- ItemRefs(items[1..]);
      Ok([head] + tail)
  }

  /** `"file" in it` for one element of the iterated `value`: key membership
      for an object, a substring test for a string, element membership for a
      list; a number, a boolean or null is not a container and raises. */
  function FileFacetTest(it: Json): (r: Result<bool>)
    ensures r.Ok? <==> it.JObj? || it.JStr? || it.JArr?
    ensures it.JObj? ==> r == Ok(IsFileItem(it))
    ensures it.JStr? ==> r == Ok(Contains(it.s, "file"))
  {
    match it
    case JObj(fields) => Ok("file" in fields)
    case JStr(s) => Ok(Contains(s, "file"))
    case JArr(items) => Ok(JStr("file") in items)
    case _ => Err("argument of type is not iterable")
  }

  /** The element passes the facet test (and so is converted next). */
  predicate PassesFacet(it: Json) {
    FileFacetTest(it) == Ok(true)
  }

  /** The loop of `list_folder` over the elements of `value`: an element
      passing the facet test is converted, one failing it is skipped, and the
      first test or conversion that raises ends the listing. */
  function ListItems(items: seq<Json>): (r: Result<seq<FileRef>>)
    ensures r.Ok? <==> forall i :: 0 <= i < |items| ==>
      FileFacetTest(items[i]).Ok? && (PassesFacet(items[i]) ==> ItemRef(items[i]).Ok?)
    ensures r.Ok? ==> r == ItemRefs(Filter(PassesFacet, items))
  {
    if items == [] then Ok([])
    else
      var isFile :- FileFacetTest(items[0]);
      if !isFile then ListItems(items[1..])
      else
        var head :- ItemRef(items[0]);
        var tail :- ListItems(items[1..]);
        assert [items[0]] + Filter(PassesFacet, items[1..]) == Filter(PassesFacet, items);
        Ok([head] + tail)
  }

  /** On a Graph-shaped listing, where every element is an object, the loop
      converts exactly the items with a "file" facet, in order. */
  lemma {:induction false} ObjectListing(items: seq<Json>)
    requires forall i :: 0 <= i < |items| ==> items[i].JObj?
    ensures ListItems(items) == ItemRefs(Filter(IsFileItem, items))
  {
    if items != [] {
      ObjectListing(items[1..]);
      if IsFileItem(items[0]) {
        assert Filter(IsFileItem, items) == [items[0]] + Filter(IsFileItem, items[1..]);
        assert ([items[0]] + Filter(IsFileItem, items[1..]))[1..] == Filter(IsFileItem, items[1..]);
      } else {
        assert Filter(IsFileItem, items) == Filter(IsFileItem, items[1..]);
      }
    }
  }

  /** Iterating a string yields its characters as one-character strings. */
  function Chars(s: string): (r: seq<Json>)
    ensures |r| == |s|
    ensures forall i :: 0 <= i < |s| ==> r[i] == JStr([s[i]])
  {
    seq(|s|, i requires 0 <= i < |s| => JStr([s[i]]))
  }

  /** No one-character string contains "file": a string `value` lists nothing. */
  lemma {:induction false} CharsListNothing(s: string)
    ensures ListItems(Chars(s)) == Ok([])
  {
    var cs := Chars(s);
    if s != [] {
      CharsListNothing(s[1..]);
      assert Chars(s)[1..] == Chars(s[1..]);
      assert !Contains([s[0]], "file") by {
        assert !StartsWith([s[0]], "file");
        assert [s[0]][1..] == [];
        assert !Contains([], "file");
      }
    }
  }

  /** `list_folder` on the parsed response: `data.get("value", [])` is
      iterated, so an array lists its file items, a string its characters
      (none of which passes) and an object its keys (a key containing "file"
      passes the test and then has no `get`); other values are not iterable. */
  function ListFolder(data: Json): (r: Result<seq<FileRef>>)
    ensures !data.JObj? ==> r.Err?
    ensures data.JObj? && "value" !in data.fields ==> r == Ok([])
    ensures data.JObj? && "value" in data.fields && data.fields["value"].JArr? ==>
      r == ListItems(data.fields["value"].items)
    ensures data.JObj? && "value" in data.fields && data.fields["value"].JStr? ==> r == Ok([])
    ensures data.JObj? && "value" in data.fields && data.fields["value"].JObj? ==>
      (r.Ok? <==> forall k :: k in data.fields["value"].fields ==> !Contains(k, "file")) &&
      (r.Ok? ==> r.value == [])
    ensures data.JObj? && "value" in data.fields ==>
      (data.fields["value"].JNum? || data.fields["value"].JBool? || data.fields["value"].JNull? ==> r.Err?)
  {
    if !data.JObj? then Err("'data' has no attribute 'get'")
    else
      match Field(data.fields, "value").GetOr(JArr([]))
      case JArr(items) => ListItems(items)
      case JStr(s) => CharsListNothing(s); ListItems(Chars(s))
      case JObj(fields) =>
        if exists k :: k in fields && Contains(k, "file") then Err("'str' object has no attribute 'get'")
        else Ok([])
      case _ => Err("object is not iterable")
  }

  /** Folders are skipped: a listing of folder objects only is empty. */
  lemma ListFolderSkipsFolders(items: seq<Json>)
    requires forall i :: 0 <= i < |items| ==> items[i].JObj? && !IsFileItem(items[i])
    ensures ListFolder(JObj(map["value" := JArr(items)])) == Ok([])
  {
    ObjectListing(items);
    FilterNone(IsFileItem, items);
  }

  /** A string element is tested as a substring: "profile" passes the test
      and then raises for want of `get`, "abc" is skipped. */
  lemma StringItems()
    ensures ListFolder(JObj(map["value" := JArr([JStr("profile")])])).Err?
    ensures ListFolder(JObj(map["value" := JArr([JStr("abc")])])) == Ok([])
  {
    assert StartsWith("file", "file");
    assert "profile"[3..] == "file";
    assert Contains("profile"[3..], "file");
    assert Contains("profile", "file");
    assert !Contains("abc", "file");
  }

  function ItemUrl(itemId: string): string {
    GraphBase + "/drive/items/" + itemId
  }

  /** `get_download_url` on the parsed item: a truthy
      `@microsoft.graph.downloadUrl`, else the item's `/content` endpoint. */
  function GetDownloadUrl(itemId: string, data: Json): (r: Result<Json>)
    ensures r.Ok? <==> data.JObj?
    ensures data.JObj? && "@microsoft.graph.downloadUrl" in data.fields && PyTruthy(data.fields["@microsoft.graph.downloadUrl"]) ==>
      r == Ok(data.fields["@microsoft.graph.downloadUrl"])
    ensures r.Ok? && !(PyTruthy(GetOrNull(data.fields, "@microsoft.graph.downloadUrl"))) ==>
      r.value.JStr? && StartsWith(r.value.s, GraphBase + "/drive/items/") && EndsWith(r.value.s, "/content")
  {
    if !data.JObj? then Err("'data' has no attribute 'get'")
    else
      var dl := GetOrNull(data.fields, "@microsoft.graph.downloadUrl");
      if PyTruthy(dl) then Ok(dl)
      else Ok(JStr(ItemUrl(itemId) + "/content"))
  }

  /** The fallback URL names the item: distinct ids give distinct URLs. */
  lemma ContentUrlInjective(a: string, b: string)
    requires ItemUrl(a) + "/content" == ItemUrl(b) + "/content"
    ensures a == b
  {
    var p := GraphBase + "/drive/items/";
    var s := "/content";
    assert |a| == |b|;
    assert a == (p + a + s)[|p|..|p| + |a|];
    assert b == (p + b + s)[|p|..|p| + |b|];
  }

  // ---- authorised calls on a constructed adapter ------------------------

  /** `http.get(url, headers=self._headers())` followed by
      `raise_for_status()` and `.json()`: the parsed response for a URL and
      the bearer access token. */
  type HttpGet = (string, Json) -> Result<Json>

  /** Everything an adapter talks to besides the store: the clock, the JSON
      codec and the two HTTP verbs. */
  datatype Graph = Graph(now: int, loads: Loads, dumps: Dumps, post: Post, get: HttpGet)

  /** `_headers()` then the GET: the request carries the access token of the
      record as it is after any refresh, and only the token record can change. */
  function AuthorisedGet(svc: Service, env: Env, g: Graph, url: string): (r: (Service, Result<Json>))
    ensures SameExcept(svc.store, r.0.store, TokenStateKey)
    ensures ExpiresAt(svc.tokenData).Ok? && !NeedsRefresh(ExpiresAt(svc.tokenData).value, g.now) ==> r.0 == svc
    ensures r.1.Ok? ==>
      r.0.tokenData.JObj? && "access_token" in r.0.tokenData.fields &&
      r.1 == g.get(url, r.0.tokenData.fields["access_token"])
  {
    var call := GetValidAccessToken(svc, env, g.now, g.post, g.dumps);
    if call.token.Err? then (call.svc, Err(call.token.msg))
    else (call.svc, g.get(url, call.token.value))
  }

  function FolderUrl(folderPath: string): string {
    GraphBase + "/drive/root:/" + folderPath + ":/children"
  }

  /** A stored record that is truthy and not about to expire: constructing an
      adapter and calling it writes nothing. */
  predicate FreshStoredToken(st: Store, g: Graph) {
    var loaded := LoadToken(st, g.loads);
    loaded.Some? && PyTruthy(loaded.value) &&
    ExpiresAt(loaded.value).Ok? && !NeedsRefresh(ExpiresAt(loaded.value).value, g.now)
  }

  /** `OneDriveService(http).list_folder(folder_path)` seen from the store:
      the constructor (which may save a record from the environment), the
      authorised GET (which may refresh and save it) and the projection. Only
      the token record changes, and its write stays when a later step raises. */
  function ServiceListFolder(st: Store, env: Env, g: Graph, folderPath: string): (r: (Store, Result<seq<FileRef>>))
    ensures SameExcept(st, r.0, TokenStateKey)
    ensures Bootstrap(st, env, g.now, g.loads, g.dumps).Err? ==> r == (st, Err(MissingEnvToken))
    ensures FreshStoredToken(st, g) ==> r.0 == st
    ensures r.1.Ok? ==>
      Bootstrap(st, env, g.now, g.loads, g.dumps).Ok? &&
      var call := AuthorisedGet(Bootstrap(st, env, g.now, g.loads, g.dumps).value, env, g, FolderUrl(folderPath));
      call.1.Ok? && r.1 == ListFolder(call.1.value)
  {
    var svc := Bootstrap(st, env, g.now, g.loads, g.dumps);
    if svc.Err? then (st, Err(svc.msg))
    else
      var call := AuthorisedGet(svc.value, env, g, FolderUrl(folderPath));
      if call.1.Err? then (call.0.store, Err(call.1.msg))
      else (call.0.store, ListFolder(call.1.value))
  }

  /** `OneDriveService(http).get_download_url(item_id)` seen from the store,
      with the same token effect as the listing call. */
  function ServiceDownloadUrl(st: Store, env: Env, g: Graph, itemId: string): (r: (Store, Result<Json>))
    ensures SameExcept(st, r.0, TokenStateKey)
    ensures Bootstrap(st, env, g.now, g.loads, g.dumps).Err? ==> r == (st, Err(MissingEnvToken))
    ensures FreshStoredToken(st, g) ==> r.0 == st
    ensures r.1.Ok? ==>
      Bootstrap(st, env, g.now, g.loads, g.dumps).Ok? &&
      var call := AuthorisedGet(Bootstrap(st, env, g.now, g.loads, g.dumps).value, env, g, ItemUrl(itemId));
      call.1.Ok? && r.1 == GetDownloadUrl(itemId, call.1.value)
  {
    var svc := Bootstrap(st, env, g.now, g.loads, g.dumps);
    if svc.Err? then (st, Err(svc.msg))
    else
      var call := AuthorisedGet(svc.value, env, g, ItemUrl(itemId));
      if call.1.Err? then (call.0.store, Err(call.1.msg))
      else (call.0.store, GetDownloadUrl(itemId, call.1.value))
  }

  /** A first call with nothing stored saves the environment's record even
      when the Graph request then fails. */
  lemma FailedCallKeepsBootstrap(st: Store, env: Env, g: Graph, folderPath: string)
    requires LoadToken(st, g.loads).None? && Truthy(GetEnv(env, "MS_GRAPH_TOKEN"))
    requires var td := Bootstrap(st, env, g.now, g.loads, g.dumps).value.tokenData;
      ExpiresAt(td).Ok? && !NeedsRefresh(ExpiresAt(td).value, g.now) && "access_token" in td.fields
    requires var td := Bootstrap(st, env, g.now, g.loads, g.dumps).value.tokenData;
      g.get(FolderUrl(folderPath), td.fields["access_token"]).Err?
    ensures ServiceListFolder(st, env, g, folderPath).1.Err?
    ensures ServiceListFolder(st, env, g, folderPath).0 == Bootstrap(st, env, g.now, g.loads, g.dumps).value.store
  {
  }
}

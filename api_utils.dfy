/**
 * The API helpers of the client (src/components/apiUtils.ts): request
 * headers, the authApi and userApi requests and response handling, and the
 * token kept in localStorage.
 */
module ApiUtils {
  import opened Wrappers
  import opened Js
  import opened Http
  import opened Users

  /** The localStorage key the token is kept under. */
  const TokenKey := "Token"

  datatype Header = Header(name: string, value: string)

  /** The value of the first header called name, if any. */
  function HeaderValue(headers: seq<Header>, name: string): (v: Option<string>)
    ensures v.Some? <==> exists k :: 0 <= k < |headers| && headers[k].name == name
    ensures v.Some? ==>
      exists k :: 0 <= k < |headers| && headers[k] == Header(name, v.value) && forall j :: 0 <= j < k ==> headers[j].name != name
  {
    if headers == [] then None
    else if headers[0].name == name then Some(headers[0].value)
    else
      var v := HeaderValue(headers[1..], name);
      assert forall k :: 1 <= k < |headers| ==> headers[k] == headers[1..][k - 1];
      if v.Some? then
        var k :| 0 <= k < |headers[1..]| && headers[1..][k] == Header(name, v.value) && forall j :: 0 <= j < k ==> headers[1..][j].name != name;
        assert headers[k + 1] == Header(name, v.value);
        assert forall j :: 0 <= j < k + 1 ==> headers[j].name != name;
        v
      else v
  }

  const JsonContentType := Header("Content-Type", "application/json")

  /** The token in a localStorage state: getItem answers null when the key is absent. */
  function StoredToken(storage: map<string, string>): (t: Option<string>)
    ensures t.Some? <==> TokenKey in storage
    ensures t.Some? ==> t.value == storage[TokenKey]
  {
    if TokenKey in storage then Some(storage[TokenKey]) else None
  }

  /** `!!token`: a stored, non-empty token. */
  predicate HasToken(storage: map<string, string>) {
    TokenKey in storage && storage[TokenKey] != ""
  }

  /**
   * window.localStorage, as the key-value map of the whole origin; the
   * token functions touch only the "Token" key.
   */
  class TokenStore {
    var storage: map<string, string>

    constructor (initial: map<string, string>)
      ensures storage == initial
    {
      storage := initial;
    }

    /** apiUtils.saveToken: localStorage.setItem('Token', token). */
    method SaveToken(token: string)
      modifies this
      ensures storage == old(storage)[TokenKey := token]
    {
      storage := storage[TokenKey := token];
    }

    /** apiUtils.getToken: localStorage.getItem('Token'). */
    method GetToken() returns (token: Option<string>)
      ensures token == StoredToken(storage)
    {
      token := if TokenKey in storage then Some(storage[TokenKey]) else None;
    }

    /** apiUtils.removeToken: localStorage.removeItem('Token'). */
    method RemoveToken()
      modifies this
      ensures storage == old(storage) - {TokenKey}
    {
      storage := storage - {TokenKey};
    }

    /** apiUtils.isAuthenticated: `!!this.getToken()`. */
    method IsAuthenticated() returns (authenticated: bool)
      ensures authenticated <==> HasToken(storage)
    {
      var token := GetToken();
      authenticated := token.Some? && token.value != "";
    }

    /**
     * getAuthHeaders: always JSON content, plus a bearer Authorization
     * header exactly when a non-empty token is stored.
     */
    function AuthHeaders(): (headers: seq<Header>)
      reads this
      ensures |headers| >= 1 && headers[0] == JsonContentType
      ensures HeaderValue(headers, "Content-Type") == Some("application/json")
      ensures HeaderValue(headers, "Authorization") ==
        if HasToken(storage) then Some("Bearer " + storage[TokenKey]) else None
    {
      var token := StoredToken(storage);
      if token.Some? && token.value != "" then
        [JsonContentType, Header("Authorization", "Bearer " + token.value)]
      else
        [JsonContentType]
    }
  }

  /** After saveToken(t), getToken() answers t. */
  method SaveThenGet(store: TokenStore, token: string) returns (read: Option<string>)
    modifies store
    ensures read == Some(token)
    ensures store.storage == old(store.storage)[TokenKey := token]
  {
    store.SaveToken(token);
    read := store.GetToken();
  }

  /** After removeToken(), getToken() answers null and isAuthenticated() false. */
  method RemoveThenCheck(store: TokenStore) returns (read: Option<string>, authenticated: bool)
    modifies store
    ensures read == None && !authenticated
    ensures store.storage == old(store.storage) - {TokenKey}
  {
    store.RemoveToken();
    read := store.GetToken();
    authenticated := store.IsAuthenticated();
  }

  /** `${API_BASE_URL}`: an unset environment variable prints as "undefined". */
  function BaseUrl(apiBase: Option<string>): string {
    if apiBase.Some? then apiBase.value else "undefined"
  }

  /** The body of the registration request (the parameter of authApi.register). */
  datatype RegistrationData = RegistrationData(
    username: string,
    walletId: string,
    avatarId: string,
    bannerId: string,
    favoriteChain: seq<string>)

  datatype RequestBody =
    | NoBody
    | LoginBody(userId: string, walletId: string)
    | RegisterBody(data: RegistrationData)

  datatype Request = Request(verb: string, url: string, headers: seq<Header>, body: RequestBody)

  /** authApi.login: a POST with a JSON body and no Authorization header. */
  function LoginRequest(apiBase: Option<string>, walletId: string): (r: Request)
    ensures r.verb == "POST" && r.url == BaseUrl(apiBase) + "/auth/login"
    ensures r.body == LoginBody("", walletId)
    ensures HeaderValue(r.headers, "Content-Type") == Some("application/json")
    ensures HeaderValue(r.headers, "Authorization") == None
  {
    Request("POST", BaseUrl(apiBase) + "/auth/login", [JsonContentType], LoginBody("", walletId))
  }

  /** authApi.register: a POST of the registration data, with no Authorization header. */
  function RegisterRequest(apiBase: Option<string>, data: RegistrationData): (r: Request)
    ensures r.verb == "POST" && r.url == BaseUrl(apiBase) + "/auth/register"
    ensures r.body == RegisterBody(data)
    ensures HeaderValue(r.headers, "Content-Type") == Some("application/json")
    ensures HeaderValue(r.headers, "Authorization") == None
  {
    Request("POST", BaseUrl(apiBase) + "/auth/register", [JsonContentType], RegisterBody(data))
  }

  /** authApi.getMe and authApi.getAllUsers: GETs carrying the auth headers. */
  function AuthorizedGet(url: string, store: TokenStore): (r: Request)
    reads store
    ensures r.verb == "GET" && r.url == url && r.body == NoBody
    ensures HeaderValue(r.headers, "Authorization") ==
      if HasToken(store.storage) then Some("Bearer " + store.storage[TokenKey]) else None
  {
    Request("GET", url, store.AuthHeaders(), NoBody)
  }

  /** The ApiResponse<T> wrapper of the backend. */
  datatype ApiResponse<T> = ApiResponse(success: bool, data: Option<T>, message: Option<string>)

  const InvalidResponse := "Invalid response format"

  /** The unwrap in authApi.getMe: the data only when success is true and data is present. */
  function UnwrapProfile<T>(response: ApiResponse<T>): (r: Result<T, string>)
    ensures r.Success? <==> response.success && response.data.Some?
    ensures r.Success? ==> r.value == response.data.value
    ensures r.Failure? ==> r.error == InvalidResponse
  {
    if response.success && response.data.Some? then Success(response.data.value)
    else Failure(InvalidResponse)
  }

  const ProfileFailedPrefix := "Failed to fetch profile: "
  const LoginFailedPrefix := "Login failed: "
  const RegistrationFailedPrefix := "Registration failed: "
  const GameHistoryFailedPrefix := "Failed to fetch game history: "

  /**
   * The error messages that report a status: a prefix, the status numeral
   * and a rest that does not start with a digit. The status can be read
   * back from the message.
   */
  lemma FailureStatusReadsBack(prefix: string, status: nat, rest: string)
    requires rest == [] || !IsDigit(rest[0])
    ensures var m := prefix + NatToString(status) + rest;
      m[..|prefix|] == prefix && DigitsValue(LeadingDigits(m[|prefix|..])) == status
  {
    var m := prefix + NatToString(status) + rest;
    assert m[|prefix|..] == NatToString(status) + rest;
    LeadingDigitsOfNumeral(NatToString(status), rest);
    NatToStringRoundTrip(status);
  }

  /**
   * authApi.login and authApi.register, given the reply and the text of its
   * body: a non-ok status is reported with the status and that text,
   * otherwise the parsed JSON body is the result.
   */
  function PostOutcome<T>(prefix: string, reply: Reply<T>, errorText: string): (r: Result<T, string>)
    ensures reply.Rejected? ==> r == Failure(reply.message)
    ensures reply.Response? && !reply.Ok() ==>
      && r.Failure?
      && r.error == prefix + NatToString(reply.status) + " - " + errorText
      && r.error[..|prefix|] == prefix
      && DigitsValue(LeadingDigits(r.error[|prefix|..])) == reply.status
    ensures reply.Ok() ==> r == reply.body
  {
    match reply
    case Rejected(message) => Failure(message)
    case Response(status, body) =>
      if reply.Ok() then body
      else
        FailureStatusReadsBack(prefix, status, " - " + errorText);
        assert prefix + NatToString(status) + " - " + errorText == prefix + NatToString(status) + (" - " + errorText);
        Failure(prefix + NatToString(status) + " - " + errorText)
  }

  /** userApi.getUserGameHistory's handling of the reply: a non-ok status is reported with the status. */
  function GameHistoryOutcome<T>(reply: Reply<T>): (r: Result<T, string>)
    ensures reply.Rejected? ==> r == Failure(reply.message)
    ensures reply.Response? && !reply.Ok() ==>
      && r.Failure?
      && r.error == GameHistoryFailedPrefix + NatToString(reply.status)
      && r.error[..|GameHistoryFailedPrefix|] == GameHistoryFailedPrefix
      && DigitsValue(LeadingDigits(r.error[|GameHistoryFailedPrefix|..])) == reply.status
    ensures reply.Ok() ==> r == reply.body
  {
    match reply
    case Rejected(message) => Failure(message)
    case Response(status, body) =>
      if reply.Ok() then body
      else
        FailureStatusReadsBack(GameHistoryFailedPrefix, status, "");
        assert GameHistoryFailedPrefix + NatToString(status) + "" == GameHistoryFailedPrefix + NatToString(status);
        Failure(GameHistoryFailedPrefix + NatToString(status))
  }

  /** authApi.getMe, given the reply to its request. */
  method GetMe<T>(reply: Reply<ApiResponse<T>>) returns (r: Result<T, string>)
    ensures reply.Rejected? ==> r == Failure(reply.message)
    ensures reply.Response? && !reply.Ok() ==>
      r == Failure(ProfileFailedPrefix + NatToString(reply.status))
    ensures reply.Ok() && reply.body.Failure? ==> r == Failure(reply.body.error)
    ensures reply.Ok() && reply.body.Success? ==> r == UnwrapProfile(reply.body.value)
  {
    if reply.Rejected? {
      return Failure(reply.message);
    }
    if !reply.Ok() {
      return Failure(ProfileFailedPrefix + NatToString(reply.status));
    }
    if reply.body.Failure? {
      return Failure(reply.body.error);
    }
    var data := reply.body.value;
    if data.success && data.data.Some? {
      r := Success(data.data.value);
    } else {
      r := Failure(InvalidResponse);
    }
  }

  /**
   * authApi.getAllUsers, given the reply to its request: usersArray is
   * chosen step by step and then sorted in place.
   */
  method GetAllUsers(reply: Reply<Body>) returns (r: Result<seq<User>, string>)
    ensures r == UsersFromReply(reply)
  {
    if reply.Rejected? {
      return Failure(reply.message);
    }
    if !reply.Ok() {
      return Failure(FetchFailed);
    }
    if reply.body.Failure? {
      return Failure(reply.body.error);
    }
    var data := reply.body.value;
    var usersArray: seq<User> := [];
    if data.JsonArray? {
      usersArray := data.items;
    } else if data.JsonObject? && data.users.Some? {
      usersArray := data.users.value;
    } else if data.JsonObject? && data.data.Some? {
      usersArray := data.data.value;
    } else {
      return Failure(InvalidFormat);
    }
    var a := new User[|usersArray|](i requires 0 <= i < |usersArray| => usersArray[i]);
    assert a[..] == usersArray;
    SortInPlace(a);
    r := Success(a[..]);
  }

  /** The game-history URL: the user id as a path segment if set, the limit as a query if non-zero. */
  function GameHistoryUrl(apiBase: Option<string>, userId: Option<string>, limit: Option<int>): string {
    BaseUrl(apiBase) + "/user/game-history"
      + (if Truthy(userId) then "/" + userId.value else "")
      + (if limit.Some? && limit.value != 0 then "?limit=" + IntToString(limit.value) else "")
  }

  /** The URL userApi.getUserGameHistory builds with successive `+=`. */
  method BuildGameHistoryUrl(apiBase: Option<string>, userId: Option<string>, limit: Option<int>)
    returns (url: string)
    ensures url == GameHistoryUrl(apiBase, userId, limit)
  {
    ghost var segment := if Truthy(userId) then "/" + userId.value else "";
    ghost var query := if limit.Some? && limit.value != 0 then "?limit=" + IntToString(limit.value) else "";
    url := BaseUrl(apiBase) + "/user/game-history";
    ghost var path := url;
    if userId.Some? && userId.value != "" {
      url := url + "/" + userId.value;
      assert url == path + segment;
    }
    ghost var prefix := url;
    if limit.Some? && limit.value != 0 {
      url := url + "?limit=" + IntToString(limit.value);
      assert url == prefix + query;
    }
    assert url == path + segment + query;
  }

  /** The index of the first c in s, if any. */
  function IndexOf(s: string, c: char): (r: Option<nat>)
    ensures r.Some? ==> r.value < |s| && s[r.value] == c && c !in s[..r.value]
    ensures r.None? ==> c !in s
  {
    if s == [] then None
    else if s[0] == c then Some(0)
    else
      var r := IndexOf(s[1..], c);
      assert s == [s[0]] + s[1..];
      if r.Some? then
        assert s[..r.value + 1] == [s[0]] + s[1..][..r.value];
        Some(r.value + 1)
      else None
  }

  lemma IndexOfFirst(s: string, c: char, i: nat)
    requires i < |s| && s[i] == c && c !in s[..i]
    ensures IndexOf(s, c) == Some(i)
  {
    assert s[i] in s;
  }

  /**
   * When neither the base URL nor the user id holds a '?', the query part of
   * the game-history URL is present exactly when the limit is non-zero, and
   * it reads back as that limit; the path is the base, the endpoint and the
   * user id segment.
   */
  lemma GameHistoryUrlRoundTrip(apiBase: Option<string>, userId: Option<string>, limit: Option<int>)
    requires '?' !in BaseUrl(apiBase)
    requires userId.Some? ==> '?' !in userId.value
    ensures var url := GameHistoryUrl(apiBase, userId, limit);
      var path := BaseUrl(apiBase) + "/user/game-history" + (if Truthy(userId) then "/" + userId.value else "");
      && url[..|path|] == path
      && (IndexOf(url, '?').Some? <==> limit.Some? && limit.value != 0)
      && (IndexOf(url, '?').Some? ==>
            IndexOf(url, '?').value == |path|
            && url[|path|..|path| + 7] == "?limit="
            && |url| > |path| + 7
            && IntValue(url[|path| + 7..]) == limit.value)
  {
    var url := GameHistoryUrl(apiBase, userId, limit);
    var path := BaseUrl(apiBase) + "/user/game-history" + (if Truthy(userId) then "/" + userId.value else "");
    assert '?' !in path;
    if limit.Some? && limit.value != 0 {
      var digits := IntToString(limit.value);
      assert url == path + "?limit=" + digits;
      assert url[..|path|] == path;
      IndexOfFirst(url, '?', |path|);
      assert url[|path| + 7..] == digits;
      IntToStringRoundTrip(limit.value);
    } else {
      assert url == path;
    }
  }
}

/** Request construction in `api_request` and the session lookup of
    `get_user_token`. The HTTP call itself is not modelled: a built request
    is what `requests` would be handed. */
module Api {
  import opened Text
  import opened Wrappers

  datatype Verb = Get | Post | Patch

  type Header = (string, string)

  datatype Request = Request(verb: Verb, url: string, headers: seq<Header>)

  /** A built request, or the error string `api_request` returns instead. */
  datatype Built = Built(request: Request) | Refused(error: string)

  /** The value of the first header called `name`, as a dictionary lookup. */
  function HeaderValue(h: seq<Header>, name: string): Option<string> {
    if h == [] then None
    else if h[0].0 == name then Some(h[0].1)
    else HeaderValue(h[1..], name)
  }

  /** Python truthiness of an optional string: present and non-empty. */
  predicate Truthy(s: Option<string>) {
    s.Some? && s.value != []
  }

  /** The header dictionary: always the JSON content type, first; the
      `Authorization` token header only for a truthy token; the bot key
      header only for a non-empty key. Every header name occurs once, and
      there is no other header. */
  function Headers(token: Option<string>, botKey: string): (h: seq<Header>)
    ensures h != [] && h[0] == ("Content-Type", "application/json")
    ensures HeaderValue(h, "Authorization") == (if Truthy(token) then Some("Token " + token.value) else None)
    ensures HeaderValue(h, "X-Bot-Key") == (if botKey != [] then Some(botKey) else None)
    ensures forall i, j :: 0 <= i < j < |h| ==> h[i].0 != h[j].0
    ensures |h| == 1 + (if Truthy(token) then 1 else 0) + (if botKey != [] then 1 else 0)
  {
    var auth := if Truthy(token) then [("Authorization", "Token " + token.value)] else [];
    var key := if botKey != [] then [("X-Bot-Key", botKey)] else [];
    var h := [("Content-Type", "application/json")] + auth + key;
    assert "Content-Type"[0] == 'C' && "Authorization"[0] == 'A' && "X-Bot-Key"[0] == 'X';
    assert h[1..] == auth + key;
    assert HeaderValue(key, "Authorization") == None;
    assert HeaderValue(key, "X-Bot-Key") == (if botKey != [] then Some(botKey) else None);
    assert HeaderValue(auth + key, "X-Bot-Key") == HeaderValue(key, "X-Bot-Key");
    assert auth != [] ==> (auth + key)[1..] == key;
    h
  }

  /** The endpoint URL: the base, one '/', then the endpoint with every
      leading '/' removed. */
  function EndpointUrl(base: string, endpoint: string): (url: string)
    ensures |base| + 1 <= |url| <= |base| + 1 + |endpoint|
    ensures url[..|base| + 1] == base + "/"
    ensures |url| == |base| + 1 || url[|base| + 1] != '/'
    ensures url[|base| + 1..] == endpoint[|endpoint| - (|url| - |base| - 1)..]
    ensures forall k :: 0 <= k < |endpoint| - (|url| - |base| - 1) ==> endpoint[k] == '/'
  {
    var rest := LStrip(endpoint, '/');
    var url := base + "/" + rest;
    assert url[..|base| + 1] == base + "/";
    assert url[|base| + 1..] == rest;
    url
  }

  /** `method.upper()` matched against the three supported verbs. */
  function VerbOf(verb: string): Option<Verb> {
    var m := Upper(verb);
    if m == "GET" then Some(Get)
    else if m == "POST" then Some(Post)
    else if m == "PATCH" then Some(Patch)
    else None
  }

  /** `api_request` up to the network call. */
  function ApiRequest(verbName: string, base: string, endpoint: string, token: Option<string>, botKey: string): (r: Built)
    ensures r.Refused? <==> VerbOf(verbName).None?
    ensures r.Refused? ==> r.error == "Invalid method"
    ensures r.Built? ==> r.request == Request(VerbOf(verbName).value, EndpointUrl(base, endpoint), Headers(token, botKey))
  {
    match VerbOf(verbName)
    case None => Refused("Invalid method")
    case Some(v) => Built(Request(v, EndpointUrl(base, endpoint), Headers(token, botKey)))
  }

  /** Leading slashes on the endpoint make no difference to the URL. */
  lemma {:induction false} LeadingSlashesIgnored(base: string, slashes: string, endpoint: string)
    requires forall i :: 0 <= i < |slashes| ==> slashes[i] == '/'
    ensures EndpointUrl(base, slashes + endpoint) == EndpointUrl(base, endpoint)
    decreases |slashes|
  {
    if slashes != [] {
      assert (slashes + endpoint)[0] == '/';
      assert (slashes + endpoint)[1..] == slashes[1..] + endpoint;
      assert LStrip(slashes + endpoint, '/') == LStrip(slashes[1..] + endpoint, '/');
      LeadingSlashesIgnored(base, slashes[1..], endpoint);
    } else {
      assert slashes + endpoint == endpoint;
    }
  }

  /** The verb is matched without regard to case. */
  lemma VerbCaseInsensitive()
    ensures VerbOf("get") == Some(Get) && VerbOf("Post") == Some(Post) && VerbOf("patch") == Some(Patch)
    ensures VerbOf("DELETE") == None
  {
  }

  /** A logged-in user: what the login response returned, and the email used. */
  datatype UserSession = UserSession(token: Option<string>, username: Option<string>, userId: Option<int>, email: Option<string>)

  /** The stored token of a logged-in user, `None` for anyone else. */
  function GetUserToken(sessions: map<int, UserSession>, telegramId: int): Option<string> {
    if telegramId in sessions then sessions[telegramId].token else None
  }
}

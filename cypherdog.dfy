/**
 * The `CypherDog` client of scripts/cypherdog15.py: a thin wrapper around the
 * BloodHound REST API that logs in once, caches the returned token in the
 * session's Authorization header, posts Cypher text to `/api/v1/cypher` and
 * projects one column out of the returned records.
 *
 * The HTTP session is replaced by two things: the requests the client sends
 * are appended to `posts`, and the server's answer to each request is a
 * `Response` passed in by the caller (the oracle). Whether the Cypher text is
 * valid and what the server answers are not modelled.
 */
module BloodHoundApi {
  import opened Wrappers
  import opened Strings
  import opened JsonValue

  // ---------------------------------------------------------------------------
  // The base URI
  // ---------------------------------------------------------------------------

  /** Python's `s.rstrip('/')`. */
  function StripSlashes(s: string): (r: string)
    ensures r <= s
    ensures r == [] || r[|r| - 1] != '/'
    ensures forall i :: |r| <= i < |s| ==> s[i] == '/'
  {
    if s != [] && s[|s| - 1] == '/' then StripSlashes(s[..|s| - 1]) else s
  }

  /** The stripped text is the unique split of `s` into a part that does not
      end in '/' and a run of '/'. */
  lemma StripSlashesUnique(s: string, t: string)
    requires t <= s && (t == [] || t[|t| - 1] != '/')
    requires forall i :: |t| <= i < |s| ==> s[i] == '/'
    ensures StripSlashes(s) == t
  {
    var r := StripSlashes(s);
    assert t != [] ==> s[|t| - 1] == t[|t| - 1];
    assert |r| >= |t|;
    assert r != [] ==> s[|r| - 1] == r[|r| - 1];
    assert |t| >= |r|;
  }

  lemma StripSlashesIdempotent(s: string)
    ensures StripSlashes(StripSlashes(s)) == StripSlashes(s)
  {
    StripSlashesUnique(StripSlashes(s), StripSlashes(s));
  }

  // ---------------------------------------------------------------------------
  // Query text
  // ---------------------------------------------------------------------------

  /** `f":{t}" if t else ""`: a label or relationship type when one is given
      and non-empty. */
  function TypeSuffix(t: Option<string>): (r: string)
    ensures r == "" <==> t.None? || t.value == ""
  {
    if t.Some? && t.value != "" then ":" + t.value else ""
  }

  /** Two optional types give the same suffix exactly when both are absent or
      empty, or both are the same non-empty name. */
  lemma TypeSuffixInjective(a: Option<string>, b: Option<string>)
    ensures TypeSuffix(a) == TypeSuffix(b) <==> (TypeSuffix(a) == "" && TypeSuffix(b) == "") || (a == b && a.Some? && a.value != "")
  {
    if TypeSuffix(a) == TypeSuffix(b) && TypeSuffix(a) != "" {
      assert TypeSuffix(a)[1..] == a.value;
      assert TypeSuffix(b)[1..] == b.value;
    }
  }

  const NodesPrefix := "MATCH (n"
  const NodesSuffix := ") RETURN n"
  const EdgesPrefix := "MATCH ()-[r"
  const EdgesSuffix := "]-() RETURN r"
  const PathsPrefix := "MATCH p=shortestPath((a)-[*.."
  const PathsSuffix := "-(b)) WHERE a.name = $start AND b.name = $end RETURN p"

  /** `get_nodes`: every node, or the nodes with one label. */
  function NodesQuery(nodeType: Option<string>): string {
    NodesPrefix + TypeSuffix(nodeType) + NodesSuffix
  }

  /** `get_edges`: every relationship, or the relationships of one type. */
  function EdgesQuery(edgeType: Option<string>): string {
    EdgesPrefix + TypeSuffix(edgeType) + EdgesSuffix
  }

  /** `get_node`: the node of a label with a given name, bound as `$name`. */
  function NodeQuery(nodeType: string): string {
    "MATCH (n:" + nodeType + " {name: $name}) RETURN n"
  }

  /** `get_paths`: a shortest path of at most `maxDepth` hops between the
      nodes named `$start` and `$end`; the relationship type lands after the
      closing bracket. */
  function PathsQuery(relType: Option<string>, maxDepth: int): string {
    PathsPrefix + (IntToDecimal(maxDepth) + "]" + (TypeSuffix(relType) + PathsSuffix))
  }

  /** Text between a fixed prefix and suffix determines the middle. */
  lemma Framed(p: string, a: string, b: string, q: string)
    requires p + a + q == p + b + q
    ensures a == b
  {
    var s := p + a + q;
    assert a == s[|p|..|p| + |a|];
    assert b == (p + b + q)[|p|..|p| + |b|];
  }

  lemma DropPrefix(p: string, a: string, b: string)
    requires p + a == p + b
    ensures a == b
  {
    assert a == (p + a)[|p|..];
    assert b == (p + b)[|p|..];
  }

  lemma DropSuffix(a: string, b: string, q: string)
    requires a + q == b + q
    ensures a == b
  {
    assert a == (a + q)[..|a|];
    assert b == (b + q)[..|b|];
  }

  /** The node query names the label asked for, and only that one. */
  lemma NodesQueryInjective(a: Option<string>, b: Option<string>)
    ensures NodesQuery(a) == NodesQuery(b) <==> TypeSuffix(a) == TypeSuffix(b)
  {
    if NodesQuery(a) == NodesQuery(b) {
      Framed(NodesPrefix, TypeSuffix(a), TypeSuffix(b), NodesSuffix);
    }
  }

  lemma EdgesQueryInjective(a: Option<string>, b: Option<string>)
    ensures EdgesQuery(a) == EdgesQuery(b) <==> TypeSuffix(a) == TypeSuffix(b)
  {
    if EdgesQuery(a) == EdgesQuery(b) {
      Framed(EdgesPrefix, TypeSuffix(a), TypeSuffix(b), EdgesSuffix);
    }
  }

  /** A rendered number has no ']' in it. */
  lemma DecimalHasNoBracket(n: int)
    ensures forall i :: 0 <= i < |IntToDecimal(n)| ==> IntToDecimal(n)[i] != ']'
  {
    IntToDecimalRoundTrip(n);
  }

  /** Two texts that each start with a ']'-free part followed by ']' agree on
      that part when they are equal. */
  lemma SplitAtBracket(x: string, y: string, u: string, v: string)
    requires forall i :: 0 <= i < |x| ==> x[i] != ']'
    requires forall i :: 0 <= i < |y| ==> y[i] != ']'
    requires x + "]" + u == y + "]" + v
    ensures x == y && u == v
  {
    var s := x + "]" + u;
    assert s == y + "]" + v;
    assert s[|x|] == ']';
    assert s[|y|] == ']';
    assert |x| == |y|;
    assert x == s[..|x|];
    assert y == (y + "]" + v)[..|y|];
    assert u == s[|x| + 1..];
    assert v == (y + "]" + v)[|y| + 1..];
  }

  /** The path query carries the depth bound and the relationship type asked
      for: the depth reads back from the text as the number given. */
  lemma PathsQueryInjective(r1: Option<string>, m1: int, r2: Option<string>, m2: int)
    ensures PathsQuery(r1, m1) == PathsQuery(r2, m2) <==> m1 == m2 && TypeSuffix(r1) == TypeSuffix(r2)
  {
    if PathsQuery(r1, m1) == PathsQuery(r2, m2) {
      var d1, d2 := IntToDecimal(m1), IntToDecimal(m2);
      var t1, t2 := TypeSuffix(r1) + PathsSuffix, TypeSuffix(r2) + PathsSuffix;
      DropPrefix(PathsPrefix, d1 + "]" + t1, d2 + "]" + t2);
      DecimalHasNoBracket(m1);
      DecimalHasNoBracket(m2);
      SplitAtBracket(d1, d2, t1, t2);
      IntToDecimalRoundTrip(m1);
      IntToDecimalRoundTrip(m2);
      DropSuffix(TypeSuffix(r1), TypeSuffix(r2), PathsSuffix);
    }
  }

  // ---------------------------------------------------------------------------
  // Projecting the records of a result
  // ---------------------------------------------------------------------------

  /** The exceptions the client can raise, by Python class. `Failed` is the
      client's own `Exception` carrying the response text. */
  datatype Raised =
    | AttributeError                // `.get` on a decoded body that is not an object
    | TypeError                     // iterating or subscripting the wrong kind of value
    | KeyError(key: Json)           // a missing key (or index `0` of an object)
    | JsonDecodeError               // `response.json()` on a body that is not JSON
    | Failed(message: string)

  /** `record[key]`. */
  function Field(record: Json, key: string): (r: Result<Json, Raised>)
    ensures r.Success? <==> record.JObj? && key in record.fields
    ensures r.Success? ==> r.value == record.fields[key]
  {
    match record
    case JObj(fields) => if key in fields then Success(fields[key]) else Failure(KeyError(JStr(key)))
    case _ => Failure(TypeError)
  }

  predicate HasField(record: Json, key: string) {
    record.JObj? && key in record.fields
  }

  /** `[record[key] for record in records]`, stopping at the first record
      that raises. */
  function Column(records: seq<Json>, key: string): (r: Result<seq<Json>, Raised>)
    ensures r.Success? <==> forall i :: 0 <= i < |records| ==> HasField(records[i], key)
    ensures r.Success? ==> |r.value| == |records|
                           && forall i :: 0 <= i < |records| ==> r.value[i] == records[i].fields[key]
    ensures r.Failure? ==>
              exists i :: 0 <= i < |records| && !HasField(records[i], key)
                          && (forall j :: 0 <= j < i ==> HasField(records[j], key))
                          && Failure(r.error) == Field(records[i], key)
  {
    if records == [] then Success([])
    else
      match Field(records[0], key)
      case Failure(e) => Failure(e)
      case Success(x) =>
        match Column(records[1..], key)
        case Failure(e) => Failure(e)
        case Success(xs) => Success([x] + xs)
  }

  /** `result.get("data", [])`. */
  function Data(result: Json): (r: Result<Json, Raised>)
    ensures r.Success? <==> result.JObj?
  {
    match result
    case JObj(fields) => Success(if "data" in fields then fields["data"] else JArr([]))
    case _ => Failure(AttributeError)
  }

  predicate HasDataList(result: Json) {
    result.JObj? && "data" in result.fields && result.fields["data"].JArr?
  }

  /** `[record[key] for record in result.get("data", [])]`: the list getters.
      An empty string or object iterates as nothing; any other non-list
      raises. */
  function Project(result: Json, key: string): (r: Result<seq<Json>, Raised>)
    ensures result.JObj? && "data" !in result.fields ==> r == Success([])
    ensures HasDataList(result) ==>
              var items := result.fields["data"].items;
              (r.Success? <==> forall i :: 0 <= i < |items| ==> HasField(items[i], key))
              && (r.Success? ==> |r.value| == |items| && forall i :: 0 <= i < |items| ==> r.value[i] == items[i].fields[key])
    ensures r.Success? && !HasDataList(result) ==> r.value == []
  {
    match Data(result)
    case Failure(e) => Failure(e)
    case Success(data) =>
      match data
      case JArr(items) => Column(items, key)
      case JStr(s) => if s == "" then Success([]) else Failure(TypeError)
      case JObj(fields) => if fields == map[] then Success([]) else Failure(TypeError)
      case _ => Failure(TypeError)
  }

  /** `get_node`'s `result["data"][0][key] if result.get("data") else None`. */
  function First(result: Json, key: string): (r: Result<Option<Json>, Raised>)
    ensures r == Success(None) <==> result.JObj? && ("data" !in result.fields || !Truthy(result.fields["data"]))
  {
    match Data(result)
    case Failure(e) => Failure(e)
    case Success(data) =>
      if !("data" in result.fields) || !Truthy(data) then Success(None)
      else
        match data
        case JArr(items) =>
          (match Field(items[0], key)
           case Failure(e) => Failure(e)
           case Success(x) => Success(Some(x)))
        case JObj(_) => Failure(KeyError(JNum(0)))
        case _ => Failure(TypeError)
  }

  /** Where the list projection succeeds, `get_node` returns its first
      element, or None when it is empty. */
  lemma FirstIsHeadOfProject(result: Json, key: string)
    requires Project(result, key).Success?
    ensures var xs := Project(result, key).value;
            First(result, key) == Success(if xs == [] then None else Some(xs[0]))
  {
  }

  // ---------------------------------------------------------------------------
  // The session: token cache and requests
  // ---------------------------------------------------------------------------

  /** One POST of the session: where it went, its JSON payload, and the token
      of the `Authorization: Bearer ...` header it carried, if any. */
  datatype Post = Post(url: string, payload: Json, bearer: Option<Json>)

  /** The server's answer: status code, the decoded body (None when the body
      is not JSON), and the raw text used in error messages. */
  datatype Response = Response(status: int, body: Option<Json>, text: string)

  /** The client's fields. `token` starts as `None` (JSON null); `bearer` is
      the token in the session's headers. */
  datatype Client = Client(uri: string, username: string, password: string, token: Json, bearer: Option<Json>,
                           posts: seq<Post>)

  /** A call's result and the client state after it. */
  datatype Step<T> = Step(result: Result<T, Raised>, client: Client)

  /** `__init__`. */
  function Init(uri: string, username: string, password: string): (c: Client)
    ensures c.token == JNull && c.bearer == None && c.posts == []
    ensures c.uri == StripSlashes(uri)
  {
    Client(StripSlashes(uri), username, password, JNull, None, [])
  }

  function AuthPost(c: Client): Post {
    Post(c.uri + "/user/authenticate",
         JObj(map["username" := JStr(c.username), "password" := JStr(c.password)]), c.bearer)
  }

  /** `{"query": cypher}`, with `"parameters"` only when `params` is non-empty. */
  function Payload(cypher: string, params: map<string, Json>): (j: Json)
    ensures j.JObj? && "query" in j.fields && j.fields["query"] == JStr(cypher)
    ensures "parameters" in j.fields <==> params != map[]
    ensures "parameters" in j.fields ==> j.fields["parameters"] == JObj(params)
    ensures j.fields.Keys <= {"query", "parameters"}
  {
    if params != map[] then JObj(map["query" := JStr(cypher), "parameters" := JObj(params)])
    else JObj(map["query" := JStr(cypher)])
  }

  function QueryPost(c: Client, cypher: string, params: map<string, Json>): Post {
    Post(c.uri + "/api/v1/cypher", Payload(cypher, params), c.bearer)
  }

  /** `response.json()`. */
  function Decode(resp: Response): Result<Json, Raised> {
    if resp.body.Some? then Success(resp.body.value) else Failure(JsonDecodeError)
  }

  /** `authenticate`: post the credentials; on 200 cache the `jwt` of the
      answer as the token and as the Bearer header, otherwise raise. */
  function Authenticate(c: Client, resp: Response): Step<()> {
    var sent := c.(posts := c.posts + [AuthPost(c)]);
    if resp.status != 200 then Step(Failure(Failed("Authentication failed: " + resp.text)), sent)
    else
      match Decode(resp)
      case Failure(e) => Step(Failure(e), sent)
      case Success(body) =>
        match Field(body, "jwt")
        case Failure(e) => Step(Failure(e), sent)
        case Success(t) => Step(Success(()), sent.(token := t, bearer := Some(t)))
  }

  /** `run_cypher`: authenticate first when the token is unset (or falsy),
      then post the query; a 200 answer is returned decoded, anything else
      raises. `authResp` answers the login, `queryResp` the query. */
  function RunCypher(c: Client, cypher: string, params: map<string, Json>, authResp: Response, queryResp: Response)
    : Step<Json>
  {
    var auth := if Truthy(c.token) then Step(Success(()), c) else Authenticate(c, authResp);
    if auth.result.Failure? then Step(Failure(auth.result.error), auth.client)
    else
      var a := auth.client;
      var sent := a.(posts := a.posts + [QueryPost(a, cypher, params)]);
      if queryResp.status != 200 then Step(Failure(Failed("Cypher query failed: " + queryResp.text)), sent)
      else Step(Decode(queryResp), sent)
  }

  /** A query whose answer was decoded, then projected. */
  function ThenProject<T>(st: Step<Json>, proj: Json -> Result<T, Raised>): Step<T> {
    match st.result
    case Failure(e) => Step(Failure(e), st.client)
    case Success(j) => Step(proj(j), st.client)
  }

  function ProjectOn(key: string): Json -> Result<seq<Json>, Raised> {
    j => Project(j, key)
  }

  function FirstOn(key: string): Json -> Result<Option<Json>, Raised> {
    j => First(j, key)
  }

  function GetNodes(c: Client, nodeType: Option<string>, authResp: Response, queryResp: Response): Step<seq<Json>> {
    ThenProject(RunCypher(c, NodesQuery(nodeType), map[], authResp, queryResp), ProjectOn("n"))
  }

  function GetNode(c: Client, nodeType: string, name: string, authResp: Response, queryResp: Response)
    : Step<Option<Json>>
  {
    ThenProject(RunCypher(c, NodeQuery(nodeType), map["name" := JStr(name)], authResp, queryResp), FirstOn("n"))
  }

  function GetEdges(c: Client, edgeType: Option<string>, authResp: Response, queryResp: Response): Step<seq<Json>> {
    ThenProject(RunCypher(c, EdgesQuery(edgeType), map[], authResp, queryResp), ProjectOn("r"))
  }

  function GetPaths(c: Client, start: string, end: string, relType: Option<string>, maxDepth: int,
                    authResp: Response, queryResp: Response): Step<seq<Json>>
  {
    ThenProject(RunCypher(c, PathsQuery(relType, maxDepth), map["start" := JStr(start), "end" := JStr(end)],
                          authResp, queryResp),
                ProjectOn("p"))
  }

  // ---------------------------------------------------------------------------
  // Properties of the session
  // ---------------------------------------------------------------------------

  /** The session header always carries the cached token, once there is one. */
  predicate HeaderMatchesToken(c: Client) {
    (c.token == JNull && c.bearer == None) || c.bearer == Some(c.token)
  }

  lemma AuthenticateKeepsHeader(c: Client, resp: Response)
    requires HeaderMatchesToken(c)
    ensures HeaderMatchesToken(Authenticate(c, resp).client)
    ensures Authenticate(c, resp).client.posts == c.posts + [AuthPost(c)]
    ensures Authenticate(c, resp).result.Success? <==>
              resp.status == 200 && resp.body.Some? && HasField(resp.body.value, "jwt")
    ensures Authenticate(c, resp).result.Success? ==>
              Authenticate(c, resp).client.token == resp.body.value.fields["jwt"]
    ensures Authenticate(c, resp).result.Failure? ==> Authenticate(c, resp).client.token == c.token
  {
  }

  /** With a token cached, a query makes exactly one request, the query
      itself, and it carries the token. */
  lemma CachedTokenSkipsLogin(c: Client, cypher: string, params: map<string, Json>, authResp: Response,
                              queryResp: Response)
    requires HeaderMatchesToken(c) && Truthy(c.token)
    ensures var st := RunCypher(c, cypher, params, authResp, queryResp);
            st.client.posts == c.posts + [Post(c.uri + "/api/v1/cypher", Payload(cypher, params), Some(c.token))]
            && st.client.token == c.token
  {
  }

  /** Without a token, the login comes first; the query is sent only when the
      login succeeded, and then with the new token. */
  lemma MissingTokenLogsInFirst(c: Client, cypher: string, params: map<string, Json>, authResp: Response,
                                queryResp: Response)
    requires HeaderMatchesToken(c) && !Truthy(c.token)
    ensures var st := RunCypher(c, cypher, params, authResp, queryResp);
            var a := Authenticate(c, authResp);
            |st.client.posts| > |c.posts| && st.client.posts[|c.posts|] == AuthPost(c)
            && (a.result.Failure? ==> st.result == Failure(a.result.error) && st.client.posts == c.posts + [AuthPost(c)])
            && (a.result.Success? ==>
                  st.client.posts == c.posts + [AuthPost(c), QueryPost(a.client, cypher, params)]
                  && QueryPost(a.client, cypher, params).bearer == Some(a.client.token))
  {
    var a := Authenticate(c, authResp);
    AuthenticateKeepsHeader(c, authResp);
    if a.result.Success? {
      assert c.posts + [AuthPost(c)] + [QueryPost(a.client, cypher, params)]
             == c.posts + [AuthPost(c), QueryPost(a.client, cypher, params)];
    }
  }

  /** A query that went through with a truthy token leaves it cached: the
      next query does not log in again. */
  lemma SecondQueryReusesToken(c: Client, q1: string, p1: map<string, Json>, a1: Response, r1: Response,
                               q2: string, p2: map<string, Json>, a2: Response, r2: Response)
    requires HeaderMatchesToken(c)
    requires RunCypher(c, q1, p1, a1, r1).result.Success? && Truthy(RunCypher(c, q1, p1, a1, r1).client.token)
    ensures var c1 := RunCypher(c, q1, p1, a1, r1).client;
            RunCypher(c1, q2, p2, a2, r2).client.posts
              == c1.posts + [Post(c.uri + "/api/v1/cypher", Payload(q2, p2), Some(c1.token))]
  {
    var c1 := RunCypher(c, q1, p1, a1, r1).client;
    if !Truthy(c.token) {
      AuthenticateKeepsHeader(c, a1);
    }
    assert HeaderMatchesToken(c1);
    assert c1.uri == c.uri;
    CachedTokenSkipsLogin(c1, q2, p2, a2, r2);
  }

  /** A query raises exactly when the login it needed failed, or the server
      answered the query with anything but 200 or a body that is not JSON;
      otherwise it returns the decoded body. */
  lemma RunCypherOutcome(c: Client, cypher: string, params: map<string, Json>, authResp: Response,
                         queryResp: Response)
    ensures var st := RunCypher(c, cypher, params, authResp, queryResp);
            var loginFailed := !Truthy(c.token) && Authenticate(c, authResp).result.Failure?;
            (st.result.Success? <==> !loginFailed && queryResp.status == 200 && queryResp.body.Some?)
            && (st.result.Success? ==> st.result.value == queryResp.body.value)
            && (!loginFailed && queryResp.status != 200 ==>
                  st.result == Failure(Failed("Cypher query failed: " + queryResp.text)))
  {
  }

  /** The login raises on any status but 200, with the answer's text. */
  lemma LoginFailureRaises(c: Client, resp: Response)
    requires resp.status != 200
    ensures Authenticate(c, resp).result == Failure(Failed("Authentication failed: " + resp.text))
    ensures Authenticate(c, resp).client.token == c.token
  {
  }

  /** The node getter sends the node query with no parameters and returns
      the "n" column of the answer's records in order. */
  lemma GetNodesSends(c: Client, nodeType: Option<string>, authResp: Response, queryResp: Response)
    requires HeaderMatchesToken(c) && Truthy(c.token)
    requires queryResp.status == 200 && queryResp.body.Some?
    ensures var st := GetNodes(c, nodeType, authResp, queryResp);
            st.client.posts[|c.posts|].payload == JObj(map["query" := JStr(NodesQuery(nodeType))])
            && st.result == Project(queryResp.body.value, "n")
  {
    CachedTokenSkipsLogin(c, NodesQuery(nodeType), map[], authResp, queryResp);
  }
}

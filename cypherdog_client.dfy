/**
 * The `CypherDog` class of scripts/cypherdog15.py. Its fields are the ones the
 * Python object keeps; the session's outgoing requests are the field `posts`
 * and its Authorization header the field `bearer`. Each method takes the
 * server's answers as arguments and is proved to step the object exactly as
 * the corresponding function of `BloodHoundApi` says.
 */
module CypherDogClient {
  import opened Wrappers
  import opened JsonValue
  import opened BloodHoundApi

  class CypherDog {
    var uri: string
    var username: string
    var password: string
    var debug: bool
    var token: Json
    var bearer: Option<Json>
    var posts: seq<Post>

    function State(): Client
      reads this
    {
      Client(uri, username, password, token, bearer, posts)
    }

    /** Stores the URI without its trailing slashes; no token yet. */
    constructor (uri: string, username: string, password: string, debug: bool)
      ensures State() == Init(uri, username, password)
      ensures HeaderMatchesToken(State())
    {
      this.uri := StripSlashes(uri);
      this.username := username;
      this.password := password;
      this.debug := debug;
      token := JNull;
      bearer := None;
      posts := [];
    }

    method Authenticate(resp: Response) returns (r: Result<(), Raised>)
      modifies this
      ensures Step(r, State()) == BloodHoundApi.Authenticate(old(State()), resp)
    {
      posts := posts + [Post(uri + "/user/authenticate",
                             JObj(map["username" := JStr(username), "password" := JStr(password)]), bearer)];
      if resp.status == 200 {
        if resp.body.None? {
          return Failure(JsonDecodeError);
        }
        var jwt := Field(resp.body.value, "jwt");
        if jwt.Failure? {
          return Failure(jwt.error);
        }
        token := jwt.value;
        bearer := Some(token);
        r := Success(());
      } else {
        r := Failure(Failed("Authentication failed: " + resp.text));
      }
    }

    method RunCypher(cypher: string, params: map<string, Json>, authResp: Response, queryResp: Response)
      returns (r: Result<Json, Raised>)
      modifies this
      ensures Step(r, State()) == BloodHoundApi.RunCypher(old(State()), cypher, params, authResp, queryResp)
    {
      if !Truthy(token) {
        var a := Authenticate(authResp);
        if a.Failure? {
          return Failure(a.error);
        }
      }
      var payload := JObj(map["query" := JStr(cypher)]);
      if params != map[] {
        payload := JObj(payload.fields["parameters" := JObj(params)]);
      }
      posts := posts + [Post(uri + "/api/v1/cypher", payload, bearer)];
      if queryResp.status == 200 {
        r := Decode(queryResp);
      } else {
        r := Failure(Failed("Cypher query failed: " + queryResp.text));
      }
    }

    method GetNodes(nodeType: Option<string>, authResp: Response, queryResp: Response)
      returns (r: Result<seq<Json>, Raised>)
      modifies this
      ensures Step(r, State()) == BloodHoundApi.GetNodes(old(State()), nodeType, authResp, queryResp)
    {
      var cypher := "MATCH (n";
      if nodeType.Some? && nodeType.value != "" {
        cypher := cypher + ":" + nodeType.value;
      }
      cypher := cypher + ") RETURN n";
      assert cypher == NodesQuery(nodeType);
      var result := RunCypher(cypher, map[], authResp, queryResp);
      if result.Failure? {
        return Failure(result.error);
      }
      r := Project(result.value, "n");
    }

    method GetNode(nodeType: string, name: string, authResp: Response, queryResp: Response)
      returns (r: Result<Option<Json>, Raised>)
      modifies this
      ensures Step(r, State()) == BloodHoundApi.GetNode(old(State()), nodeType, name, authResp, queryResp)
    {
      var result := RunCypher(NodeQuery(nodeType), map["name" := JStr(name)], authResp, queryResp);
      if result.Failure? {
        return Failure(result.error);
      }
      r := First(result.value, "n");
    }

    method GetEdges(edgeType: Option<string>, authResp: Response, queryResp: Response)
      returns (r: Result<seq<Json>, Raised>)
      modifies this
      ensures Step(r, State()) == BloodHoundApi.GetEdges(old(State()), edgeType, authResp, queryResp)
    {
      var cypher := "MATCH ()-[r";
      if edgeType.Some? && edgeType.value != "" {
        cypher := cypher + ":" + edgeType.value;
      }
      cypher := cypher + "]-() RETURN r";
      assert cypher == EdgesQuery(edgeType);
      var result := RunCypher(cypher, map[], authResp, queryResp);
      if result.Failure? {
        return Failure(result.error);
      }
      r := Project(result.value, "r");
    }

    method GetPaths(start: string, end: string, relType: Option<string>, maxDepth: int, authResp: Response,
                    queryResp: Response)
      returns (r: Result<seq<Json>, Raised>)
      modifies this
      ensures Step(r, State()) == BloodHoundApi.GetPaths(old(State()), start, end, relType, maxDepth, authResp, queryResp)
    {
      var result := RunCypher(PathsQuery(relType, maxDepth), map["start" := JStr(start), "end" := JStr(end)],
                              authResp, queryResp);
      if result.Failure? {
        return Failure(result.error);
      }
      r := Project(result.value, "p");
    }
  }
}

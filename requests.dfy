/** BaseClient's request builders get_request, post_request and delete_request,
    reduced to the descriptor of the call they issue. */
module Requests {
  import opened Values

  const BASE_URL: string := "https://api.chainalysis.com/api/kyt"
  const ADMIN_URL: string := "https://api.chainalysis.com/admin"

  datatype Verb = Get | Post | Delete

  /** Which memoised connection carries the call. */
  datatype Root = Base | Admin

  function RootUrl(root: Root): string {
    match root
    case Base => BASE_URL
    case Admin => ADMIN_URL
  }

  /** The three headers every connection attaches. */
  function Headers(apiKey: string): (h: map<string, string>)
    ensures h.Keys == {"Token", "Accept", "Content-Type"}
    ensures h["Token"] == apiKey
    ensures h["Accept"] == "application/json" && h["Content-Type"] == "application/json"
  {
    map["Token" := apiKey, "Accept" := "application/json", "Content-Type" := "application/json"]
  }

  /** One HTTP call. `query` is None when `req.params` is never assigned;
      `body` is the value handed to JSON.generate, None when no body is set. */
  datatype Request = Request(
    verb: Verb,
    root: Root,
    path: string,
    query: Option<map<string, Value>>,
    body: Option<Value>)

  /** The receivers of `empty?` among the values a caller may pass as a body. */
  predicate IsCollection(v: Value) {
    v.Str? || v.Array? || v.Hash?
  }

  predicate IsEmpty(v: Value)
    requires IsCollection(v)
  {
    match v
    case Str(s) => |s| == 0
    case Array(items) => |items| == 0
    case Hash(fields) => |fields| == 0
  }

  /** The query pairs that reach the wire: none when params were not assigned. */
  function WireQuery(req: Request): map<string, Value> {
    if req.query.Some? then req.query.value else map[]
  }

  /** get_request(url, params, admin:) */
  function GetRequest(path: string, params: Option<map<string, Value>>, admin: bool): (r: Request)
    ensures r.verb == Get && r.path == path && r.body == None
    ensures r.root == Admin <==> admin
    ensures r.query == params
    ensures WireQuery(r) == if params.Some? then params.value else map[]
  {
    Request(Get, if admin then Admin else Base, path, params, None)
  }

  /** post_request(url, body): always the base root, the body dropped when empty. */
  function PostRequest(path: string, body: Value): (r: Request)
    requires IsCollection(body)
    ensures r.verb == Post && r.root == Base && r.path == path && r.query == None
    ensures r.body == None <==> IsEmpty(body)
    ensures r.body.Some? ==> r.body.value == body
  {
    Request(Post, Base, path, None, if IsEmpty(body) then None else Some(body))
  }

  /** delete_request(url): no query and no body, on the base root. */
  function DeleteRequest(path: string): (r: Request)
    ensures r.verb == Delete && r.root == Base && r.path == path
    ensures r.query == None && r.body == None && WireQuery(r) == map[]
  {
    Request(Delete, Base, path, None, None)
  }

  /** An empty POST body is never sent as "{}", a non-empty one always is. */
  lemma PostSendsBodyUnlessEmpty(path: string, body: map<string, Value>)
    ensures PostRequest(path, Hash(body)).body == (if body == map[] then None else Some(Hash(body)))
  {
  }
}

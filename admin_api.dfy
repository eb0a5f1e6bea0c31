/** Shapes shared by every view of the dashboard: the outcomes of the admin
    API calls, the `{ key, value }` entries of a listed collection, the
    upstream and route values those entries carry, and the plugin block. */
module AdminApi {

  datatype Option<+T> = None | Some(value: T)

  /** Outcome of a PUT or DELETE. A reply whose status is not ok and a
      transport error reach the same `catch` in every view, so they are one
      case here. */
  datatype Ack = Accepted | Rejected

  /** Outcome of a GET on a collection. The views never look at the status of
      a GET: any reply whose body parses as JSON is `Received`, with `node`
      holding `node.nodes`, or `None` when the body has no `node` (an error
      reply, for one). `FetchFailed` is a transport error or a body that is
      not JSON. */
  datatype Fetched<T> = Received(node: Option<seq<T>>) | FetchFailed

  /** One element of `node.nodes`. */
  datatype Entry<T> = Entry(key: string, value: T)

  /** The `key-auth` plugin block: `{}` on a route, `{ key }` on a consumer. */
  datatype KeyAuth = KeyAuth(key: Option<string>)

  /** The plugins the dashboard reads or writes. `proxyRewrite` is the `uri`
      of `proxy-rewrite`; an absent plugin block and an absent `plugins`
      object read the same. */
  datatype Plugins = Plugins(proxyRewrite: Option<string>, keyAuth: Option<KeyAuth>)

  /** An upstream as listed by the gateway. `nodes` keeps the order in which
      `Object.keys` enumerates the `nodes` object. */
  datatype Upstream = Upstream(id: string, nodes: Option<seq<(string, int)>>, scheme: string, lbType: string)

  /** A route as listed by the gateway. `upstreamId` is `None` when the route
      has no string `upstream_id` (it names its upstream through a service or
      inline, say): `undefined` is strictly equal to no upstream's id. */
  datatype Route = Route(id: string, uri: string, methods: Option<seq<string>>, upstreamId: Option<string>, plugins: Plugins)

  /** A PUT the dashboard sends: the path below the admin base URL and the
      JSON body. */
  datatype PutRequest<B> = PutRequest(path: string, body: B)

  const AdminPrefix: string := "/apisix/admin/"

  /** The path of one resource of a collection: where a PUT goes. */
  function ResourcePath(collection: string, id: string): (p: string)
    ensures |p| == |AdminPrefix| + |collection| + 1 + |id|
    ensures p[..|AdminPrefix|] == AdminPrefix
    ensures p[|AdminPrefix|..|AdminPrefix| + |collection|] == collection
    ensures p[|AdminPrefix| + |collection|] == '/'
    ensures p[|p| - |id|..] == id
  {
    AdminPrefix + collection + "/" + id
  }

  const ForceQuery: string := "?force=true"

  /** Where a DELETE goes: the resource's path with `?force=true`. */
  function DeletePath(collection: string, id: string): (p: string)
    ensures |p| == |ResourcePath(collection, id)| + |ForceQuery|
    ensures p[..|ResourcePath(collection, id)|] == ResourcePath(collection, id)
    ensures p[|p| - |ForceQuery|..] == ForceQuery
  {
    ResourcePath(collection, id) + ForceQuery
  }

  /** `json.node?.nodes || []`: a missing `node` reads as no entries. */
  function NodesOrEmpty<T>(node: Option<seq<T>>): (s: seq<T>)
    ensures node.None? ==> s == []
    ensures node.Some? ==> s == node.value
  {
    match node
    case None => []
    case Some(nodes) => nodes
  }

  /** A list area of a view: either the records, or the placeholder text it
      shows when there are none. */
  datatype Listing<T> = Placeholder(text: string) | Records(items: seq<T>)

  /** `items.length > 0 ? items.map(...) : <p>{text}</p>` */
  function Show<T>(items: seq<T>, text: string): (l: Listing<T>)
    ensures l.Placeholder? <==> items == []
    ensures l.Placeholder? ==> l.text == text
    ensures l.Records? ==> l.items == items && |l.items| > 0
  {
    if |items| > 0 then Records(items) else Placeholder(text)
  }

  /** Two requests to different resources of one collection go to different
      paths: the path determines the id. */
  lemma {:induction false} ResourcePathInjective(collection: string, id1: string, id2: string)
    requires ResourcePath(collection, id1) == ResourcePath(collection, id2)
    ensures id1 == id2
  {
  }

  /** Two deletions in one collection go to the same path only for the same
      id. */
  lemma DeletePathInjective(collection: string, id1: string, id2: string)
    requires DeletePath(collection, id1) == DeletePath(collection, id2)
    ensures id1 == id2
  {
    assert ResourcePath(collection, id1) == DeletePath(collection, id1)[..|ResourcePath(collection, id1)|];
    ResourcePathInjective(collection, id1, id2);
  }
}

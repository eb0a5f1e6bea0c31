/** The Overview panel: every upstream with the routes that point at it,
    each route projected to the fields the panel displays. */
module Overview {
  import opened AdminApi
  import opened RouteJoin

  /** The display fields of one route. `httpMethod` is `None` when the route
      has no `methods` (`val.methods?.join(", ")` is then undefined). */
  datatype RouteRow = RouteRow(id: string, uri: string, httpMethod: Option<string>, rewrite: string, auth: string)

  /** One upstream and its routes. */
  datatype UpstreamGroup = UpstreamGroup(upstreamId: string, routes: seq<RouteRow>)

  const NoRewrite := "-"
  const Lock := "\U{1F512}"
  const FetchError := "Cannot fetch upstream overview"

  /** `xs.join(sep)` */
  function Join(xs: seq<string>, sep: string): (r: string)
    ensures |xs| == 0 ==> r == ""
    ensures |xs| == 1 ==> r == xs[0]
    ensures |xs| > 0 ==> xs[0] <= r
  {
    if |xs| == 0 then ""
    else if |xs| == 1 then xs[0]
    else xs[0] + sep + Join(xs[1..], sep)
  }

  /** Sum of the lengths of the strings. */
  function TotalLength(xs: seq<string>): nat
  {
    if xs == [] then 0 else |xs[0]| + TotalLength(xs[1..])
  }

  /** Joining two non-empty parts puts one separator between them. With the
      one-element case of `Join` this fixes the join completely: the
      separator sits exactly between neighbours. */
  lemma {:induction false} JoinAppend(a: seq<string>, b: seq<string>, sep: string)
    requires |a| > 0 && |b| > 0
    ensures Join(a + b, sep) == Join(a, sep) + sep + Join(b, sep)
  {
    assert (a + b)[0] == a[0];
    assert (a + b)[1..] == a[1..] + b;
    if |a| > 1 {
      JoinAppend(a[1..], b, sep);
    }
  }

  /** The length of a join: the parts plus one separator per gap. */
  lemma {:induction false} JoinLength(xs: seq<string>, sep: string)
    requires |xs| > 0
    ensures |Join(xs, sep)| == TotalLength(xs) + (|xs| - 1) * |sep|
  {
    if |xs| > 1 {
      JoinLength(xs[1..], sep);
    } else {
      assert xs[1..] == [];
    }
  }

  /** The row shown for one route. */
  function Row(r: Route): (row: RouteRow)
    ensures row.id == r.id && row.uri == r.uri
    ensures row.httpMethod.Some? <==> r.methods.Some?
    ensures r.methods.Some? ==> row.httpMethod.value == Join(r.methods.value, ", ")
    ensures row.rewrite != ""
    ensures row.rewrite == NoRewrite <==> r.plugins.proxyRewrite.None? || r.plugins.proxyRewrite.value in {"", NoRewrite}
    ensures row.rewrite != NoRewrite ==> row.rewrite == r.plugins.proxyRewrite.value
    ensures row.auth == Lock <==> r.plugins.keyAuth.Some?
    ensures row.auth == "" <==> r.plugins.keyAuth.None?
  {
    RouteRow(
      r.id,
      r.uri,
      match r.methods
      case None => None
      case Some(ms) => Some(Join(ms, ", ")),
      match r.plugins.proxyRewrite
      case Some(u) => if u != "" then u else NoRewrite
      case None => NoRewrite,
      if r.plugins.keyAuth.Some? then Lock else "")
  }

  /** The rows of a sequence of route entries, in order. */
  function Rows(routes: seq<Entry<Route>>): (rows: seq<RouteRow>)
    ensures |rows| == |routes|
    ensures forall i :: 0 <= i < |routes| ==> rows[i] == Row(routes[i].value)
  {
    if routes == [] then [] else [Row(routes[0].value)] + Rows(routes[1..])
  }

  /** Listing one more route adds its row at the end. */
  lemma RowsSnoc(routes: seq<Entry<Route>>, e: Entry<Route>)
    ensures Rows(routes + [e]) == Rows(routes) + [Row(e.value)]
  {
    var rows := Rows(routes + [e]);
    assert forall j :: 0 <= j < |routes| ==> (routes + [e])[j] == routes[j];
    assert (routes + [e])[|routes|] == e;
  }

  /** `upstreamNodes.map(...)`: one group per upstream, in upstream order,
      holding the rows of the routes linked to that upstream. */
  function Group(upstreams: seq<Entry<Upstream>>, routes: seq<Entry<Route>>): (groups: seq<UpstreamGroup>)
    ensures |groups| == |upstreams|
    ensures forall i :: 0 <= i < |upstreams| ==>
      groups[i].upstreamId == upstreams[i].value.id &&
      groups[i].routes == Rows(RoutesFor(routes, upstreams[i].value.id))
  {
    if upstreams == [] then []
    else
      var id := upstreams[0].value.id;
      [UpstreamGroup(id, Rows(RoutesFor(routes, id)))] + Group(upstreams[1..], routes)
  }

  /** Every route whose `upstream_id` names a listed upstream shows up in
      that upstream's group. */
  lemma RouteShownUnderItsUpstream(upstreams: seq<Entry<Upstream>>, routes: seq<Entry<Route>>, i: nat, k: nat)
    requires i < |upstreams| && k < |routes|
    requires routes[k].value.upstreamId == Some(upstreams[i].value.id)
    ensures Row(routes[k].value) in Group(upstreams, routes)[i].routes
  {
  }

  /** Every row of a group comes from a route that points at that group's
      upstream. */
  lemma GroupRowsComeFromLinkedRoutes(upstreams: seq<Entry<Upstream>>, routes: seq<Entry<Route>>, i: nat, j: nat)
    requires i < |upstreams|
    requires j < |Group(upstreams, routes)[i].routes|
    ensures exists k :: 0 <= k < |routes| && routes[k].value.upstreamId == Some(upstreams[i].value.id)
                        && Group(upstreams, routes)[i].routes[j] == Row(routes[k].value)
  {
  }

  /** A route whose `upstream_id` names no listed upstream appears in no
      group. */
  lemma OrphanRouteHidden(upstreams: seq<Entry<Upstream>>, routes: seq<Entry<Route>>, e: Entry<Route>)
    requires forall i :: 0 <= i < |upstreams| ==> e.value.upstreamId != Some(upstreams[i].value.id)
    ensures forall i :: 0 <= i < |upstreams| ==> e !in RoutesFor(routes, Group(upstreams, routes)[i].upstreamId)
  {
  }

  /** What one group shows under its upstream id. */
  datatype GroupView = NoRoutesLinked | RouteList(rows: seq<RouteRow>)

  /** What the panel shows. */
  datatype Screen = ErrorText(message: string) | NoUpstreamsFound | Groups(views: seq<(string, GroupView)>)

  function ViewOf(g: UpstreamGroup): (v: (string, GroupView))
    ensures v.0 == g.upstreamId
    ensures v.1.NoRoutesLinked? <==> g.routes == []
    ensures v.1.RouteList? ==> v.1.rows == g.routes
  {
    (g.upstreamId, if |g.routes| == 0 then NoRoutesLinked else RouteList(g.routes))
  }

  /** The render: the error replaces everything, then the empty state, then
      one block per group. */
  function Render(error: Option<string>, overview: seq<UpstreamGroup>): (s: Screen)
    ensures s.ErrorText? <==> error.Some?
    ensures s.ErrorText? ==> s.message == error.value
    ensures s.NoUpstreamsFound? <==> error.None? && overview == []
    ensures s.Groups? ==> |s.views| == |overview| && forall i :: 0 <= i < |overview| ==> s.views[i] == ViewOf(overview[i])
  {
    if error.Some? then ErrorText(error.value)
    else if |overview| == 0 then NoUpstreamsFound
    else Groups(seq(|overview|, i requires 0 <= i < |overview| => ViewOf(overview[i])))
  }

  /** The panel's state. */
  class OverviewPanel {
    var overview: seq<UpstreamGroup>
    var error: Option<string>

    constructor ()
      ensures overview == [] && error == None
    {
      overview := [];
      error := None;
    }

    /** `fetchOverview`: fetch the upstreams, then the routes, then group.
        `routeRes` matters only when the upstream fetch succeeded, since the
        route request is made after it. A reply without `node` reads as no
        entries; a failure of either request keeps the old overview. */
    method Fetch(upstreamRes: Fetched<Entry<Upstream>>, routeRes: Fetched<Entry<Route>>)
      modifies this`overview, this`error
      ensures upstreamRes.Received? && routeRes.Received? ==>
        overview == Group(NodesOrEmpty(upstreamRes.node), NodesOrEmpty(routeRes.node)) && error == old(error)
      ensures upstreamRes.FetchFailed? || routeRes.FetchFailed? ==>
        overview == old(overview) && error == Some(FetchError)
    {
      if upstreamRes.FetchFailed? {
        error := Some(FetchError);
        return;
      }
      var upstreamNodes := NodesOrEmpty(upstreamRes.node);
      if routeRes.FetchFailed? {
        error := Some(FetchError);
        return;
      }
      var allRoutes := NodesOrEmpty(routeRes.node);
      overview := Group(upstreamNodes, allRoutes);
    }
  }
}

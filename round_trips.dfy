/** What the dashboard shows, in its other views, for a resource created
    through its own forms. The gateway's storage is not part of this model:
    `ListedUpstream` and `ListedRoute` state the one assumption made about
    it, that it lists a resource back with the fields it was given. */
module RoundTrips {
  import opened AdminApi
  import opened RouteJoin
  import Upstreams
  import Routes
  import Overview
  import UpstreamList

  /** An upstream as listed after an accepted PUT of `b`. */
  function ListedUpstream(b: Upstreams.UpstreamBody): (u: Upstream)
    ensures u.id == b.id && u.nodes == Some(b.nodes)
  {
    Upstream(b.id, Some(b.nodes), b.scheme, b.lbType)
  }

  /** A route as listed after an accepted PUT of `b`. */
  function ListedRoute(b: Routes.RouteBody): (r: Route)
    ensures r.id == b.id && r.upstreamId == Some(b.upstreamId) && r.methods == Some(b.methods) && r.plugins == b.plugins
  {
    Route(b.id, b.uri, Some(b.methods), Some(b.upstreamId), b.plugins)
  }

  /** An upstream created from a form that passed the check shows, in the
      Upstream List, as the form's id and the form's target node. */
  lemma CreatedUpstreamSummary(f: Upstreams.UpstreamForm, key: string)
    requires Upstreams.Ready(f)
    ensures UpstreamList.Simplify([Entry(key, ListedUpstream(Upstreams.BodyOf(f)))]) == [UpstreamList.Summary(f.id, f.node)]
  {
  }

  /** A route created from a form that passed the check shows, in the
      Overview, with the form's id, URI and method, the rewrite target the
      body carries, and the lock exactly when the checkbox was on. */
  lemma CreatedRouteRow(f: Routes.RouteForm)
    requires Routes.Ready(f)
    ensures Overview.Row(ListedRoute(Routes.BodyOf(f))) == Overview.RouteRow(
      f.id, f.uri, Some(f.httpMethod),
      if f.rewriteUri != "" then f.rewriteUri else f.uri,
      if Routes.AuthOn(f) then Overview.Lock else "")
  {
  }

  /** Once a created route is listed after the others, it is the last
      route linked to the upstream the form named, and the routes linked to
      every other upstream are as before. */
  lemma CreatedRouteLinked(f: Routes.RouteForm, routes: seq<Entry<Route>>, key: string, upstreamId: string)
    ensures var e := Entry(key, ListedRoute(Routes.BodyOf(f)));
      RoutesFor(routes + [e], upstreamId)
        == if upstreamId == f.upstreamId then RoutesFor(routes, upstreamId) + [e] else RoutesFor(routes, upstreamId)
  {
    var e := Entry(key, ListedRoute(Routes.BodyOf(f)));
    RoutesForAppend(routes, [e], upstreamId);
    RoutesForOne(e, upstreamId);
  }

  /** In the Overview, the group of the upstream a created route names gains
      that route's row at its end, and no other group changes. */
  lemma CreatedRouteGrouped(f: Routes.RouteForm, upstreams: seq<Entry<Upstream>>, routes: seq<Entry<Route>>, key: string, i: nat)
    requires i < |upstreams|
    ensures var e := Entry(key, ListedRoute(Routes.BodyOf(f)));
      var before := Overview.Group(upstreams, routes)[i].routes;
      Overview.Group(upstreams, routes + [e])[i].routes
        == if upstreams[i].value.id == f.upstreamId then before + [Overview.Row(e.value)] else before
  {
    var e := Entry(key, ListedRoute(Routes.BodyOf(f)));
    var id := upstreams[i].value.id;
    var linked := RoutesFor(routes, id);
    assert Overview.Group(upstreams, routes)[i].routes == Overview.Rows(linked);
    assert Overview.Group(upstreams, routes + [e])[i].routes == Overview.Rows(RoutesFor(routes + [e], id));
    CreatedRouteLinked(f, routes, key, id);
    if id == f.upstreamId {
      Overview.RowsSnoc(linked, e);
    }
  }

}

/** The client-side join of routes against one upstream: the routes whose
    `value.upstream_id` equals the upstream's id, in the order the gateway
    listed them. The Upstreams page computes it per upstream item and the
    Overview per upstream group; both use the same strict string equality. */
module RouteJoin {
  import opened AdminApi

  /** `routes.filter((r) => r.value?.upstream_id === upstreamId)` */
  function RoutesFor(routes: seq<Entry<Route>>, upstreamId: string): (linked: seq<Entry<Route>>)
    ensures |linked| <= |routes|
    ensures forall e :: e in linked ==> e in routes && e.value.upstreamId == Some(upstreamId)
    ensures forall k :: 0 <= k < |routes| && routes[k].value.upstreamId == Some(upstreamId) ==> routes[k] in linked
  {
    if routes == [] then []
    else
      var rest := RoutesFor(routes[1..], upstreamId);
      if routes[0].value.upstreamId == Some(upstreamId) then [routes[0]] + rest else rest
  }

  /** The join distributes over concatenation: together with the one-entry
      case this says the linked routes keep the order of the route list. */
  lemma {:induction false} RoutesForAppend(a: seq<Entry<Route>>, b: seq<Entry<Route>>, upstreamId: string)
    ensures RoutesFor(a + b, upstreamId) == RoutesFor(a, upstreamId) + RoutesFor(b, upstreamId)
  {
    if a == [] {
      assert a + b == b;
    } else {
      assert (a + b)[1..] == a[1..] + b;
      RoutesForAppend(a[1..], b, upstreamId);
    }
  }

  /** A single route is linked exactly when its `upstream_id` matches. */
  lemma RoutesForOne(e: Entry<Route>, upstreamId: string)
    ensures RoutesFor([e], upstreamId) == if e.value.upstreamId == Some(upstreamId) then [e] else []
  {
  }

  /** When every route points at the upstream the join keeps them all, and
      when none does it keeps none. */
  lemma {:induction false} RoutesForExtremes(routes: seq<Entry<Route>>, upstreamId: string)
    ensures (forall k :: 0 <= k < |routes| ==> routes[k].value.upstreamId == Some(upstreamId)) ==> RoutesFor(routes, upstreamId) == routes
    ensures (forall k :: 0 <= k < |routes| ==> routes[k].value.upstreamId != Some(upstreamId)) ==> RoutesFor(routes, upstreamId) == []
  {
    if routes != [] {
      RoutesForExtremes(routes[1..], upstreamId);
      assert forall k :: 1 <= k < |routes| ==> routes[1..][k - 1] == routes[k];
    }
  }

  /** A route without a string `upstream_id` is linked to no upstream. */
  lemma UnboundRouteNeverLinked(routes: seq<Entry<Route>>, e: Entry<Route>, upstreamId: string)
    requires e.value.upstreamId.None?
    ensures e !in RoutesFor(routes, upstreamId)
  {
  }

  /** The linked routes of two different upstreams share no entry. */
  lemma RoutesForDisjoint(routes: seq<Entry<Route>>, u1: string, u2: string)
    requires u1 != u2
    ensures forall e :: e in RoutesFor(routes, u1) ==> e !in RoutesFor(routes, u2)
  {
  }
}

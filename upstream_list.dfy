/** The Upstream List panel: each upstream reduced to its id and the first
    key of its `nodes` object. */
module UpstreamList {
  import opened AdminApi

  /** `{ id, nodeKey }` */
  datatype Summary = Summary(id: string, nodeKey: string)

  /** Shown when an upstream has no node key to show. */
  const NoNode := "\U{2014}"
  const ErrorText := "cannot load upstreams at this moment type shi"

  /** `Object.keys(node.value.nodes || {})[0] || "—"`: the first key, unless
      there is none or it is the empty string. */
  function FirstNodeKey(nodes: Option<seq<(string, int)>>): (k: string)
    ensures k != ""
    ensures k == NoNode || (nodes.Some? && |nodes.value| > 0 && k == nodes.value[0].0)
    ensures nodes.Some? && |nodes.value| > 0 && nodes.value[0].0 != "" ==> k == nodes.value[0].0
  {
    match nodes
    case None => NoNode
    case Some(ns) => if |ns| > 0 && ns[0].0 != "" then ns[0].0 else NoNode
  }

  /** `rawNodes.map(...)`: one summary per upstream, in order. */
  function Simplify(entries: seq<Entry<Upstream>>): (s: seq<Summary>)
    ensures |s| == |entries|
    ensures forall i :: 0 <= i < |entries| ==>
      s[i].id == entries[i].value.id && s[i].nodeKey == FirstNodeKey(entries[i].value.nodes)
  {
    if entries == [] then []
    else [Summary(entries[0].value.id, FirstNodeKey(entries[0].value.nodes))] + Simplify(entries[1..])
  }

  /** What the panel shows: the error text replaces the list. There is no
      empty-list message: no upstreams give an empty list. */
  datatype Screen = Failed(text: string) | Items(summaries: seq<Summary>)

  function Render(error: bool, upstreams: seq<Summary>): (s: Screen)
    ensures s.Failed? <==> error
    ensures s.Failed? ==> s.text == ErrorText
    ensures s.Items? ==> s.summaries == upstreams
  {
    if error then Failed(ErrorText) else Items(upstreams)
  }

  /** The panel's state. */
  class UpstreamListPanel {
    var upstreams: seq<Summary>
    var error: bool

    constructor ()
      ensures upstreams == [] && !error
    {
      upstreams := [];
      error := false;
    }

    /** `fetchUpstreams`: a reply without `node` gives an empty list; a failed
        request sets the flag and keeps the list. */
    method Fetch(res: Fetched<Entry<Upstream>>)
      modifies this`upstreams, this`error
      ensures res.Received? ==> upstreams == Simplify(NodesOrEmpty(res.node)) && error == old(error)
      ensures res.FetchFailed? ==> upstreams == old(upstreams) && error
    {
      if res.Received? {
        upstreams := Simplify(NodesOrEmpty(res.node));
      } else {
        error := true;
      }
    }
  }
}

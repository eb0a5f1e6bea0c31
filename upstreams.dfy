/** The Upstreams page: the list of upstreams (`data`), the error shown in the
    modal (`error`), the create form (`form`) and, per listed upstream, the
    routes linked to it. Every network step is a parameter holding its
    outcome. */
module Upstreams {
  import opened AdminApi
  import opened RouteJoin

  /** The create form: every field is a string. */
  datatype UpstreamForm = UpstreamForm(
    id: string,
    node: string,
    scheme: string,
    lbType: string,
    passHost: string,
    upstreamHost: string)

  /** The `name` attributes of the form's inputs. */
  datatype UpstreamField = Id | Node | Scheme | LbType | PassHost | UpstreamHost

  /** The body of `PUT /apisix/admin/upstreams/{id}`. */
  datatype UpstreamBody = UpstreamBody(
    id: string,
    nodes: seq<(string, int)>,
    lbType: string,
    scheme: string,
    passHost: string,
    upstreamHost: Option<string>)

  /** The record the form starts from and is reset to after an accepted PUT. */
  const DefaultForm := UpstreamForm("", "", "http", "roundrobin", "pass", "")

  const FetchError := "Failed to fetch upstreams"
  const DeleteError := "Failed to delete upstream, Try to delete all route to this upstream"
  const EmptyText := "Please Create Upstream"

  /** The value of one field. */
  function Get(f: UpstreamForm, name: UpstreamField): string
  {
    match name
    case Id => f.id
    case Node => f.node
    case Scheme => f.scheme
    case LbType => f.lbType
    case PassHost => f.passHost
    case UpstreamHost => f.upstreamHost
  }

  /** `handleChange`: `{ ...prev, [name]: value }`. */
  function Changed(f: UpstreamForm, name: UpstreamField, value: string): (g: UpstreamForm)
    ensures Get(g, name) == value
    ensures forall other :: other != name ==> Get(g, other) == Get(f, other)
  {
    match name
    case Id => f.(id := value)
    case Node => f.(node := value)
    case Scheme => f.(scheme := value)
    case LbType => f.(lbType := value)
    case PassHost => f.(passHost := value)
    case UpstreamHost => f.(upstreamHost := value)
  }

  /** The required-field check that runs before anything is sent: both the id
      and the target node must be non-empty. The upstream host is not
      checked, even in rewrite mode. */
  predicate Ready(f: UpstreamForm)
  {
    f.id != "" && f.node != ""
  }

  /** The body `handleSubmit` builds from the form. */
  function BodyOf(f: UpstreamForm): (b: UpstreamBody)
    ensures b.id == f.id && b.lbType == f.lbType && b.scheme == f.scheme && b.passHost == f.passHost
    ensures |b.nodes| == 1 && b.nodes[0] == (f.node, 1)
    ensures b.upstreamHost.Some? <==> f.passHost == "rewrite" && f.upstreamHost != ""
    ensures b.upstreamHost.Some? ==> b.upstreamHost.value == f.upstreamHost
  {
    var body := UpstreamBody(f.id, [(f.node, 1)], f.lbType, f.scheme, f.passHost, None);
    if f.passHost == "rewrite" && f.upstreamHost != "" then body.(upstreamHost := Some(f.upstreamHost)) else body
  }

  /** The PUT `handleSubmit` sends, if any: none when the required-field check
      fails, otherwise the body at the path named by the form's id. */
  function SubmitRequest(f: UpstreamForm): (r: Option<PutRequest<UpstreamBody>>)
    ensures r.Some? <==> Ready(f)
    ensures r.Some? ==> r.value.path == ResourcePath("upstreams", f.id) && r.value.body.id == f.id
    ensures r.Some? ==> r.value.body == BodyOf(f)
  {
    if Ready(f) then Some(PutRequest(ResourcePath("upstreams", f.id), BodyOf(f))) else None
  }

  /** An upstream body in pass mode never carries an upstream host. */
  lemma PassModeOmitsHost(f: UpstreamForm)
    requires f.passHost == "pass"
    ensures BodyOf(f).upstreamHost == None
  {
  }

  /** What the list area shows: "Please Create Upstream" when there are no
      upstreams, otherwise one item per upstream. */
  function Display(data: seq<Entry<Upstream>>): (l: Listing<Entry<Upstream>>)
    ensures l.Placeholder? <==> data == []
    ensures l.Placeholder? ==> l.text == EmptyText
    ensures l.Records? ==> l.items == data
  {
    Show(data, EmptyText)
  }

  /** The state of the page and of its create form. */
  class UpstreamsPage {
    var data: seq<Entry<Upstream>>
    var error: Option<string>
    var form: UpstreamForm

    constructor ()
      ensures data == [] && error == None && form == DefaultForm
    {
      data := [];
      error := None;
      form := DefaultForm;
    }

    /** The initial load. `json.node.nodes` has no optional chaining, so a
        reply without `node` throws inside the `try` and is reported like a
        failed request. */
    method Load(res: Fetched<Entry<Upstream>>)
      modifies this`data, this`error
      ensures res.Received? && res.node.Some? ==> data == res.node.value && error == old(error)
      ensures !(res.Received? && res.node.Some?) ==> data == old(data) && error == Some(FetchError)
    {
      if res.Received? && res.node.Some? {
        data := res.node.value;
      } else {
        error := Some(FetchError);
      }
    }

    /** `handleChange` of the create form. */
    method Change(name: UpstreamField, value: string)
      modifies this`form
      ensures Get(form, name) == value
      ensures forall other :: other != name ==> Get(form, other) == Get(old(form), other)
    {
      form := Changed(form, name, value);
    }

    /** `handleSubmit`: validate, PUT the body, reset the form, refetch the
        list. `put` is the outcome of the PUT and `refetch` that of the GET
        that follows an accepted PUT. The create form ignores the
        `setError` it is passed, so no failure here reaches `error`; and the reset comes
        before the refetch, so a failed refetch still leaves the form reset. */
    method Submit(put: Ack, refetch: Fetched<Entry<Upstream>>) returns (sent: Option<PutRequest<UpstreamBody>>)
      modifies this`data, this`form
      ensures sent == SubmitRequest(old(form))
      ensures error == old(error)
      ensures sent.None? || put.Rejected? ==> data == old(data) && form == old(form)
      ensures sent.Some? && put.Accepted? ==> form == DefaultForm && !Ready(form)
      ensures sent.Some? && put.Accepted? && refetch.Received? && refetch.node.Some? ==> data == refetch.node.value
      ensures sent.Some? && put.Accepted? && !(refetch.Received? && refetch.node.Some?) ==> data == old(data)
    {
      sent := SubmitRequest(form);
      if sent.None? {
        return;
      }
      if put.Rejected? {
        return;
      }
      form := DefaultForm;
      if refetch.Received? && refetch.node.Some? {
        data := refetch.node.value;
      }
    }

    /** An item's `handleDelete`: DELETE the upstream `id`, then refetch the
        list. A rejected DELETE, a failed refetch and a refetch without `node`
        all set the same message and leave the list as it was. */
    method Delete(id: string, del: Ack, refetch: Fetched<Entry<Upstream>>) returns (path: string)
      modifies this`data, this`error
      ensures path == DeletePath("upstreams", id)
      ensures del.Accepted? && refetch.Received? && refetch.node.Some? ==> data == refetch.node.value && error == old(error)
      ensures !(del.Accepted? && refetch.Received? && refetch.node.Some?) ==> data == old(data) && error == Some(DeleteError)
    {
      path := DeletePath("upstreams", id);
      if del.Accepted? && refetch.Received? && refetch.node.Some? {
        data := refetch.node.value;
      } else {
        error := Some(DeleteError);
      }
    }

    /** Closing the error modal. */
    method DismissError()
      modifies this`error
      ensures error == None
    {
      error := None;
    }
  }

  /** One listed upstream and the routes linked to it. */
  class UpstreamItem {
    const id: string
    var linkedRoutes: seq<Entry<Route>>

    constructor (entry: Entry<Upstream>)
      ensures id == entry.value.id && linkedRoutes == []
    {
      id := entry.value.id;
      linkedRoutes := [];
    }

    /** The item's route fetch: on a reply, the routes whose `upstream_id` is
        this item's id, in the gateway's order; on a failure, nothing changes
        (the error is only logged). */
    method FetchRoutes(res: Fetched<Entry<Route>>)
      modifies this`linkedRoutes
      ensures res.Received? ==> linkedRoutes == RoutesFor(NodesOrEmpty(res.node), id)
      ensures res.Received? ==> forall e :: e in linkedRoutes <==> e in NodesOrEmpty(res.node) && e.value.upstreamId == Some(id)
      ensures res.FetchFailed? ==> linkedRoutes == old(linkedRoutes)
    {
      if res.Received? {
        linkedRoutes := RoutesFor(NodesOrEmpty(res.node), id);
      }
    }
  }
}

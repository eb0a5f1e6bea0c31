/** The Routes page: the list of routes (`routes`), the error shown in the
    modal (`error`) and the create form (`form`), whose `useAuth` checkbox
    becomes a `key-auth` plugin in the body. */
module Routes {
  import opened AdminApi

  /** The create form. `useAuth` is `None` once the form has been reset: the
      reset record has no such field, and an absent field is falsy. */
  datatype RouteForm = RouteForm(
    id: string,
    uri: string,
    httpMethod: string,
    upstreamId: string,
    rewriteUri: string,
    useAuth: Option<bool>)

  /** The `name` attributes of the form's inputs. */
  datatype RouteField = Id | Uri | Method | UpstreamId | RewriteUri | UseAuth

  /** The text and select inputs, that is every input but the checkbox. */
  datatype TextField = IdText | UriText | MethodText | UpstreamIdText | RewriteUriText

  /** A change event. The one checkbox of the form is `useAuth`; every other
      input is a text field or a select and reports its `value`. */
  datatype Input = Text(field: TextField, value: string) | Checkbox(checked: bool)

  /** A field's value as the form holds it. */
  datatype FieldValue = Str(s: string) | Flag(b: Option<bool>)

  /** The body of `PUT /apisix/admin/routes/{id}`. */
  datatype RouteBody = RouteBody(
    id: string,
    uri: string,
    methods: seq<string>,
    upstreamId: string,
    status: int,
    plugins: Plugins)

  const InitialForm := RouteForm("", "", "GET", "", "", Some(false))
  const ResetForm := RouteForm("", "", "GET", "", "", None)

  const FetchError := "Failed to fetch routes"
  const CreateError := "Failed to create route"
  const DeleteError := "Failed to delete route"
  const EmptyText := "No routes found"

  function Get(f: RouteForm, name: RouteField): FieldValue
  {
    match name
    case Id => Str(f.id)
    case Uri => Str(f.uri)
    case Method => Str(f.httpMethod)
    case UpstreamId => Str(f.upstreamId)
    case RewriteUri => Str(f.rewriteUri)
    case UseAuth => Flag(f.useAuth)
  }

  /** The field an input event names. */
  function NameOf(input: Input): RouteField
  {
    match input
    case Checkbox(_) => UseAuth
    case Text(field, _) =>
      match field
      case IdText => Id
      case UriText => Uri
      case MethodText => Method
      case UpstreamIdText => UpstreamId
      case RewriteUriText => RewriteUri
  }

  /** `type === "checkbox" ? checked : value` */
  function ValueOf(input: Input): FieldValue
  {
    match input
    case Checkbox(checked) => Flag(Some(checked))
    case Text(_, value) => Str(value)
  }

  /** `handleChange`: `{ ...prev, [name]: type === "checkbox" ? checked : value }`. */
  function Changed(f: RouteForm, input: Input): (g: RouteForm)
    ensures Get(g, NameOf(input)) == ValueOf(input)
    ensures forall other :: other != NameOf(input) ==> Get(g, other) == Get(f, other)
  {
    match input
    case Checkbox(checked) => f.(useAuth := Some(checked))
    case Text(field, value) =>
      match field
      case IdText => f.(id := value)
      case UriText => f.(uri := value)
      case MethodText => f.(httpMethod := value)
      case UpstreamIdText => f.(upstreamId := value)
      case RewriteUriText => f.(rewriteUri := value)
  }

  /** The required-field check: id, URI and upstream id must be non-empty. */
  predicate Ready(f: RouteForm)
  {
    f.id != "" && f.uri != "" && f.upstreamId != ""
  }

  /** `form.useAuth` read as a JavaScript condition. */
  predicate AuthOn(f: RouteForm)
  {
    f.useAuth == Some(true)
  }

  /** The body `handleSubmit` builds from the form. */
  function BodyOf(f: RouteForm): (b: RouteBody)
    ensures b.id == f.id && b.uri == f.uri && b.upstreamId == f.upstreamId
    ensures b.methods == [f.httpMethod] && b.status == 1
    ensures b.plugins.proxyRewrite.Some?
    ensures f.rewriteUri != "" ==> b.plugins.proxyRewrite.value == f.rewriteUri
    ensures f.rewriteUri == "" ==> b.plugins.proxyRewrite.value == f.uri
    ensures b.plugins.keyAuth.Some? <==> AuthOn(f)
    ensures b.plugins.keyAuth.Some? ==> b.plugins.keyAuth.value == KeyAuth(None)
  {
    var rewrite := if f.rewriteUri != "" then f.rewriteUri else f.uri;
    var auth := if AuthOn(f) then Some(KeyAuth(None)) else None;
    RouteBody(f.id, f.uri, [f.httpMethod], f.upstreamId, 1, Plugins(Some(rewrite), auth))
  }

  /** The PUT `handleSubmit` sends, if any. */
  function SubmitRequest(f: RouteForm): (r: Option<PutRequest<RouteBody>>)
    ensures r.Some? <==> Ready(f)
    ensures r.Some? ==> r.value.path == ResourcePath("routes", f.id) && r.value.body.id == f.id
    ensures r.Some? ==> r.value.body == BodyOf(f)
  {
    if Ready(f) then Some(PutRequest(ResourcePath("routes", f.id), BodyOf(f))) else None
  }

  /** The body of a form that passed the check always rewrites to a
      non-empty URI. */
  lemma ReadyBodyRewritesSomewhere(f: RouteForm)
    requires Ready(f)
    ensures BodyOf(f).plugins.proxyRewrite.value != ""
  {
  }

  /** What the list area shows: "No routes found" when there are no routes,
      otherwise one item per route. */
  function Display(routes: seq<Entry<Route>>): (l: Listing<Entry<Route>>)
    ensures l.Placeholder? <==> routes == []
    ensures l.Placeholder? ==> l.text == EmptyText
    ensures l.Records? ==> l.items == routes
  {
    Show(routes, EmptyText)
  }

  /** The state of the page and of its create form. */
  class RoutesPage {
    var routes: seq<Entry<Route>>
    var error: Option<string>
    var form: RouteForm

    constructor ()
      ensures routes == [] && error == None && form == InitialForm
    {
      routes := [];
      error := None;
      form := InitialForm;
    }

    /** The initial load; a reply without `node` reads as no routes. */
    method Load(res: Fetched<Entry<Route>>)
      modifies this`routes, this`error
      ensures res.Received? ==> routes == NodesOrEmpty(res.node) && error == old(error)
      ensures res.FetchFailed? ==> routes == old(routes) && error == Some(FetchError)
    {
      if res.Received? {
        routes := NodesOrEmpty(res.node);
      } else {
        error := Some(FetchError);
      }
    }

    /** `handleChange` of the create form. */
    method Change(input: Input)
      modifies this`form
      ensures Get(form, NameOf(input)) == ValueOf(input)
      ensures forall other :: other != NameOf(input) ==> Get(form, other) == Get(old(form), other)
    {
      form := Changed(form, input);
    }

    /** `handleSubmit`: validate, PUT the body, refetch, then reset the form.
        The reset comes after the refetch, so any failure leaves both the list
        and the form as they were and sets the one create message. */
    method Submit(put: Ack, refetch: Fetched<Entry<Route>>) returns (sent: Option<PutRequest<RouteBody>>)
      modifies this`routes, this`form, this`error
      ensures sent == SubmitRequest(old(form))
      ensures sent.None? ==> routes == old(routes) && form == old(form) && error == old(error)
      ensures sent.Some? && put.Accepted? && refetch.Received? ==>
        routes == NodesOrEmpty(refetch.node) && form == ResetForm && error == old(error)
      ensures sent.Some? && (put.Rejected? || refetch.FetchFailed?) ==>
        routes == old(routes) && form == old(form) && error == Some(CreateError)
    {
      sent := SubmitRequest(form);
      if sent.None? {
        return;
      }
      if put.Accepted? && refetch.Received? {
        routes := NodesOrEmpty(refetch.node);
        form := ResetForm;
      } else {
        error := Some(CreateError);
      }
    }

    /** A route item's `handleDelete`: DELETE the route `id`, then refetch. */
    method Delete(id: string, del: Ack, refetch: Fetched<Entry<Route>>) returns (path: string)
      modifies this`routes, this`error
      ensures path == DeletePath("routes", id)
      ensures del.Accepted? && refetch.Received? ==> routes == NodesOrEmpty(refetch.node) && error == old(error)
      ensures del.Rejected? || refetch.FetchFailed? ==> routes == old(routes) && error == Some(DeleteError)
    {
      path := DeletePath("routes", id);
      if del.Accepted? && refetch.Received? {
        routes := NodesOrEmpty(refetch.node);
      } else {
        error := Some(DeleteError);
      }
    }

    /** Closing the error modal. */
    method DismissError()
      modifies this`error
      ensures error == None
    {
      error := None;
    }
  }
}

# Admin dashboard core, modelled in Dafny

This project models the logic of a React dashboard for the admin API of an
API gateway. The dashboard lists, creates and deletes two kinds of
resource: upstreams (groups of backend nodes) and routes (URI to upstream
mappings with optional `proxy-rewrite` and `key-auth` plugins). It also
registers consumers with an API key.

What the model covers:

- **Request bodies and local checks.** Each create form is a flat record.
  Its required-field check runs first and stops the request when it fails.
  The body builders are total functions from the form to the nested JSON
  record the dashboard sends (`Upstreams.BodyOf`, `Routes.BodyOf`,
  `ApiKeygen.Payload`).
- **Mutate-then-refetch list state.** Each page is a class whose fields
  are the component's state: `data` or `routes`, `form` and `error`.
  Every network step is a parameter holding its outcome.
  - A PUT or DELETE is `Ack`: `Accepted`, or `Rejected`. A non-ok status
    and a transport error take the same `catch` branch, so they are one case.
  - A GET is `Fetched`: `Received(node)` or `FetchFailed`. The views never
    check the status of a GET. A reply without `node` is `Received(None)`.
  - On success a list is replaced wholesale by the refetched sequence. On
    failure it is left as it was. Each method's `ensures` gives the whole
    new state of the fields its `modifies` names.
- **Client-side joins and projections.**
  - `RouteJoin.RoutesFor` keeps the routes whose `upstream_id` equals an
    upstream's id, in server order. The Upstreams items and the Overview
    groups both use it.
  - `Overview.Group` builds one group per upstream, and `Overview.Row`
    projects a route to its display fields.
  - `UpstreamList.Simplify` reduces each upstream to its id and first node key.
- **Round trips across views.** Module `RoundTrips` shows what a resource
  created through the forms looks like in the other views. It assumes the
  gateway lists a resource back with the fields it was sent
  (`ListedUpstream`, `ListedRoute`).

The views handle a missing `node` differently. The upstream fetches of
Upstreams.jsx (lines 23, 121 and 256) read `json.node.nodes` without
optional chaining. A reply without `node` therefore throws inside the `try`
and goes down the failure path. Every route fetch, including the item's
route fetch in Upstreams.jsx (line 219), and the other views read
`json.node?.nodes || []` and get an empty list.

The form reset happens at different points in the two pages:

- **Upstreams.** The form is reset right after an accepted PUT, before the
  refetch. A failed refetch still leaves the form reset. The create form
  ignores the `setError` it is passed (Upstreams.jsx:51, 56), so a create
  failure never shows an error.
- **Routes.** The form is reset after the refetch. Any failure leaves the
  form as it was and sets "Failed to create route". The reset record has no
  `useAuth` field. That is modelled as `useAuth == None`, which reads as
  false.

In rewrite mode an empty upstream host is left out of the body, not
rejected (dashboard-react/pages/Upstreams.jsx:85-87). Neither view loads
the form from a list item.

A route's `upstream_id` is compared with `===` on the raw JSON. A route
without one (bound through `service_id` or an inline `upstream`) reads it
as `undefined` and matches no upstream. The model types it
`Option<string>` and joins on `== Some(id)`.

## Model

| member | source | states |
|---|---|---|
| AdminApi.ResourcePath | dashboard-react/pages/Upstreams.jsx:90 | a PUT goes to `/apisix/admin/<collection>/<id>`: the admin prefix, then the collection, then `/`, then the id, and nothing else |
| AdminApi.DeletePath | dashboard-react/pages/Upstreams.jsx:235 | a DELETE goes to the resource's path followed by exactly `?force=true` |
| AdminApi.DeletePathInjective | dashboard-react/pages/Routes.jsx:221 | within one collection, equal DELETE paths mean equal ids |
| AdminApi.ResourcePathInjective | dashboard-react/components/APIKeygen.jsx:31 | within one collection, equal path strings mean equal ids |
| AdminApi.NodesOrEmpty | dashboard-react/pages/Routes.jsx:23 | a reply without `node` gives no entries, otherwise its `nodes` list |
| AdminApi.Show | dashboard-react/pages/Routes.jsx:38-49 | a list area shows its placeholder text exactly when there are no records, otherwise all the records |
| RouteJoin.RoutesFor | dashboard-react/pages/Upstreams.jsx:219-221 | the linked routes are drawn from the route list, all have the upstream's id, and every route with that id is among them |
| RouteJoin.RoutesForAppend | dashboard-react/pages/Upstreams.jsx:221 | the join of a concatenation is the concatenation of the joins, so linked routes keep server order |
| RouteJoin.RoutesForOne | dashboard-react/pages/Upstreams.jsx:221 | a single route is linked iff its `upstream_id` strictly equals the upstream's id |
| RouteJoin.RoutesForExtremes | dashboard-react/pages/Upstreams.jsx:221 | when every route points at the upstream all are linked; when none does, none is |
| RouteJoin.UnboundRouteNeverLinked | dashboard-react/pages/Upstreams.jsx:221 | a route without a string `upstream_id` (`undefined`) is linked to no upstream |
| RouteJoin.RoutesForDisjoint | dashboard-react/components/Overview.jsx:38-39 | a route is linked to at most one upstream: the joins for two different ids share no entry |
| Upstreams.Changed | dashboard-react/pages/Upstreams.jsx:66-69 | `handleChange` sets the named field to the value and leaves every other field as it was |
| Upstreams.BodyOf | dashboard-react/pages/Upstreams.jsx:75-87 | `nodes` holds exactly one entry, the target node with weight 1; id, type, scheme and pass_host are copied from the form; `upstream_host` is present iff pass_host is `rewrite` and the host is non-empty, and is then the form's host |
| Upstreams.SubmitRequest | dashboard-react/pages/Upstreams.jsx:73-97 | a PUT is sent iff id and node are both non-empty; it goes to the path of the form's id and carries exactly the body `BodyOf` builds |
| Upstreams.PassModeOmitsHost | dashboard-react/pages/Upstreams.jsx:85-87 | in pass mode the body never carries `upstream_host` |
| Upstreams.Display | dashboard-react/pages/Upstreams.jsx:38-49 | an empty list shows "Please Create Upstream", otherwise the listed upstreams |
| Upstreams.UpstreamsPage.constructor | dashboard-react/pages/Upstreams.jsx:57-64 | the page starts with no upstreams, no error and the default form (http, roundrobin, pass, empty strings) |
| Upstreams.UpstreamsPage.Load | dashboard-react/pages/Upstreams.jsx:12-31 | a reply with `node` replaces the list; a failure or a reply without `node` keeps the list and sets "Failed to fetch upstreams" |
| Upstreams.UpstreamsPage.Change | dashboard-react/pages/Upstreams.jsx:66-69 | only the named form field changes |
| Upstreams.UpstreamsPage.Submit | dashboard-react/pages/Upstreams.jsx:71-125 | an invalid form sends nothing and changes nothing; a rejected PUT changes nothing; an accepted PUT resets the form, then the list becomes exactly the refetched entries, or stays as it was if the refetch fails; `error` is never touched |
| Upstreams.UpstreamsPage.Delete | dashboard-react/pages/Upstreams.jsx:232-262 | the DELETE goes to `upstreams/<id>?force=true`; an accepted DELETE with a refetch that has `node` replaces the list; any failure keeps the list and sets the fixed "delete all route" message |
| Upstreams.UpstreamsPage.DismissError | dashboard-react/pages/Upstreams.jsx:36 | closing the modal clears the error |
| Upstreams.UpstreamItem.constructor | dashboard-react/pages/Upstreams.jsx:205-207 | an item takes the upstream's id and starts with no linked routes |
| Upstreams.UpstreamItem.FetchRoutes | dashboard-react/pages/Upstreams.jsx:209-230 | on a reply the linked routes are exactly the routes with this item's id, in order; on a failure they are unchanged |
| Routes.Changed | dashboard-react/pages/Routes.jsx:71-77 | a checkbox event sets `useAuth` to `checked`, any other event sets its field to `value`; all other fields are unchanged |
| Routes.BodyOf | dashboard-react/pages/Routes.jsx:98-110 | `methods` is the one selected method and `status` is 1; id, uri and upstream_id are copied; `proxy-rewrite.uri` is always present and is the rewrite URI if non-empty, otherwise the URI; `key-auth` is present, as `{}`, iff `useAuth` is on |
| Routes.SubmitRequest | dashboard-react/pages/Routes.jsx:83-120 | a PUT is sent iff id, uri and upstream_id are all non-empty; it goes to the path of the form's id and carries exactly the body `BodyOf` builds |
| Routes.ReadyBodyRewritesSomewhere | dashboard-react/pages/Routes.jsx:106 | for a form that passes the check, the rewrite target is never empty |
| Routes.Display | dashboard-react/pages/Routes.jsx:38-49 | an empty list shows "No routes found", otherwise the routes |
| Routes.RoutesPage.constructor | dashboard-react/pages/Routes.jsx:57-64 | the page starts with no routes, no error and a form with method GET and `useAuth` false |
| Routes.RoutesPage.Load | dashboard-react/pages/Routes.jsx:13-31 | a reply replaces the list (no `node` gives an empty list); a failure keeps it and sets "Failed to fetch routes" |
| Routes.RoutesPage.Change | dashboard-react/pages/Routes.jsx:71-77 | only the field the event names changes |
| Routes.RoutesPage.Submit | dashboard-react/pages/Routes.jsx:79-146 | an invalid form sends nothing and changes nothing; an accepted PUT and a refetch replace the list and reset the form to a record without `useAuth`; a rejected PUT or a failed refetch keeps list and form and sets "Failed to create route" |
| Routes.RoutesPage.Delete | dashboard-react/pages/Routes.jsx:218-246 | the DELETE goes to `routes/<id>?force=true`; an accepted DELETE and a refetch replace the list; any failure keeps it and sets "Failed to delete route" |
| Routes.RoutesPage.DismissError | dashboard-react/pages/Routes.jsx:36 | closing the modal clears the error |
| Overview.Join | dashboard-react/components/Overview.jsx:45 | joining no methods gives the empty string, joining one gives that method; the joined string starts with the first element |
| Overview.JoinAppend | dashboard-react/components/Overview.jsx:45 | joining two non-empty parts is their joins with one separator between; with the one-element case this puts the separator exactly between neighbours |
| Overview.JoinLength | dashboard-react/components/Overview.jsx:45 | the length of a join is the sum of the lengths plus one separator per gap |
| Overview.Row | dashboard-react/components/Overview.jsx:40-48 | id and uri are copied; the method is the join of `methods` when present; `rewrite` is never empty, is "-" exactly when there is no non-empty rewrite URI (or it is "-" itself) and is otherwise that URI; `auth` is the lock iff `key-auth` is present and empty otherwise |
| Overview.Rows | dashboard-react/components/Overview.jsx:40-49 | one row per route, in order |
| Overview.RowsSnoc | dashboard-react/components/Overview.jsx:40-49 | rows are computed route by route: one more route listed at the end adds exactly its row at the end |
| Overview.Group | dashboard-react/components/Overview.jsx:36-55 | exactly one group per upstream, in upstream order, with `upstreamId` the upstream's id and the rows of exactly its linked routes |
| Overview.RouteShownUnderItsUpstream | dashboard-react/components/Overview.jsx:38-39 | every route whose `upstream_id` names a listed upstream appears in that upstream's group |
| Overview.GroupRowsComeFromLinkedRoutes | dashboard-react/components/Overview.jsx:38-39 | every row of a group comes from a route that points at that group's upstream |
| Overview.OrphanRouteHidden | dashboard-react/components/Overview.jsx:36-39 | a route whose upstream is not listed appears in no group |
| Overview.ViewOf | dashboard-react/components/Overview.jsx:85-103 | a group shows "No routes linked" exactly when it has no rows, otherwise its rows |
| Overview.Render | dashboard-react/components/Overview.jsx:67-107 | an error replaces the whole panel; otherwise no groups show "No upstreams found", else one block per group in order |
| Overview.OverviewPanel.constructor | dashboard-react/components/Overview.jsx:7-8 | the panel starts empty and without error |
| Overview.OverviewPanel.Fetch | dashboard-react/components/Overview.jsx:11-62 | two replies give the grouping of their entries (a missing `node` is no entries); a failure of either request keeps the overview and sets "Cannot fetch upstream overview" |
| UpstreamList.FirstNodeKey | dashboard-react/components/UpstreamList.jsx:25 | the key shown is never empty; it is the first key of `nodes` when there is one and it is non-empty, otherwise "—" |
| UpstreamList.Simplify | dashboard-react/components/UpstreamList.jsx:23-27 | same length and order as the upstream entries; each summary's id is the upstream's id and its key the upstream's first node key |
| UpstreamList.Render | dashboard-react/components/UpstreamList.jsx:39-56 | the error flag replaces the list with the fixed text; otherwise the summaries are shown |
| UpstreamList.UpstreamListPanel.constructor | dashboard-react/components/UpstreamList.jsx:7-8 | the panel starts with no upstreams and the flag down |
| UpstreamList.UpstreamListPanel.Fetch | dashboard-react/components/UpstreamList.jsx:10-37 | a reply gives the simplified entries (none without `node`); a failure raises the flag and keeps the list |
| ApiKeygen.Payload | dashboard-react/components/APIKeygen.jsx:20-27 | `username` is the consumer name; the plugins hold exactly one block, `key-auth`, whose key is the generated key |
| ApiKeygen.SuccessMessage | dashboard-react/components/APIKeygen.jsx:45 | the success text is exactly the fixed prefix, then the consumer name, then the closing quote |
| ApiKeygen.GenerateRequest | dashboard-react/components/APIKeygen.jsx:16-40 | a PUT is sent iff the name is non-empty; its path uses the same name as its `username`, and its body is exactly `Payload` of the name and the key |
| ApiKeygen.SuccessNotFailure | dashboard-react/components/APIKeygen.jsx:45-48 | the success text differs from the failure text for every name |
| ApiKeygen.SuccessMessageInjective | dashboard-react/components/APIKeygen.jsx:45 | different consumer names give different success texts |
| ApiKeygen.ApiKeyGenerator.constructor | dashboard-react/components/APIKeygen.jsx:7-9 | name, key and message start empty |
| ApiKeygen.ApiKeyGenerator.SetConsumerName | dashboard-react/components/APIKeygen.jsx:60 | the name input sets the consumer name |
| ApiKeygen.ApiKeyGenerator.Generate | dashboard-react/components/APIKeygen.jsx:15-50 | an empty name sends nothing and changes nothing; an accepted PUT shows the sent key and the success text; a rejected one keeps the key and shows "Failed to generate API key." |
| RoundTrips.CreatedUpstreamSummary | dashboard-react/components/UpstreamList.jsx:23-27 | an upstream created from a valid form is listed in the Upstream List as the form's id and target node |
| RoundTrips.CreatedRouteRow | dashboard-react/components/Overview.jsx:40-48 | a route created from a valid form shows in the Overview with its id, URI and method, its rewrite target, and the lock iff the checkbox was on |
| RoundTrips.CreatedRouteLinked | dashboard-react/pages/Upstreams.jsx:221 | a created route listed last becomes the last linked route of the upstream the form named; other upstreams' linked routes are unchanged |
| RoundTrips.CreatedRouteGrouped | dashboard-react/components/Overview.jsx:36-49 | in the Overview, only the named upstream's group changes, by gaining the created route's row at its end |

## Left out

- Network I/O, headers, `res.json()` and the environment settings
  (`API_URL`, `ADMIN`). Each request is an outcome parameter instead. The
  request paths are kept below the base URL.
- The random key (`Math.random().toString(36)`, APIKeygen.jsx:12). It is
  floating point and non-deterministic, so `Generate` takes the key as an
  input of any value.
- React scheduling. That covers `useEffect`, state updates after unmount,
  and the race between item route fetches. The unused `loading` state of
  Upstreams.jsx is also left out.
- The HTML `required` attributes on the inputs. The browser may refuse to
  submit before `handleSubmit` runs. The model describes `handleSubmit`
  itself.
- Rendering beyond what decides the visible state, plus `alert` and
  `console.*`. The visible state is the placeholder and empty texts, the
  error text and the lock marker.
- A reply whose `node` has no `nodes`. The model does not tell it apart
  from a reply whose `nodes` is empty. In Upstreams.jsx such a reply would
  set `data` to `undefined`, which renders like an empty list.
- AdminApi.ResourcePath: ids are put into the path unencoded, as every
  view does. Ids containing `/`, `?`, `#` or `%` are not modelled: in a
  browser such an id reaches another resource (a `#` cuts off the rest of
  the path and the `?force=true` after it).
- List entries whose `value` is missing. The model assumes every entry has
  one.
- RouteJoin.RoutesFor: upstream ids are taken to be strings, and an
  `upstream_id` that is present but not a string is modelled like a missing
  one (`None`). That is exact when upstream ids are strings, since
  `===` then never matches a non-string; a numeric upstream id equal to a
  numeric `upstream_id` would match in JavaScript and is not modelled.
- JavaScript's key order for objects (integer-like keys first). The model
  takes `nodes` to be already in `Object.keys` order.
- A change event on the route form that names a text field but has type
  `checkbox`. The form has no such input.
- Server-side behaviour: referential checks on delete, what `force=true`
  does, and how consumer keys are stored. `RoundTrips` assumes the gateway
  lists a resource back as it was sent.
- Forms.jsx, ErrorModal.jsx (beyond clearing `error` on close),
  ServicesList.jsx, main.jsx, App.jsx, Home.jsx and vite.config.js. These
  hold presentation, routing or build settings only.

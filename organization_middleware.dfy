/** The per-request tenant binding (the module
    `middleware.organization_middleware`): resolve the tenant id from the
    request headers, bind its settings (or `None`) in the context slot, run
    the downstream handler, and clear the slot on every exit path. */
module OrganizationMiddleware {

  import opened Wrappers
  import opened OrganizationConfig
  import opened OrganizationContext
  import Text

  const TenantHeader: string := "X-Tenant"
  const OrganizationHeaderFallback: string := "X-Organization"

  /** The request's headers as received, in order: (name, value) pairs. */
  type Headers = seq<(string, string)>

  /** `request.headers.get(key)`: the value of the first header whose name
      matches `key` without regard to ASCII case, or `None`. */
  function HeaderGet(headers: Headers, key: string): (r: Option<string>)
    ensures r.None? <==> forall i | 0 <= i < |headers| :: Text.Lower(headers[i].0) != Text.Lower(key)
    ensures r.Some? ==> exists i | 0 <= i < |headers| ::
      && Text.Lower(headers[i].0) == Text.Lower(key)
      && r.value == headers[i].1
      && forall j | 0 <= j < i :: Text.Lower(headers[j].0) != Text.Lower(key)
  {
    if headers == [] then None
    else if Text.Lower(headers[0].0) == Text.Lower(key) then Some(headers[0].1)
    else
      var rest := HeaderGet(headers[1..], key);
      assert forall i | 1 <= i < |headers| :: headers[i] == headers[1..][i - 1];
      if rest.None? then rest
      else
        var i :| 0 <= i < |headers[1..]| && Text.Lower(headers[1..][i].0) == Text.Lower(key)
          && rest.value == headers[1..][i].1
          && forall j | 0 <= j < i :: Text.Lower(headers[1..][j].0) != Text.Lower(key);
        assert Text.Lower(headers[i + 1].0) == Text.Lower(key) && rest.value == headers[i + 1].1;
        assert forall j | 0 <= j < i + 1 :: Text.Lower(headers[j].0) != Text.Lower(key);
        rest
  }

  /** Python truthiness of an optional header value. */
  predicate Present(value: Option<string>) {
    value.Some? && value.value != []
  }

  /** A header value that strips to nothing: every character is whitespace. */
  predicate Blank(s: string) {
    forall i | 0 <= i < |s| :: s[i] in Text.Whitespace
  }

  /** `_get_tenant_id(request)`: `X-Tenant` if it is a non-empty string,
      otherwise `X-Organization`; stripped, and `None` when blank. */
  function GetTenantId(headers: Headers): (r: Option<string>)
    ensures r.Some? ==> Present(HeaderGet(headers, TenantHeader)) || Present(HeaderGet(headers, OrganizationHeaderFallback))
    ensures r.Some? ==> r.value != [] && r.value[0] !in Text.Whitespace && r.value[|r.value| - 1] !in Text.Whitespace
  {
    var primary := HeaderGet(headers, TenantHeader);
    var value := if Present(primary) then primary else HeaderGet(headers, OrganizationHeaderFallback);
    if Present(value) && Text.Strip(value.value, Text.Whitespace) != [] then
      Some(Text.Strip(value.value, Text.Whitespace))
    else
      None
  }

  /** A resolved id is non-empty, has no surrounding whitespace and is its own
      strip. */
  lemma TenantIdIsStripped(headers: Headers)
    requires GetTenantId(headers).Some?
    ensures var id := GetTenantId(headers).value;
      && id != []
      && id[0] !in Text.Whitespace && id[|id| - 1] !in Text.Whitespace
      && Text.Strip(id, Text.Whitespace) == id
  {
    var primary := HeaderGet(headers, TenantHeader);
    var value := if Present(primary) then primary else HeaderGet(headers, OrganizationHeaderFallback);
    Text.StripIdempotent(value.value, Text.Whitespace);
  }

  /** A non-empty `X-Tenant` decides alone: its stripped value, or `None` when
      it is whitespace only; `X-Organization` is then never looked at. */
  lemma TenantHeaderDecides(headers: Headers)
    requires Present(HeaderGet(headers, TenantHeader))
    ensures var t := HeaderGet(headers, TenantHeader).value;
      GetTenantId(headers) == if Blank(t) then None
                              else Some(Text.Strip(t, Text.Whitespace))
  {
  }

  /** Without a non-empty `X-Tenant`, `X-Organization` is used, stripped; when
      it too is absent or blank, there is no tenant id. */
  lemma OrganizationHeaderFallsBack(headers: Headers)
    requires !Present(HeaderGet(headers, TenantHeader))
    ensures var o := HeaderGet(headers, OrganizationHeaderFallback);
      GetTenantId(headers) == if !Present(o) || Blank(o.value) then None
                              else Some(Text.Strip(o.value, Text.Whitespace))
  {
    var o := HeaderGet(headers, OrganizationHeaderFallback);
    if Present(o) {
      assert Blank(o.value) <==> Text.Strip(o.value, Text.Whitespace) == [];
    }
  }

  /** A request with neither header has no tenant id. */
  lemma NoHeadersNoTenantId(headers: Headers)
    requires forall i | 0 <= i < |headers| ::
      Text.Lower(headers[i].0) != "x-tenant" && Text.Lower(headers[i].0) != "x-organization"
    ensures GetTenantId(headers) == None
  {
    assert Text.Lower(TenantHeader) == "x-tenant";
    assert Text.Lower(OrganizationHeaderFallback) == "x-organization";
  }

  /** What `dispatch` binds for a request: the stored settings of its tenant
      id, or `None` (simple mode) when there is no id or it is not stored. */
  function Binding(store: map<string, OrganizationSettings>, headers: Headers): (r: Option<OrganizationSettings>)
    ensures r.Some? <==> GetTenantId(headers).Some? && GetTenantId(headers).value in store
    ensures r.Some? ==> r.value == store[GetTenantId(headers).value]
  {
    match GetTenantId(headers)
    case None => None
    case Some(id) => if id in store then Some(store[id]) else None
  }

  /** The bound settings are those of the tenant the headers name, and an
      unknown tenant gives simple mode rather than an error. */
  lemma BindingIsTheNamedTenant(store: map<string, OrganizationSettings>, headers: Headers)
    requires KeysAreNames(store)
    ensures Binding(store, headers).Some? <==> GetTenantId(headers).Some? && GetTenantId(headers).value in store
    ensures Binding(store, headers).Some? ==> Binding(store, headers).value == store[GetTenantId(headers).value]
    ensures Binding(store, headers).Some? ==> Binding(store, headers).value.name == GetTenantId(headers).value
  {
  }

  /** Without a tenant id the store plays no part in the binding. */
  lemma NoTenantIdIgnoresStore(store1: map<string, OrganizationSettings>,
                               store2: map<string, OrganizationSettings>, headers: Headers)
    requires GetTenantId(headers) == None
    ensures Binding(store1, headers) == Binding(store2, headers) == None
  {
  }

  /** The downstream application's answer, which the middleware passes on
      without looking at it. */
  datatype Response = Response(status: int, body: string)

  /** How `call_next` ends: with a response, or by raising. */
  datatype HandlerOutcome = Returned(response: Response) | Raised(error: string)

  class OrganizationMiddleware {
    const config: OrganizationConfigManager
    const context: ContextSlot

    constructor (config: OrganizationConfigManager, context: ContextSlot)
      ensures this.config == config && this.context == context
    {
      this.config := config;
      this.context := context;
    }

    /** `dispatch(request, call_next)`. The downstream handler is a function
        of the settings it reads from the context slot, so its outcome shows
        what was bound while it ran. Whatever it does, its outcome is passed
        on unchanged and the slot is `None` afterwards. */
    method Dispatch(headers: Headers, callNext: Option<OrganizationSettings> -> HandlerOutcome)
      returns (outcome: HandlerOutcome)
      requires config.Valid()
      modifies context
      ensures outcome == callNext(Binding(config.organizations, headers))
      ensures context.current == None
    {
      var tenantId := GetTenantId(headers);
      if tenantId.Some? {
        var org := config.GetOrganization(tenantId.value);
        if org.Some? {
          context.SetCurrentOrganization(org);
        } else {
          context.SetCurrentOrganization(None);
        }
      } else {
        context.SetCurrentOrganization(None);
      }
      var seen := context.GetCurrentOrganization();
      outcome := callNext(seen);
      context.ClearCurrentOrganization();
    }
  }
}

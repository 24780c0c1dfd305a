/**
 * The request context a data distributor or model builder runs in
 * (DataDistributorContext), and the drill-down context that layers one query
 * row over a baseline context.
 */
module DistributorContext {

  /** An RDF statement; nodes and literals are kept in their lexical form. */
  datatype Triple = Triple(subject: string, property: string, value: string)

  /** An RDF model, seen as the set of its statements: `m.add(other)` is union. */
  type Graph = set<Triple>

  /** A DataDistributorException; its cause is opaque here. */
  datatype DistributorError = DistributorError(cause: string)

  /** The request's access to its models (RequestModelAccess), opaque. */
  datatype RequestModelAccess = RequestModelAccess(handle: nat)

  /** A request for authorisation (AuthorizationRequest), opaque. */
  datatype AuthorizationRequest = AuthorizationRequest(action: string)

  /** Request parameters: each name has an ordered array of values. */
  type Parameters = map<string, seq<string>>

  /** One solution of the drill-down query: variable name to value. */
  type Row = map<string, string>

  /**
   * A context is either the one built from the HTTP request, or a
   * DrillDownContext that holds its own copy of the parameters and delegates
   * everything else to the context it was derived from.
   */
  datatype Context =
    | RequestContext(parameters: Parameters, models: RequestModelAccess,
                     authorizer: AuthorizationRequest -> bool)
    | DrillDownContext(baselineContext: Context, requestParameters: Parameters)

  /** The parameters a context answers; a drill-down context answers its own copy. */
  function GetRequestParameters(c: Context): (p: Parameters)
  {
    match c
    case RequestContext(p, _, _) => p
    case DrillDownContext(_, p) => p
  }

  /** The request context at the root of a chain of drill-down contexts. */
  function Origin(c: Context): (r: Context)
    ensures r.RequestContext?
  {
    match c
    case RequestContext(_, _, _) => c
    case DrillDownContext(b, _) => Origin(b)
  }

  /** Model access is delegated down the chain to the originating request. */
  function GetRequestModels(c: Context): (r: RequestModelAccess)
    ensures r == Origin(c).models
  {
    match c
    case RequestContext(_, m, _) => m
    case DrillDownContext(b, _) => GetRequestModels(b)
  }

  /** Authorisation is delegated down the chain to the originating request. */
  function IsAuthorized(c: Context, ar: AuthorizationRequest): (r: bool)
    ensures r == Origin(c).authorizer(ar)
  {
    match c
    case RequestContext(_, _, auth) => auth(ar)
    case DrillDownContext(b, _) => IsAuthorized(b, ar)
  }

  /** The baseline parameters with every row variable set to a one-element array of its value. */
  function Overlay(baseline: Parameters, row: Row): (p: Parameters)
  {
    map k | k in baseline.Keys + row.Keys :: if k in row then [row[k]] else baseline[k]
  }

  /**
   * The overlay holds every name of the baseline and of the row; a row
   * variable overrides the baseline's values with its own single value, and
   * every other name keeps the baseline's values.
   */
  lemma OverlayEntries(baseline: Parameters, row: Row)
    ensures Overlay(baseline, row).Keys == baseline.Keys + row.Keys
    ensures forall k :: k in row ==> Overlay(baseline, row)[k] == [row[k]]
    ensures forall k :: k in baseline && k !in row ==> Overlay(baseline, row)[k] == baseline[k]
  {
  }

  /** The context the drill-down builders see for one row. */
  function Derived(baseline: Context, row: Row): (c: Context)
  {
    DrillDownContext(baseline, Overlay(GetRequestParameters(baseline), row))
  }

  /**
   * What the derived context answers: the overlaid copy of the baseline's
   * parameters, and, for everything else, the same request as the baseline.
   */
  lemma DerivedContext(baseline: Context, row: Row)
    ensures Derived(baseline, row).DrillDownContext? && Derived(baseline, row).baselineContext == baseline
    ensures GetRequestParameters(Derived(baseline, row)) == Overlay(GetRequestParameters(baseline), row)
    ensures Origin(Derived(baseline, row)) == Origin(baseline)
    ensures GetRequestModels(Derived(baseline, row)) == GetRequestModels(baseline)
    ensures forall ar :: IsAuthorized(Derived(baseline, row), ar) == IsAuthorized(baseline, ar)
  {
  }

  /**
   * A drill-down inside a drill-down: the inner row's values win over the
   * outer row's, which win over the request's, and the request at the root
   * is still the baseline's.
   */
  lemma NestedDrillDown(baseline: Context, outer: Row, inner: Row)
    ensures GetRequestParameters(Derived(Derived(baseline, outer), inner))
         == Overlay(GetRequestParameters(baseline), outer + inner)
    ensures Origin(Derived(Derived(baseline, outer), inner)) == Origin(baseline)
  {
  }

  /**
   * The DrillDownContext constructor: copy the baseline's parameters, then put
   * each entry of the row as a one-element array. Entries are visited in an
   * arbitrary order, as a HashMap's are; the result does not depend on it.
   */
  method NewDrillDownContext(baseline: Context, drillDownParameters: Row) returns (c: Context)
    ensures c == Derived(baseline, drillDownParameters)
    ensures c.DrillDownContext? && c.baselineContext == baseline
    ensures GetRequestParameters(c).Keys == GetRequestParameters(baseline).Keys + drillDownParameters.Keys
    ensures forall k :: k in drillDownParameters ==> GetRequestParameters(c)[k] == [drillDownParameters[k]]
    ensures forall k :: k in GetRequestParameters(baseline) && k !in drillDownParameters ==>
              GetRequestParameters(c)[k] == GetRequestParameters(baseline)[k]
    ensures GetRequestModels(c) == GetRequestModels(baseline)
    ensures forall ar :: IsAuthorized(c, ar) == IsAuthorized(baseline, ar)
  {
    var base := GetRequestParameters(baseline);
    var requestParameters := base;
    var pending := drillDownParameters.Keys;
    while pending != {}
      invariant pending <= drillDownParameters.Keys
      invariant requestParameters.Keys == base.Keys + (drillDownParameters.Keys - pending)
      invariant forall k :: k in drillDownParameters && k !in pending ==>
                  requestParameters[k] == [drillDownParameters[k]]
      invariant forall k :: k in base && (k !in drillDownParameters || k in pending) ==>
                  requestParameters[k] == base[k]
      decreases pending
    {
      var key :| key in pending;
      requestParameters := requestParameters[key := [drillDownParameters[key]]];
      pending := pending - {key};
    }
    assert requestParameters == Overlay(base, drillDownParameters);
    c := DrillDownContext(baseline, requestParameters);
  }
}

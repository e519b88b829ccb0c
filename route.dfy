/** `extractTopRoute` (jupitor-swaps/src/index.js:111-117): the first route
    candidate under a fixed precedence across three response shapes. */
module RouteSelector {
  import opened Wrappers

  /** A route object of the aggregator, kept as its JSON text. */
  datatype Route = Route(json: string)

  /** An element of a candidate list: `Some` for a route object, `None` for
      a falsy JSON value (`null`, `0`, `""`, `false`). */
  type Entry = Option<Route>

  /** The nested `data` object; `routes` is `None` when absent or not an
      array. */
  datatype QuoteData = QuoteData(routes: Option<seq<Entry>>)

  /** A truthy quote response as far as route selection reads it. Each list
      is `None` when the field is absent or not an array; `data` is `None`
      when it is nullish. */
  datatype QuoteResponse = QuoteResponse(
    routes: Option<seq<Entry>>,
    routePlan: Option<seq<Entry>>,
    data: Option<QuoteData>)

  /** `Array.isArray(x) && x.length > 0`. */
  predicate NonEmptyList(l: Option<seq<Entry>>)
  {
    l.Some? && |l.value| > 0
  }

  /** `quote.data?.routes`. */
  function DataRoutes(q: QuoteResponse): Option<seq<Entry>>
  {
    match q.data
    case None => None
    case Some(d) => d.routes
  }

  /** `extractTopRoute(quote)`; `quote` is `None` for a falsy JSON value.
      The result is `None` for the fall-through `return null`, and
      `Some(None)` when the head of the first non-empty list is falsy. */
  function ExtractTopRoute(quote: Option<QuoteResponse>): Option<Entry>
  {
    if quote.None? then None
    else
      var q := quote.value;
      if NonEmptyList(q.routes) then Some(q.routes.value[0])
      else if NonEmptyList(q.routePlan) then Some(q.routePlan.value[0])
      else if NonEmptyList(DataRoutes(q)) then Some(DataRoutes(q).value[0])
      else None
  }

  /** `if (!top)`: the run stops unless a route object was selected. */
  predicate RouteSelected(top: Option<Entry>)
  {
    top.Some? && top.value.Some?
  }

  /** The three candidate lists in precedence order. */
  function Candidates(q: QuoteResponse): seq<Option<seq<Entry>>>
  {
    [q.routes, q.routePlan, DataRoutes(q)]
  }

  /** The head of the first non-empty list, a reference definition of the
      precedence as a search. */
  function FirstOfFirstNonEmpty(lists: seq<Option<seq<Entry>>>): (r: Option<Entry>)
    ensures r.Some? <==> exists i :: 0 <= i < |lists| && NonEmptyList(lists[i])
    ensures r.Some? ==>
      exists i :: (0 <= i < |lists| && NonEmptyList(lists[i]) && r.value == lists[i].value[0] &&
                   forall k :: 0 <= k < i ==> !NonEmptyList(lists[k]))
  {
    if lists == [] then None
    else if NonEmptyList(lists[0]) then Some(lists[0].value[0])
    else
      var r := FirstOfFirstNonEmpty(lists[1..]);
      assert forall i :: 1 <= i < |lists| ==> lists[i] == lists[1..][i - 1];
      r
  }

  /** The selector agrees with the search over the lists in precedence order:
      top-level `routes`, then `routePlan`, then `data.routes`. */
  lemma {:induction false} ExtractTopRouteIsFirstNonEmpty(q: QuoteResponse)
    ensures ExtractTopRoute(Some(q)) == FirstOfFirstNonEmpty(Candidates(q))
  {
    var c := Candidates(q);
    if !NonEmptyList(q.routes) {
      assert c[1..] == [q.routePlan, DataRoutes(q)];
      if !NonEmptyList(q.routePlan) {
        assert c[1..][1..] == [DataRoutes(q)];
        assert c[1..][1..][1..] == [];
      }
    }
  }

  /** The fall-through `return null` happens exactly when the quote is falsy
      or none of the three shapes holds a non-empty array. */
  lemma NoRouteIff(quote: Option<QuoteResponse>)
    ensures ExtractTopRoute(quote).None? <==>
      quote.None? ||
      (!NonEmptyList(quote.value.routes) && !NonEmptyList(quote.value.routePlan) &&
       !NonEmptyList(DataRoutes(quote.value)))
  {
  }

  /** The run's `if (!top)` stops exactly when the quote is falsy, no list is
      non-empty, or the head of the first non-empty list is falsy (so
      `{routes: [null], routePlan: [r]}` has no route). */
  lemma NoRouteSelectedIff(quote: Option<QuoteResponse>)
    ensures !RouteSelected(ExtractTopRoute(quote)) <==>
      quote.None? ||
      FirstOfFirstNonEmpty(Candidates(quote.value)).None? ||
      FirstOfFirstNonEmpty(Candidates(quote.value)).value.None?
  {
    if quote.Some? {
      ExtractTopRouteIsFirstNonEmpty(quote.value);
    }
  }

  /** A falsy head of the top-level list is not passed over for a later list. */
  lemma FalsyHeadGivesNoRoute(r: Route)
    ensures !RouteSelected(ExtractTopRoute(Some(QuoteResponse(Some([None]), Some([Some(r)]), None))))
  {
  }

  /** The top-level list wins over the route plan and the nested list. */
  lemma TopLevelWins(q: QuoteResponse)
    requires NonEmptyList(q.routes)
    ensures ExtractTopRoute(Some(q)) == Some(q.routes.value[0])
  {
  }

  /** `{}` and `{routes: [], routePlan: [], data: {routes: []}}` give no route. */
  lemma EmptyShapesGiveNoRoute()
    ensures ExtractTopRoute(Some(QuoteResponse(None, None, None))).None?
    ensures ExtractTopRoute(Some(QuoteResponse(Some([]), Some([]), Some(QuoteData(Some([])))))).None?
  {
  }
}

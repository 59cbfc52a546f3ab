/**
 * recommend_ordered_route (POST /eco_routes_dynamic): check that the
 * category and place-name lists have equal length, resolve every name in
 * input order, stop with a 404 at the first name that does not resolve, and
 * otherwise return the stops in input order with a transit narrative.
 */
module OrderedRoute {
  import opened Wrappers
  import opened Services
  import opened Guide

  /** RouteRequest: selected_category_from_ui and place_names. */
  datatype RouteRequest = RouteRequest(categories: seq<string>, names: seq<string>)

  /** One entry of recommended_route: {category, location}. */
  datatype RouteStop = RouteStop(category: string, location: LatLng)

  /** The success body: recommended_route and transportation_guide. */
  datatype RouteResponse = RouteResponse(route: seq<RouteStop>, guide: string)

  /** The 400 raised when the two lists differ in length. */
  const LengthMismatch := HttpError(400, "카테고리와 장소 수가 일치하지 않습니다.")

  /** The lookup resolves name. */
  predicate Resolves(name: string, places: string -> PlacesResponse) {
    GetPlaceLocation(name, places(name)).Ok?
  }

  /** The index of the first name that does not resolve, or |names| when all of them do. */
  function FirstUnresolved(names: seq<string>, places: string -> PlacesResponse): (k: nat)
    ensures k <= |names|
    ensures forall i :: 0 <= i < k ==> Resolves(names[i], places)
    ensures k < |names| ==> !Resolves(names[k], places)
  {
    if |names| == 0 || !Resolves(names[0], places) then 0
    else 1 + FirstUnresolved(names[1..], places)
  }

  /** One place-lookup call per name, in order. */
  function Lookups(names: seq<string>): seq<Call> {
    seq(|names|, i requires 0 <= i < |names| => PlaceLookup(names[i]))
  }

  /** Stop i of a route: category i with the place that name i resolves to. */
  function StopAt(request: RouteRequest, places: string -> PlacesResponse, i: nat): RouteStop
    requires i < |request.categories| && i < |request.names|
    requires Resolves(request.names[i], places)
  {
    RouteStop(request.categories[i], GetPlaceLocation(request.names[i], places(request.names[i])).value)
  }

  /**
   * What recommend_ordered_route answers and which calls it makes, as one
   * value: a length mismatch makes no call; a name that does not resolve
   * ends the request after its own lookup with a 404; otherwise every name
   * is looked up and the narrative is generated last.
   */
  function ComposeRoute(request: RouteRequest, places: string -> PlacesResponse,
                        generate: Prompt -> Generated): Handled<RouteResponse>
  {
    var categories, names := request.categories, request.names;
    if |categories| != |names| then Handled(Err(LengthMismatch), [])
    else
      var k := FirstUnresolved(names, places);
      if k < |names| then Handled(Err(PlaceNotFound(names[k])), Lookups(names[..k + 1]))
      else
        var route := seq(|names|, i requires 0 <= i < |names| => StopAt(request, places, i));
        Handled(Ok(RouteResponse(route, TransportationGuide(categories, names, generate))),
                Lookups(names) + [Generation(GuidePrompt(CourseText(categories, names)))])
  }

  /** The handler, building the route by appending inside the loop over the pairs. */
  method RecommendOrderedRoute(request: RouteRequest, places: string -> PlacesResponse,
                               generate: Prompt -> Generated) returns (h: Handled<RouteResponse>)
    ensures h == ComposeRoute(request, places, generate)
  {
    var categories, names := request.categories, request.names;
    if |categories| != |names| {
      return Handled(Err(LengthMismatch), []);
    }
    var route: seq<RouteStop> := [];
    var calls: seq<Call> := [];
    for i := 0 to |names|
      invariant i <= FirstUnresolved(names, places)
      invariant |route| == i
      invariant forall j :: 0 <= j < i ==> route[j] == StopAt(request, places, j)
      invariant calls == Lookups(names[..i])
    {
      assert names[..i + 1] == names[..i] + [names[i]];
      calls := calls + [PlaceLookup(names[i])];
      var location := GetPlaceLocation(names[i], places(names[i]));
      if location.Err? {
        assert FirstUnresolved(names, places) == i;
        return Handled(Err(location.error), calls);
      }
      route := route + [RouteStop(categories[i], location.value)];
    }
    assert names[..|names|] == names;
    assert route == seq(|names|, j requires 0 <= j < |names| => StopAt(request, places, j));
    var guide := TransportationGuide(categories, names, generate);
    calls := calls + [Generation(GuidePrompt(CourseText(categories, names)))];
    h := Handled(Ok(RouteResponse(route, guide)), calls);
  }

  /** Unequal list lengths give the 400 before any lookup or generation call. */
  lemma MismatchMakesNoCall(request: RouteRequest, places: string -> PlacesResponse,
                            generate: Prompt -> Generated)
    requires |request.categories| != |request.names|
    ensures ComposeRoute(request, places, generate) == Handled(Err(LengthMismatch), [])
  {
  }

  /**
   * The request succeeds exactly when the lengths agree and every name
   * resolves; then the route has one stop per input pair, in input order,
   * stop i carrying categories[i] and a location named names[i] (the queried
   * name) at the first candidate's coordinates.
   */
  lemma RouteKeepsInputOrder(request: RouteRequest, places: string -> PlacesResponse,
                             generate: Prompt -> Generated)
    ensures var h := ComposeRoute(request, places, generate);
            h.result.Ok? <==> |request.categories| == |request.names|
                              && forall i :: 0 <= i < |request.names| ==> Resolves(request.names[i], places)
    ensures var h := ComposeRoute(request, places, generate);
            h.result.Ok? ==>
              && |h.result.value.route| == |request.names| == |request.categories|
              && forall i :: 0 <= i < |request.names| ==>
                   var stop, found := h.result.value.route[i], places(request.names[i]);
                   && stop.category == request.categories[i]
                   && stop.location.name == request.names[i]
                   && stop.location.lat == found.candidates[0].lat
                   && stop.location.lng == found.candidates[0].lng
  {
    var names := request.names;
    var k := FirstUnresolved(names, places);
    if |request.categories| == |names| && k < |names| {
      assert !Resolves(names[k], places);
    }
  }

  /**
   * A name that does not resolve fails the whole request with a 404 naming
   * the first such name: no route is returned, the lookups stop at that
   * name, and the narrative is never generated.
   */
  lemma UnresolvedNameAborts(request: RouteRequest, places: string -> PlacesResponse,
                             generate: Prompt -> Generated, i: nat)
    requires |request.categories| == |request.names|
    requires i < |request.names| && !Resolves(request.names[i], places)
    ensures var h := ComposeRoute(request, places, generate);
            exists k :: 0 <= k <= i
                        && !Resolves(request.names[k], places)
                        && (forall j :: 0 <= j < k ==> Resolves(request.names[j], places))
                        && h.result == Err(PlaceNotFound(request.names[k]))
                        && h.calls == Lookups(request.names[..k + 1])
    ensures forall c :: c in ComposeRoute(request, places, generate).calls ==> c.PlaceLookup?
  {
    var k := FirstUnresolved(request.names, places);
    assert k <= i;
  }

  /** On success the narrative is generated once, after one lookup per name, from the course text of the input lists. */
  lemma GuideFollowsLookups(request: RouteRequest, places: string -> PlacesResponse,
                            generate: Prompt -> Generated)
    requires ComposeRoute(request, places, generate).result.Ok?
    ensures var h := ComposeRoute(request, places, generate);
            var n := |request.names|;
            && |h.calls| == n + 1
            && (forall i :: 0 <= i < n ==> h.calls[i] == PlaceLookup(request.names[i]))
            && h.calls[n] == Generation(GuidePrompt(CourseText(request.categories, request.names)))
            && h.result.value.guide == TransportationGuide(request.categories, request.names, generate)
  {
  }
}

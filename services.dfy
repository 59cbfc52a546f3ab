/**
 * The two external services the handlers call, reduced to the values they
 * exchange, and the errors the handlers answer with.
 *
 * The place-lookup HTTP request and the text-generation SDK are not modelled:
 * a handler receives each as a function parameter (an oracle) and records
 * every call it makes, in order, so that "which calls were made before an
 * error" is part of what a handler returns.
 */
module Services {
  import opened Wrappers

  /** An HTTP error response: its status code and its detail text. */
  datatype HttpError = HttpError(status: nat, detail: string)

  /** The generic 500 answer for an exception no handler catches. */
  const InternalServerError := HttpError(500, "Internal Server Error")

  /** LatLng: a resolved place. Coordinates are passed through untouched. */
  datatype LatLng = LatLng(name: string, lat: real, lng: real)

  /** One candidate of a place-lookup response: its name and its geometry.location. */
  datatype Candidate = Candidate(name: string, lat: real, lng: real)

  /** The fields of a place-lookup response the handler reads; a missing status is any string other than "OK". */
  datatype PlacesResponse = PlacesResponse(status: string, candidates: seq<Candidate>)

  /**
   * What is sent to the text generator. The fixed instruction text of each
   * template is not modelled; each prompt carries the value it embeds.
   */
  datatype Prompt =
    | GuidePrompt(courseText: string)     // one-line transit narrative for an ordered course
    | RegionPrompt(region: string)        // three four-stop itineraries for a region
    | RecommendPrompt(userQuery: string)  // persona instruction followed by a canned user query

  /** What the text generator gives back: its text, or an exception with its message. */
  datatype Generated = Text(text: string) | Raised(message: string)

  /** One outbound call, in the order a handler makes them. */
  datatype Call = PlaceLookup(name: string) | Generation(prompt: Prompt)

  /** A handler's answer together with the outbound calls it made to reach it. */
  datatype Handled<+T> = Handled(result: Result<T, HttpError>, calls: seq<Call>)

  /** The 404 raised for a place the lookup does not resolve. */
  function PlaceNotFound(placeName: string): HttpError {
    HttpError(404, "장소 '" + placeName + "'을(를) 찾을 수 없습니다.")
  }

  /**
   * get_place_location on the lookup's response: the place resolves exactly
   * when the status is "OK" and there is at least one candidate; it then
   * carries the QUERIED name (not the candidate's) with the first
   * candidate's coordinates, and otherwise the answer is a 404 naming it.
   */
  function GetPlaceLocation(placeName: string, response: PlacesResponse): (r: Result<LatLng, HttpError>)
    ensures r.Ok? <==> response.status == "OK" && |response.candidates| > 0
    ensures r.Ok? ==> r.value == LatLng(placeName, response.candidates[0].lat, response.candidates[0].lng)
    ensures r.Err? ==> r.error.status == 404 && r.error == PlaceNotFound(placeName)
  {
    if response.status == "OK" && |response.candidates| > 0 then
      var loc := response.candidates[0];
      Ok(LatLng(placeName, loc.lat, loc.lng))
    else
      Err(PlaceNotFound(placeName))
  }
}

# ecopath_AI request handlers, modelled in Dafny

This project models the deterministic core of `routes.py`, the FastAPI
backend of ecopath_AI. The backend turns travel-planning requests into
itineraries. It resolves place names through the Google Places lookup and
asks Gemini for transit narratives, itineraries and eco-friendly
recommendations. The model covers what the backend itself decides:

- **Brace-slice extraction** (`Extraction`). The handlers cut JSON out of
  generated text with `text[text.find('{'):text.rfind('}') + 1]`. The model
  uses Python's exact `find`, `rfind` and slice rules (`PythonStrings`), so
  it keeps the heuristic's odd cases. A text with no `}` gives the empty
  string. A text with no `{` gives `"}"` when it ends in `}`, because the
  start index `-1` counts from the end. The recommendation handler
  always parses `"[" + slice + "]"`, so a text with no braces at all
  reaches the parser as `"[]"`.
- **Transit narrative** (`Guide`). Each pair becomes `category: name`, the
  pairs are joined with `" -> "`, and that text is embedded in the prompt.
  The answer is returned stripped of surrounding whitespace. If the
  generator raises, a fixed fallback sentence is returned instead.
- **Ordered route** (`OrderedRoute`, POST `/eco_routes_dynamic`). Lists of
  unequal length get a 400. Otherwise each name is resolved in input order,
  the first name that does not resolve gives a 404, and the route keeps
  the input order. Each stop keeps the queried name, not the candidate's.
- **Region itineraries** (`RegionRoutes`, GET `/gemini_routes`). One
  generation call is made, then the brace slice of its answer is parsed.
  Any failure becomes a 500 carrying the exception's message.
- **Eco recommendations** (`Recommend`, GET `/get_gemini_recommend`). A
  category outside the four valid ones gets a 400 before any call.
  Otherwise the canned query with the same index is sent (`Categories`).

The two external services and the JSON parser are function parameters
(oracles). Every handler returns its answer together with the list of
outbound calls it made (`Services.Handled`). This is how the model states
that an error came before a call.

Two behaviours of the code are worth stating outright:

- Extraction never fails by itself: with a brace missing or out of order it
  hands `""`, `"}"`, `"[]"` or `"[}]"` to the JSON parser, and any failure
  is the parser's.
- The narrative prompt lists the input category and name lists, not the
  resolved places; each resolved place carries its input name anyway.

## Model

| member | source | states |
|---|---|---|
| `PythonStrings.Find` | routes.py:150 | `find('{')` is -1 exactly when there is no `{`; otherwise it is an index holding `{` with none before it |
| `PythonStrings.RFind` | routes.py:151 | `rfind('}')` is -1 exactly when there is no `}`; otherwise it is an index holding `}` with none after it |
| `PythonStrings.LeadingSpace` | routes.py:83 | counts the whitespace that starts the text: every character before the count is whitespace and the next one is not |
| `PythonStrings.TrailingSpace` | routes.py:83 | counts the whitespace that ends the text: every character in the counted tail is whitespace and the one before it is not |
| `PythonStrings.StripKeepsRun` | routes.py:83 | `strip()` keeps the contiguous run of the text that starts right after its leading whitespace |
| `PythonStrings.StripDropsOnlySpace` | routes.py:83 | everything `strip()` drops, before or after what it keeps, is whitespace in the sense of `str.isspace` |
| `PythonStrings.StripKeepsNoOuterSpace` | routes.py:83 | what `strip()` keeps is empty or neither starts nor ends with whitespace |
| `PythonStrings.JoinAt` | routes.py:66 | `sep.join(xs)` is item 0, sep, item 1, ..., the last item: item i sits at its offset, a separator follows every item but the last, and the last item ends the string |
| `Extraction.ArrayText` | routes.py:248 | the recommendation parser input is the brace slice framed by `[` and `]` |
| `Extraction.BraceSliceSpansBraces` | routes.py:150-152 | with a first `{` at s and a last `}` at e, s <= e, the slice is exactly `text[s..e+1]`; it starts with `{` and ends with `}` |
| `Extraction.BraceSliceEmptyWithoutClose` | routes.py:150-152 | no `}` means the end index is 0 and the slice is empty |
| `Extraction.BraceSliceEmptyWhenReversed` | routes.py:150-152 | a last `}` before the first `{` gives the empty slice |
| `Extraction.BraceSliceWithoutOpen` | routes.py:245-247 | no `{` gives `"}"` when the text ends in `}` and the empty slice otherwise |
| `Extraction.BraceSliceNonEmptyIff` | routes.py:245-247 | the slice is non-empty exactly when there is a `}` and either a `{` before the last `}`, or no `{` and a final `}` |
| `Extraction.EmbeddedObject` | routes.py:150-153 | a JSON object inside prose with no `{` before it and no `}` after it is extracted exactly |
| `Extraction.ArrayTextWithoutBraces` | routes.py:245-248 | text without braces reaches the parser as `"[]"`, an empty array rather than an error |
| `Extraction.ArrayTextOfEmbeddedObject` | routes.py:245-248 | a bare object embedded in prose reaches the parser as a one-element array |
| `Categories.IndexOf` | routes.py:235 | `list.index` returns the first position of the value, or signals its absence (the ValueError case) exactly when the value is missing |
| `Categories.QueryFor` | routes.py:228-236 | a canned query exists exactly for the four valid categories, and category i selects query i |
| `Categories.CafeSelectsThirdQuery` | routes.py:47 | the cafe category selects the third canned query |
| `Services.GetPlaceLocation` | routes.py:49-62 | a place resolves exactly when the status is "OK" and there is a candidate; it keeps the queried name and takes the first candidate's coordinates; otherwise the answer is a 404 naming the place |
| `Guide.CourseLines` | routes.py:65 | one `category: name` line per pair of the zip, in input order, as many as the shorter list |
| `Guide.CourseTextEntry` | routes.py:64-66 | for equal-length lists, entry i of the course text is `categories[i]: names[i]`, followed by `" -> "` unless it is the last entry |
| `Guide.CourseTextEmpty` | routes.py:65-66 | empty lists, which pass the length check, give the empty course text |
| `Guide.TransportationGuide` | routes.py:81-85 | the narrative never fails: a raising generator gives the fixed fallback sentence, otherwise the stripped generated text |
| `OrderedRoute.FirstUnresolved` | routes.py:96-97 | the index of the first name the lookup does not resolve; every name before it resolves |
| `OrderedRoute.RecommendOrderedRoute` | routes.py:87-108 | the handler's loop builds the same answer and makes the same calls, in the same order, as `ComposeRoute` |
| `OrderedRoute.MismatchMakesNoCall` | routes.py:92-93 | unequal list lengths give the 400 with no lookup and no generation call |
| `OrderedRoute.RouteKeepsInputOrder` | routes.py:95-101 | success happens exactly when the lengths agree and every name resolves; then stop i has `categories[i]`, the name `names[i]` and the first candidate's coordinates |
| `OrderedRoute.UnresolvedNameAborts` | routes.py:96-97 | an unresolved name gives a 404 for the first unresolved name; lookups stop there, no route is returned and nothing is generated |
| `OrderedRoute.GuideFollowsLookups` | routes.py:103-108 | on success, one lookup per name in order, then one generation for the course text of the input lists |
| `RegionRoutes.GetGeminiRoutes` | routes.py:111-157 | exactly one generation call; a generator exception becomes a 500 with its message; otherwise the result is what the parser makes of the brace slice, a parse error becoming a 500 |
| `RegionRoutes.RoutesFromEmbeddedObject` | routes.py:146-154 | an object embedded in prose without stray braces is what gets parsed; the handler succeeds exactly when it parses |
| `RegionRoutes.RoutesWithoutClosingBrace` | routes.py:150-153 | generated text with no `}` reaches the parser as the empty string |
| `Recommend.GetGeminiRecommend` | routes.py:208-254 | an unknown category fails (ValueError, 500) before any call; a valid one sends exactly its canned query and succeeds exactly when generation and the parse of the bracketed slice succeed; uncaught errors are 500 |
| `Recommend.GetGeminiRecommendRoutes` | routes.py:256-262 | a category outside the valid four gives the 400 with no call at all; otherwise the recommendation step runs |
| `Recommend.RecommendSendsAlignedQuery` | routes.py:228-243 | category i sends canned query i and nothing else, and a success reports that query |
| `Recommend.CafeSendsThirdQuery` | routes.py:228-236 | asking about cafes sends the third, cafe-specific query |
| `Recommend.RecommendWithoutBraces` | routes.py:243-248 | an answer with no braces is parsed as `"[]"`, so the request succeeds whenever the empty array parses |
| `Recommend.RecommendFromEmbeddedObject` | routes.py:243-254 | a bare object embedded in prose is parsed as a one-element array |

## Left out

- The Google Places HTTP request (routes.py:50-57) is not modelled. It is network I/O. The handler receives the lookup as a function from a name to the response fields it reads, `status` and `candidates`.
- The place lookup is a function of the name, so a name that appears twice in a request gets the same answer both times; the live service could answer differently. The handler's logic does not depend on this.
- A lookup response whose first candidate has no `geometry.location` raises KeyError (a 500). The model assumes each candidate carries its coordinates. Network exceptions from `requests` are also left out.
- The Gemini calls (routes.py:82, 147, 195, 243) are not modelled. They are network I/O. The generator is a function from a prompt to its text or the message of the exception it raised. That covers `response.text` raising too.
- `json.loads` is a library parser. It is a function parameter giving the parsed value or the error message. Its grammar is not modelled.
- Latitude and longitude are floats in the source. They are `real` values that are only copied, with no arithmetic.
- The instruction text of the three prompt templates (routes.py:67-79, 113-144, 211-225) is constant text. A prompt carries only the value it embeds: the course text, the region or the canned query.
- The second `/gemini_routes` handler (routes.py:159-205) is identical to the first and is modelled once.
- Startup is not modelled: environment loading, API-key checks, model configuration and the per-call `GenerativeModel` construction in `get_gemini_recommend`.
- CORS middleware, FastAPI routing and Pydantic request validation are not modelled. A malformed request body (a 422 from the framework) is outside the model.
- The unused streaming imports have no behaviour to model.

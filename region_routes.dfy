/**
 * get_gemini_routes (GET /gemini_routes): ask the generator for three
 * itineraries of a region, cut the JSON object out of its answer with the
 * brace slice, and parse it. Any failure on the way, of the generator or of
 * the parser, becomes a 500 carrying the exception's message. The JSON
 * parser is a parameter: parse gives the parsed value or the message of the
 * error it raises.
 */
module RegionRoutes {
  import opened Wrappers
  import opened Services
  import opened Extraction

  /** The 500 raised for a failed generation or extraction, with the exception's message appended. */
  function GenerationFailure(message: string): HttpError {
    HttpError(500, "Gemini 응답 처리 중 오류 발생: " + message)
  }

  /** How the parser's outcome on the extracted text becomes the handler's result. */
  function ParsedOrFailure<J>(parsed: Result<J, string>): Result<J, HttpError> {
    match parsed
    case Ok(v) => Ok(v)
    case Err(m) => Err(GenerationFailure(m))
  }

  /**
   * The handler makes exactly one call, the generation for the region. It
   * fails with a 500 when the generator raises and otherwise answers with
   * what the parser makes of the brace slice of the generated text.
   */
  function GetGeminiRoutes<J>(region: string, generate: Prompt -> Generated,
                              parse: string -> Result<J, string>): (h: Handled<J>)
    ensures h.calls == [Generation(RegionPrompt(region))]
    ensures h.result.Err? ==> h.result.error.status == 500
    ensures generate(RegionPrompt(region)).Raised? ==>
              h.result == Err(GenerationFailure(generate(RegionPrompt(region)).message))
    ensures generate(RegionPrompt(region)).Text? ==>
              h.result == ParsedOrFailure(parse(BraceSlice(generate(RegionPrompt(region)).text)))
  {
    var calls := [Generation(RegionPrompt(region))];
    match generate(RegionPrompt(region))
    case Raised(m) => Handled(Err(GenerationFailure(m)), calls)
    case Text(t) => Handled(ParsedOrFailure(parse(BraceSlice(t))), calls)
  }

  /**
   * When the generator wraps the JSON object in prose without stray braces,
   * the parser sees exactly that object, and the handler succeeds exactly
   * when the object parses.
   */
  lemma RoutesFromEmbeddedObject<J>(region: string, generate: Prompt -> Generated,
                                    parse: string -> Result<J, string>,
                                    before: string, json: string, after: string)
    requires generate(RegionPrompt(region)) == Text(before + json + after)
    requires '{' !in before && '}' !in after
    requires |json| >= 2 && json[0] == '{' && json[|json| - 1] == '}'
    ensures GetGeminiRoutes(region, generate, parse).result.Ok? <==> parse(json).Ok?
    ensures parse(json).Ok? ==> GetGeminiRoutes(region, generate, parse).result == Ok(parse(json).value)
  {
    EmbeddedObject(before, json, after);
  }

  /** Generated text with no '}' reaches the parser as the empty string. */
  lemma RoutesWithoutClosingBrace<J>(region: string, generate: Prompt -> Generated,
                                     parse: string -> Result<J, string>)
    requires generate(RegionPrompt(region)).Text?
    requires '}' !in generate(RegionPrompt(region)).text
    ensures GetGeminiRoutes(region, generate, parse).result == ParsedOrFailure(parse(""))
  {
    BraceSliceEmptyWithoutClose(generate(RegionPrompt(region)).text);
  }
}

/**
 * get_gemini_recommend_routes (GET /get_gemini_recommend) and
 * get_gemini_recommend: reject a category outside the fixed four with a 400
 * before anything is sent; otherwise send the category's canned query,
 * wrap the brace slice of the answer in "[" and "]" and parse that. The
 * recommendation step catches nothing, so a generator or parser exception
 * reaches the framework as a plain 500.
 */
module Recommend {
  import opened Wrappers
  import opened Categories
  import opened Services
  import opened Extraction

  /** The body under "responses": the query sent and the parsed response array. */
  datatype Recommendation<+J> = Recommendation(query: string, response: J)

  /** The 400 for a category outside valid_categories; it names the answer and lists the valid categories. */
  function InvalidCategory(answer: string): HttpError {
    HttpError(400, "'" + answer + "'은(는) 유효한 카테고리가 아닙니다. 유효한 카테고리는 ['숙박', '식당', '카페', '관광지']입니다.")
  }

  /**
   * get_gemini_recommend. A category with no canned query raises ValueError
   * in valid_categories.index before any call; a valid one sends exactly its
   * own query, and the parser receives the bracketed brace slice of the
   * answer.
   */
  function GetGeminiRecommend<J>(answer: string, generate: Prompt -> Generated,
                                 parse: string -> Result<J, string>): (h: Handled<Recommendation<J>>)
    ensures answer !in ValidCategories ==> h == Handled(Err(InternalServerError), [])
    ensures answer in ValidCategories ==>
              var query := QueryFor(answer).value;
              && h.calls == [Generation(RecommendPrompt(query))]
              && (h.result.Ok? <==> generate(RecommendPrompt(query)).Text?
                                    && parse(ArrayText(generate(RecommendPrompt(query)).text)).Ok?)
              && (h.result.Ok? ==>
                    h.result.value == Recommendation(query, parse(ArrayText(generate(RecommendPrompt(query)).text)).value))
              && (h.result.Err? ==> h.result.error == InternalServerError)
  {
    match QueryFor(answer)
    case None => Handled(Err(InternalServerError), [])
    case Some(query) =>
      var calls := [Generation(RecommendPrompt(query))];
      match generate(RecommendPrompt(query))
      case Raised(_) => Handled(Err(InternalServerError), calls)
      case Text(t) =>
        match parse(ArrayText(t))
        case Err(_) => Handled(Err(InternalServerError), calls)
        case Ok(v) => Handled(Ok(Recommendation(query, v)), calls)
  }

  /** get_gemini_recommend_routes: validate the category, then recommend. */
  function GetGeminiRecommendRoutes<J>(answer: string, generate: Prompt -> Generated,
                                       parse: string -> Result<J, string>): (h: Handled<Recommendation<J>>)
    ensures answer !in ValidCategories ==> h == Handled(Err(InvalidCategory(answer)), [])
    ensures answer in ValidCategories ==> h == GetGeminiRecommend(answer, generate, parse)
  {
    if answer !in ValidCategories then Handled(Err(InvalidCategory(answer)), [])
    else GetGeminiRecommend(answer, generate, parse)
  }

  /**
   * Category i sends canned query i and nothing else, and a successful
   * answer reports that query.
   */
  lemma RecommendSendsAlignedQuery<J>(answer: string, generate: Prompt -> Generated,
                                      parse: string -> Result<J, string>, i: nat)
    requires i < |ValidCategories| && answer == ValidCategories[i]
    ensures var h := GetGeminiRecommendRoutes(answer, generate, parse);
            && h.calls == [Generation(RecommendPrompt(UserQueries[i]))]
            && (h.result.Ok? ==> h.result.value.query == UserQueries[i])
  {
  }

  /** Asking about cafes sends the third query, the one about eco-friendly cafes. */
  lemma CafeSendsThirdQuery<J>(generate: Prompt -> Generated, parse: string -> Result<J, string>)
    ensures GetGeminiRecommendRoutes("카페", generate, parse).calls
            == [Generation(RecommendPrompt("서울에 친환경적인 카페가 있을까?"))]
  {
    CafeSelectsThirdQuery();
  }

  /**
   * An answer holding no brace at all reaches the parser as "[]", so the
   * request succeeds with whatever the parser makes of the empty array.
   */
  lemma RecommendWithoutBraces<J>(answer: string, generate: Prompt -> Generated,
                                  parse: string -> Result<J, string>)
    requires answer in ValidCategories
    requires generate(RecommendPrompt(QueryFor(answer).value)).Text?
    requires var t := generate(RecommendPrompt(QueryFor(answer).value)).text;
             '{' !in t && '}' !in t
    ensures var h := GetGeminiRecommendRoutes(answer, generate, parse);
            && (h.result.Ok? <==> parse("[]").Ok?)
            && (h.result.Ok? ==> h.result.value.response == parse("[]").value)
  {
    ArrayTextWithoutBraces(generate(RecommendPrompt(QueryFor(answer).value)).text);
  }

  /** A bare object in prose without stray braces reaches the parser as a one-element array. */
  lemma RecommendFromEmbeddedObject<J>(answer: string, generate: Prompt -> Generated,
                                       parse: string -> Result<J, string>,
                                       before: string, json: string, after: string)
    requires answer in ValidCategories
    requires generate(RecommendPrompt(QueryFor(answer).value)) == Text(before + json + after)
    requires '{' !in before && '}' !in after
    requires |json| >= 2 && json[0] == '{' && json[|json| - 1] == '}'
    ensures var h := GetGeminiRecommendRoutes(answer, generate, parse);
            && (h.result.Ok? <==> parse("[" + json + "]").Ok?)
            && (h.result.Ok? ==> h.result.value.response == parse("[" + json + "]").value)
  {
    ArrayTextOfEmbeddedObject(before, json, after);
  }
}

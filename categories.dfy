/**
 * The closed set of place categories (lodging, restaurant, cafe, tourist
 * attraction) and the canned recommendation query that belongs to each,
 * aligned by index.
 */
module Categories {
  import opened Wrappers

  /** valid_categories, in this order: lodging, restaurant, cafe, tourist attraction. */
  const ValidCategories: seq<string> := ["숙박", "식당", "카페", "관광지"]

  /** user_queries: query i asks for a sustainable place of category ValidCategories[i] in Seoul. */
  const UserQueries: seq<string> := [
    "서울에 환경을 생각하는 특별한 숙소 없을까?",
    "서울에서 지속 가능한 식재료를 사용하는 음식점 추천해줘.",
    "서울에 친환경적인 카페가 있을까?",
    "서울에서 자연을 느낄 수 있는 지속가능한 관광지 좀 알려줘."
  ]

  /** xs.index(x): the first position of x, or None where Python raises ValueError. */
  function IndexOf(xs: seq<string>, x: string): (r: Option<nat>)
    ensures r.None? <==> x !in xs
    ensures r.Some? ==> r.value < |xs| && xs[r.value] == x && x !in xs[..r.value]
  {
    if |xs| == 0 then None
    else if xs[0] == x then Some(0)
    else
      match IndexOf(xs[1..], x)
      case None => None
      case Some(k) =>
        assert xs[..k + 1] == [xs[0]] + xs[1..][..k];
        Some(k + 1)
  }

  /**
   * user_queries[valid_categories.index(category)]: the canned query for a
   * valid category, None for any other string. Since the categories are
   * distinct, category i selects query i.
   */
  function QueryFor(category: string): (r: Option<string>)
    ensures r.Some? <==> category in ValidCategories
    ensures forall i :: 0 <= i < |ValidCategories| && ValidCategories[i] == category ==>
              r == Some(UserQueries[i])
  {
    match IndexOf(ValidCategories, category)
    case None => None
    case Some(i) => Some(UserQueries[i])
  }

  /** The cafe category selects the third canned query, the one asking for eco-friendly cafes. */
  lemma CafeSelectsThirdQuery()
    ensures QueryFor("카페") == Some(UserQueries[2])
    ensures QueryFor("카페") == Some("서울에 친환경적인 카페가 있을까?")
  {
    assert ValidCategories[2] == "카페";
  }
}

/**
 * generate_transportation_guide: list the course as "category: name" pairs
 * joined by " -> ", embed that text in the narrative prompt, and return the
 * generator's answer without surrounding whitespace, or a fixed fallback
 * sentence when generation raises.
 */
module Guide {
  import opened PythonStrings
  import opened Services

  /** The sentence returned when generation fails ("could not generate a route description"). */
  const GuideFallback: string := "이동 경로 설명을 생성하지 못했습니다."

  /** The separator between course entries. */
  const Arrow: string := " -> "

  /** [f"{cat}: {name}" for cat, name in zip(categories, names)]; zip stops at the shorter list. */
  function CourseLines(categories: seq<string>, names: seq<string>): (lines: seq<string>)
    ensures |lines| == if |categories| <= |names| then |categories| else |names|
    ensures forall i :: 0 <= i < |lines| ==> lines[i] == categories[i] + ": " + names[i]
  {
    if |categories| == 0 || |names| == 0 then []
    else [categories[0] + ": " + names[0]] + CourseLines(categories[1..], names[1..])
  }

  /** " -> ".join(course_lines) */
  function CourseText(categories: seq<string>, names: seq<string>): string {
    Join(Arrow, CourseLines(categories, names))
  }

  /**
   * The course text lists the pairs in input order: for lists of equal
   * length, entry i is categories[i] + ": " + names[i], it is followed by
   * " -> " unless it is the last, and the last entry ends the text.
   */
  lemma CourseTextEntry(categories: seq<string>, names: seq<string>, i: nat)
    requires |categories| == |names| && i < |names|
    ensures var lines := CourseLines(categories, names);
            var text, at := CourseText(categories, names), JoinOffset(Arrow, lines, i);
            var entry := categories[i] + ": " + names[i];
            && at + |entry| <= |text| && text[at..at + |entry|] == entry
            && (i + 1 < |names| ==> && at + |entry| + |Arrow| <= |text|
                                    && text[at + |entry|..at + |entry| + |Arrow|] == Arrow
                                    && JoinOffset(Arrow, lines, i + 1) == at + |entry| + |Arrow|)
            && (i + 1 == |names| ==> at + |entry| == |text|)
  {
    JoinAt(Arrow, CourseLines(categories, names), i);
  }

  /** Empty lists pass the length check and give the empty course text. */
  lemma CourseTextEmpty()
    ensures CourseText([], []) == ""
  {
  }

  /**
   * The guide never fails: a raising generator yields the fallback sentence,
   * and otherwise the guide is the generated text with its leading and
   * trailing whitespace removed. The prompt embeds the course text.
   */
  function TransportationGuide(categories: seq<string>, names: seq<string>,
                               generate: Prompt -> Generated): (r: string)
    ensures generate(GuidePrompt(CourseText(categories, names))).Raised? ==> r == GuideFallback
    ensures generate(GuidePrompt(CourseText(categories, names))).Text? ==>
              r == Strip(generate(GuidePrompt(CourseText(categories, names))).text)
  {
    match generate(GuidePrompt(CourseText(categories, names)))
    case Text(t) => Strip(t)
    case Raised(_) => GuideFallback
  }
}

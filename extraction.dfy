/**
 * The brace-slice heuristic every generation-backed handler applies to the
 * generated text: take the first '{', the last '}' plus one, and slice
 * between them with Python's slice rules. It is a heuristic, not a parser:
 * when braces are missing or out of order it yields an empty or one-character
 * string rather than failing, and the failure (if any) is left to the JSON
 * parser that reads the slice.
 */
module Extraction {
  import opened PythonStrings

  /** content[content.find('{'):content.rfind('}') + 1] */
  function BraceSlice(content: string): (r: string)
    ensures |r| <= |content|
  {
    Slice(content, Find(content, '{'), RFind(content, '}') + 1)
  }

  /** "[" + BraceSlice(content) + "]": the text the recommendation handler hands to the parser. */
  function ArrayText(content: string): (r: string)
    ensures |r| == |BraceSlice(content)| + 2
    ensures r[0] == '[' && r[|r| - 1] == ']' && r[1..|r| - 1] == BraceSlice(content)
  {
    "[" + BraceSlice(content) + "]"
  }

  /**
   * With a '{' at its first index s and a '}' at its last index e after it,
   * the slice is exactly content[s..e+1]: it opens with '{' and closes with
   * '}' (and, by the contracts of Find and RFind, no '{' comes before it
   * and no '}' after it).
   */
  lemma BraceSliceSpansBraces(content: string)
    requires 0 <= Find(content, '{') <= RFind(content, '}')
    ensures BraceSlice(content) == content[Find(content, '{')..RFind(content, '}') + 1]
    ensures var r := BraceSlice(content);
            |r| >= 2 && r[0] == '{' && r[|r| - 1] == '}'
  {
    var s, e := Find(content, '{'), RFind(content, '}');
    assert content[s] == '{' && content[e] == '}';
    assert SliceBound(s, |content|) == s && SliceBound(e + 1, |content|) == e + 1;
    assert BraceSlice(content) == content[s..e + 1];
  }

  /** With no '}' anywhere, the end bound is 0 and the slice is empty. */
  lemma BraceSliceEmptyWithoutClose(content: string)
    requires '}' !in content
    ensures BraceSlice(content) == []
  {
  }

  /** When the last '}' comes before the first '{', the slice is empty. */
  lemma BraceSliceEmptyWhenReversed(content: string)
    requires '{' in content && '}' in content
    requires RFind(content, '}') < Find(content, '{')
    ensures BraceSlice(content) == []
  {
  }

  /**
   * With no '{' the start bound is -1, which Python reads as the last index:
   * the slice is "}" when the text ends in '}' and empty otherwise.
   */
  lemma BraceSliceWithoutOpen(content: string)
    requires '{' !in content
    ensures BraceSlice(content) ==
              if |content| > 0 && content[|content| - 1] == '}' then "}" else ""
  {
    if '}' in content && RFind(content, '}') < |content| - 1 {
      assert content[|content| - 1] != '}' by {
        assert content[|content| - 1] in content[RFind(content, '}') + 1..];
      }
    }
  }

  /**
   * The slice is non-empty exactly when the text holds a '}' and either a
   * '{' before its last '}', or no '{' at all and a final '}'.
   */
  lemma BraceSliceNonEmptyIff(content: string)
    ensures BraceSlice(content) != [] <==>
              '}' in content
              && (if '{' in content then Find(content, '{') <= RFind(content, '}')
                  else content[|content| - 1] == '}')
  {
    if '}' !in content {
      BraceSliceEmptyWithoutClose(content);
    } else if '{' in content {
      if Find(content, '{') <= RFind(content, '}') {
        assert Find(content, '{') >= 0;
        BraceSliceSpansBraces(content);
      } else {
        BraceSliceEmptyWhenReversed(content);
      }
    } else {
      BraceSliceWithoutOpen(content);
    }
  }

  /**
   * A JSON object embedded in prose is recovered exactly, as long as the
   * prose before it holds no '{' and the prose after it holds no '}'.
   */
  lemma EmbeddedObject(before: string, json: string, after: string)
    requires '{' !in before && '}' !in after
    requires |json| >= 2 && json[0] == '{' && json[|json| - 1] == '}'
    ensures BraceSlice(before + json + after) == json
  {
    var text := before + json + after;
    var s, e := |before|, |before| + |json| - 1;
    assert text[s] == '{' && text[e] == '}';
    assert text[..s] == before;
    assert text[e + 1..] == after;
    assert text[s..e + 1] == json;
  }

  /** Text without any brace reaches the parser as "[]", the empty JSON array. */
  lemma ArrayTextWithoutBraces(content: string)
    requires '{' !in content && '}' !in content
    ensures ArrayText(content) == "[]"
  {
    BraceSliceEmptyWithoutClose(content);
  }

  /** A bare object embedded in prose reaches the parser wrapped as a one-element array. */
  lemma ArrayTextOfEmbeddedObject(before: string, json: string, after: string)
    requires '{' !in before && '}' !in after
    requires |json| >= 2 && json[0] == '{' && json[|json| - 1] == '}'
    ensures ArrayText(before + json + after) == "[" + json + "]"
  {
    EmbeddedObject(before, json, after);
  }
}

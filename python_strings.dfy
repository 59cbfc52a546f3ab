/**
 * The Python string built-ins the request handlers rely on, with their
 * CPython semantics: str.find and str.rfind for one character, slicing with
 * step 1 (negative bounds count from the end, then clamp), str.strip with no
 * argument, and str.join.
 */
module PythonStrings {

  /** s.find(c): the index of the first c in s, or -1 when s holds no c. */
  function Find(s: string, c: char): (r: int)
    ensures -1 <= r < |s|
    ensures r >= 0 ==> s[r] == c
    ensures forall i :: 0 <= i < |s| && (r < 0 || i < r) ==> s[i] != c
  {
    if |s| == 0 then -1
    else if s[0] == c then 0
    else
      var k := Find(s[1..], c);
      if k < 0 then -1 else k + 1
  }

  /** s.rfind(c): the index of the last c in s, or -1 when s holds no c. */
  function RFind(s: string, c: char): (r: int)
    ensures -1 <= r < |s|
    ensures r >= 0 ==> s[r] == c
    ensures forall i :: 0 <= i < |s| && r < i ==> s[i] != c
  {
    if |s| == 0 then -1
    else if s[|s| - 1] == c then |s| - 1
    else RFind(s[..|s| - 1], c)
  }

  /**
   * The index a slice bound i denotes in a string of length len: a negative
   * bound counts from the end, and the outcome is clamped to [0, len].
   */
  function SliceBound(i: int, len: nat): (b: nat)
    ensures b <= len
  {
    if i < 0 then (if len + i < 0 then 0 else len + i)
    else if i > len then len
    else i
  }

  /** s[start:end]: empty when the normalised start is not before the normalised end. */
  function Slice(s: string, start: int, end: int): (r: string)
    ensures |r| <= |s|
  {
    var i, j := SliceBound(start, |s|), SliceBound(end, |s|);
    if i < j then s[i..j] else []
  }

  /** str.isspace on one character. */
  predicate IsSpace(c: char) {
    c in Whitespace
  }

  /** The characters str.isspace accepts: bidirectional class WS, B or S, or general category Zs. */
  const Whitespace: set<char> :=
    {' ', '\t', '\n', '\r', '\U{B}', '\U{C}', '\U{1C}', '\U{1D}', '\U{1E}', '\U{1F}',
     '\U{85}', '\U{A0}', '\U{1680}',
     '\U{2000}', '\U{2001}', '\U{2002}', '\U{2003}', '\U{2004}', '\U{2005}',
     '\U{2006}', '\U{2007}', '\U{2008}', '\U{2009}', '\U{200A}',
     '\U{2028}', '\U{2029}', '\U{202F}', '\U{205F}', '\U{3000}'}

  /** The number of whitespace characters s starts with. */
  function LeadingSpace(s: string): (n: nat)
    ensures n <= |s|
    ensures forall k :: 0 <= k < n ==> IsSpace(s[k])
    ensures n < |s| ==> !IsSpace(s[n])
  {
    if |s| > 0 && IsSpace(s[0]) then LeadingSpace(s[1..]) + 1 else 0
  }

  /** The number of whitespace characters s ends with. */
  function TrailingSpace(s: string): (n: nat)
    ensures n <= |s|
    ensures forall k :: |s| - n <= k < |s| ==> IsSpace(s[k])
    ensures n < |s| ==> !IsSpace(s[|s| - n - 1])
  {
    if |s| > 0 && IsSpace(s[|s| - 1]) then TrailingSpace(s[..|s| - 1]) + 1 else 0
  }

  /** s.strip(): s without its leading and its trailing whitespace. */
  function Strip(s: string): (r: string)
    ensures |r| <= |s|
  {
    var i := LeadingSpace(s);
    s[i..|s| - TrailingSpace(s[i..])]
  }

  /** Strip keeps the run of s that starts after the leading whitespace. */
  lemma StripKeepsRun(s: string)
    ensures var r, i := Strip(s), LeadingSpace(s);
            && i + |r| <= |s|
            && forall k :: 0 <= k < |r| ==> r[k] == s[i + k]
  {
  }

  /** Everything Strip drops, before or after what it keeps, is whitespace. */
  lemma StripDropsOnlySpace(s: string)
    ensures var r, i := Strip(s), LeadingSpace(s);
            && (forall k :: 0 <= k < i ==> IsSpace(s[k]))
            && (forall k :: i + |r| <= k < |s| ==> IsSpace(s[k]))
  {
    var i := LeadingSpace(s);
    var t := s[i..];
    var m := TrailingSpace(t);
    forall k | i + |t| - m <= k < |s| ensures IsSpace(s[k]) {
      assert s[k] == t[k - i];
    }
  }

  /** What Strip keeps neither starts nor ends with whitespace. */
  lemma StripKeepsNoOuterSpace(s: string)
    ensures var r := Strip(s);
            r == [] || (!IsSpace(r[0]) && !IsSpace(r[|r| - 1]))
  {
    var i := LeadingSpace(s);
    var t := s[i..];
    var m := TrailingSpace(t);
    if |t| - m > 0 {
      assert Strip(s)[0] == s[i];
      assert Strip(s)[|t| - m - 1] == t[|t| - m - 1];
    }
  }

  /** sep.join(xs): the items of xs in order with sep between neighbours. */
  function Join(sep: string, xs: seq<string>): (r: string)
  {
    if |xs| == 0 then []
    else if |xs| == 1 then xs[0]
    else xs[0] + sep + Join(sep, xs[1..])
  }

  /** Where item i of xs starts in Join(sep, xs): the lengths of the items before it, each with one separator. */
  function JoinOffset(sep: string, xs: seq<string>, i: nat): nat
    requires i <= |xs|
  {
    if i == 0 then 0 else |xs[0]| + |sep| + JoinOffset(sep, xs[1..], i - 1)
  }

  /** Each item moves the next offset on by its own length and one separator. */
  lemma {:induction false} JoinOffsetNext(sep: string, xs: seq<string>, i: nat)
    requires i < |xs|
    ensures JoinOffset(sep, xs, i + 1) == JoinOffset(sep, xs, i) + |xs[i]| + |sep|
  {
    if i > 0 {
      JoinOffsetNext(sep, xs[1..], i - 1);
    }
  }

  /** The last item ends the joined string. */
  lemma {:induction false} JoinLength(sep: string, xs: seq<string>)
    requires |xs| > 0
    ensures |Join(sep, xs)| == JoinOffset(sep, xs, |xs| - 1) + |xs[|xs| - 1]|
  {
    if |xs| > 1 {
      var rest := xs[1..];
      JoinLength(sep, rest);
      assert rest[|rest| - 1] == xs[|xs| - 1];
      assert JoinOffset(sep, xs, |xs| - 1) == |xs[0]| + |sep| + JoinOffset(sep, rest, |rest| - 1);
      assert |Join(sep, xs)| == |xs[0]| + |sep| + |Join(sep, rest)|;
    }
  }

  /** The joined string starts with the first item. */
  lemma JoinStartsWithFirst(sep: string, xs: seq<string>)
    requires |xs| > 0
    ensures |xs[0]| <= |Join(sep, xs)| && Join(sep, xs)[..|xs[0]|] == xs[0]
  {
    if |xs| > 1 {
      assert Join(sep, xs) == xs[0] + (sep + Join(sep, xs[1..]));
    }
  }

  /** Item i of xs sits at JoinOffset(sep, xs, i) in the joined string. */
  lemma {:induction false} JoinItemAt(sep: string, xs: seq<string>, i: nat)
    requires i < |xs|
    ensures JoinOffset(sep, xs, i) + |xs[i]| <= |Join(sep, xs)|
    ensures Join(sep, xs)[JoinOffset(sep, xs, i)..JoinOffset(sep, xs, i) + |xs[i]|] == xs[i]
  {
    if i == 0 {
      JoinStartsWithFirst(sep, xs);
    } else {
      var head, rest := xs[0] + sep, Join(sep, xs[1..]);
      assert Join(sep, xs) == head + rest;
      JoinItemAt(sep, xs[1..], i - 1);
      var at := JoinOffset(sep, xs[1..], i - 1);
      assert JoinOffset(sep, xs, i) == |head| + at;
      SliceAfterPrefix(head, rest, at, at + |xs[i]|);
    }
  }

  /** A separator follows every item but the last. */
  lemma {:induction false} JoinSeparatorAfter(sep: string, xs: seq<string>, i: nat)
    requires i + 1 < |xs|
    ensures JoinOffset(sep, xs, i) + |xs[i]| + |sep| <= |Join(sep, xs)|
    ensures Join(sep, xs)[JoinOffset(sep, xs, i) + |xs[i]|..JoinOffset(sep, xs, i) + |xs[i]| + |sep|] == sep
  {
    var head, rest := xs[0] + sep, Join(sep, xs[1..]);
    assert Join(sep, xs) == head + rest;
    if i == 0 {
      assert Join(sep, xs) == xs[0] + sep + rest;
    } else {
      JoinSeparatorAfter(sep, xs[1..], i - 1);
      var end := JoinOffset(sep, xs[1..], i - 1) + |xs[i]|;
      assert JoinOffset(sep, xs, i) + |xs[i]| == |head| + end;
      SliceAfterPrefix(head, rest, end, end + |sep|);
    }
  }

  /**
   * Join(sep, xs) is exactly item 0, sep, item 1, sep, ..., the last item:
   * item i sits at JoinOffset(sep, xs, i), a separator follows every item but
   * the last, and the last item ends the string.
   */
  lemma JoinAt(sep: string, xs: seq<string>, i: nat)
    requires i < |xs|
    ensures var at, r := JoinOffset(sep, xs, i), Join(sep, xs);
            && at + |xs[i]| <= |r| && r[at..at + |xs[i]|] == xs[i]
            && (i + 1 < |xs| ==>
                  && at + |xs[i]| + |sep| <= |r|
                  && r[at + |xs[i]|..at + |xs[i]| + |sep|] == sep
                  && JoinOffset(sep, xs, i + 1) == at + |xs[i]| + |sep|)
            && (i + 1 == |xs| ==> at + |xs[i]| == |r|)
  {
    JoinItemAt(sep, xs, i);
    JoinOffsetNext(sep, xs, i);
    if i + 1 < |xs| {
      JoinSeparatorAfter(sep, xs, i);
    } else {
      JoinLength(sep, xs);
    }
  }

  /** A slice of p + q beyond p is the same slice of q. */
  lemma SliceAfterPrefix(p: string, q: string, a: nat, b: nat)
    requires a <= b <= |q|
    ensures (p + q)[|p| + a..|p| + b] == q[a..b]
  {
  }
}

/**
 * `extract_json`: a search of the model's reply for the pattern `\{[\s\S]*\}`.
 * The search is leftmost and the star is greedy, so the match runs from the
 * first `{` to the LAST `}` after it, which may span several objects.
 */
module JsonExtract {
  import opened Wrappers

  /** `text[start..end]` matches the pattern: a `{`, any characters, then a `}`. */
  ghost predicate IsMatch(text: string, start: int, end: int) {
    0 <= start && start + 2 <= end <= |text| && text[start] == '{' && text[end - 1] == '}'
  }

  ghost predicate HasMatch(text: string) {
    exists start, end :: IsMatch(text, start, end)
  }

  /**
   * The match a regular-expression search reports: it starts at the leftmost
   * position where any match starts, and among the matches starting there the
   * greedy star picks the longest.
   */
  ghost predicate IsLeftmostLongest(text: string, start: int, end: int) {
    && IsMatch(text, start, end)
    && (forall s, e :: IsMatch(text, s, e) ==> start <= s)
    && (forall e :: IsMatch(text, start, e) ==> e <= end)
  }

  /** The index of the first occurrence of `c` in `s`, if any. */
  function FirstIndexOf(s: string, c: char): (r: Option<nat>)
    ensures r.Some? ==> r.value < |s| && s[r.value] == c
    ensures forall k :: 0 <= k < |s| && (r.None? || k < r.value) ==> s[k] != c
  {
    if |s| == 0 then None
    else if s[0] == c then Some(0)
    else match FirstIndexOf(s[1..], c)
      case None => None
      case Some(i) => Some(i + 1)
  }

  /** The index of the last occurrence of `c` in `s`, if any. */
  function LastIndexOf(s: string, c: char): (r: Option<nat>)
    ensures r.Some? ==> r.value < |s| && s[r.value] == c
    ensures forall k :: 0 <= k < |s| && (r.None? || r.value < k) ==> s[k] != c
  {
    if |s| == 0 then None
    else if s[|s| - 1] == c then Some(|s| - 1)
    else LastIndexOf(s[..|s| - 1], c)
  }

  /** `extract_json`: the matched text, or `None` when the pattern does not occur. */
  function ExtractJson(text: string): (r: Option<string>)
    ensures r.Some? ==> |r.value| >= 2 && r.value[0] == '{' && r.value[|r.value| - 1] == '}'
  {
    match (FirstIndexOf(text, '{'), LastIndexOf(text, '}'))
    case (Some(open), Some(close)) => if open < close then Some(text[open..close + 1]) else None
    case _ => None
  }

  /** The search finds nothing exactly when no `}` follows a `{`. */
  lemma ExtractJsonNoneIff(text: string)
    ensures ExtractJson(text).None? <==> !HasMatch(text)
    ensures ExtractJson(text).None? <==>
              !(exists i, j :: 0 <= i < j < |text| && text[i] == '{' && text[j] == '}')
  {
    match (FirstIndexOf(text, '{'), LastIndexOf(text, '}'))
    case (Some(open), Some(close)) =>
      if open < close {
        assert IsMatch(text, open, close + 1);
      } else {
        forall i, j | 0 <= i < j < |text| && text[i] == '{'
          ensures text[j] != '}'
        {
        }
      }
    case _ =>
  }

  /** Whatever it returns is the leftmost-longest match of the pattern. */
  lemma ExtractJsonIsRegexSearch(text: string, start: int, end: int)
    requires IsLeftmostLongest(text, start, end)
    ensures ExtractJson(text) == Some(text[start..end])
  {
    match (FirstIndexOf(text, '{'), LastIndexOf(text, '}'))
    case (Some(open), Some(close)) =>
      assert open <= start;
      assert end - 1 <= close;
      assert IsMatch(text, open, close + 1);
      assert start <= open;
      assert close + 1 <= end;
    case _ =>
  }

  /** A search that succeeds always reports some leftmost-longest match, ending at the last `}`. */
  lemma ExtractJsonFindsLeftmostLongest(text: string)
    requires ExtractJson(text).Some?
    ensures exists start, end ::
              && IsLeftmostLongest(text, start, end)
              && ExtractJson(text).value == text[start..end]
              && (forall k :: end <= k < |text| ==> text[k] != '}')
  {
    var open, close := FirstIndexOf(text, '{').value, LastIndexOf(text, '}').value;
    assert IsMatch(text, open, close + 1);
    assert IsLeftmostLongest(text, open, close + 1);
  }

  /** Extracting again from an extracted text returns it unchanged. */
  lemma ExtractJsonIdempotent(text: string)
    requires ExtractJson(text).Some?
    ensures ExtractJson(ExtractJson(text).value) == ExtractJson(text)
  {
    ExtractWhole(ExtractJson(text).value);
  }

  /** A text that starts with `{` and ends with `}` is extracted whole. */
  lemma ExtractWhole(t: string)
    requires |t| >= 2 && t[0] == '{' && t[|t| - 1] == '}'
    ensures ExtractJson(t) == Some(t)
  {
    assert FirstIndexOf(t, '{') == Some(0);
    assert LastIndexOf(t, '}') == Some(|t| - 1);
    assert t[0..|t|] == t;
  }

  /**
   * Two objects in one reply are extracted together, with whatever lies
   * between them: the search does not stop at the end of the first object.
   */
  lemma ExtractJsonSpansBothObjects(first: string, between: string, second: string)
    requires ExtractJson(first) == Some(first) && ExtractJson(second) == Some(second)
    ensures ExtractJson(first + between + second) == Some(first + between + second)
  {
    var t := first + between + second;
    assert t[0] == first[0];
    assert t[|t| - 1] == second[|second| - 1];
    ExtractWhole(t);
  }
}

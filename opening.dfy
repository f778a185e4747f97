// The opening-text splitter (backend/test.py): an opening line is split
// into its roleplay part, the first `*...*` segment, and the regular text
// around it.
module Opening {
  import opened Wrappers
  import PyStr

  /**
   * The pattern `\*[^*]*\*` tried at position `p`: a star, then the longest
   * run of other characters, then a star. The result is the end of the match.
   */
  function MatchAt(text: string, p: nat): Option<nat>
  {
    if p < |text| && text[p] == '*' then
      match PyStr.FindChar(text, '*', p + 1)
      case Some(q) => Some(q + 1)
      case None => None
    else None
  }

  /** `re.search`: the leftmost position at or after `from` where the pattern matches, and the end of that match. */
  function Search(text: string, from: nat): (r: Option<(nat, nat)>)
    decreases |text| - from
    ensures r.Some? ==> from <= r.value.0 && MatchAt(text, r.value.0) == Some(r.value.1)
    ensures r.Some? ==> forall k :: from <= k < r.value.0 ==> MatchAt(text, k).None?
    ensures r.None? ==> forall k :: from <= k ==> MatchAt(text, k).None?
  {
    if from >= |text| then None
    else match MatchAt(text, from)
      case Some(e) => Some((from, e))
      case None => Search(text, from + 1)
  }

  /** The text holds at least two stars. */
  predicate TwoStars(text: string)
  {
    exists i, j :: 0 <= i < j < |text| && text[i] == '*' && text[j] == '*'
  }

  /** A star followed, somewhere later, by another star starts a match. */
  lemma StarStartsMatch(text: string, k: nat, q: nat)
    requires k < q < |text| && text[k] == '*' && text[q] == '*'
    ensures MatchAt(text, k).Some?
  {
    assert PyStr.FindChar(text, '*', k + 1).Some?;
  }

  /** A position before a star where no match starts holds no star. */
  lemma NoMatchBeforeStar(text: string, k: nat, q: nat)
    requires k < q < |text| && text[q] == '*' && MatchAt(text, k).None?
    ensures text[k] != '*'
  {
  }

  /**
   * The leftmost match runs from the first star to the second one: there is
   * a match exactly when the text holds two stars.
   */
  lemma SearchIsFirstTwoStars(text: string)
    ensures TwoStars(text) ==> Search(text, 0).Some?
    ensures Search(text, 0).Some? ==>
      var (i, e) := Search(text, 0).value;
      i + 2 <= e <= |text| && text[i] == '*' && text[e - 1] == '*'
      && (forall k :: 0 <= k < i ==> text[k] != '*') && (forall k :: i < k < e - 1 ==> text[k] != '*')
    ensures Search(text, 0).Some? ==> TwoStars(text)
  {
    if TwoStars(text) {
      var i, j :| 0 <= i < j < |text| && text[i] == '*' && text[j] == '*';
      var first := PyStr.FindChar(text, '*', 0).value;
      StarStartsMatch(text, first, j);
    }
    if Search(text, 0).Some? {
      var (i, e) := Search(text, 0).value;
      forall k | 0 <= k < i
        ensures text[k] != '*'
      {
        NoMatchBeforeStar(text, k, i);
      }
      var q := PyStr.FindChar(text, '*', i + 1).value;
      assert text[i] == '*' && text[q] == '*';
    }
  }

  /** With `i` the first star and `j` the next one, the leftmost match is `text[i..j+1]`. */
  lemma SearchAt(text: string, i: nat, j: nat)
    requires i < j < |text| && text[i] == '*' && text[j] == '*'
    requires forall k :: 0 <= k < i ==> text[k] != '*'
    requires forall k :: i < k < j ==> text[k] != '*'
    ensures Search(text, 0) == Some((i, j + 1))
  {
    SearchIsFirstTwoStars(text);
    var (p, e) := Search(text, 0).value;
    assert text[p] == '*' && text[i] == '*';
    assert p == i;
    assert text[e - 1] == '*' && text[j] == '*';
  }

  /**
   * `split_opening_text`: the first `*...*` segment, stars included, and the
   * text with that segment's first occurrence removed, stripped; with no such
   * segment, an empty roleplay part and the stripped text.
   */
  function SplitOpeningText(text: string): (r: (string, string))
    ensures PyStr.Trimmed(r.1)
  {
    match Search(text, 0)
    case None => ("", PyStr.Strip(text))
    case Some((i, e)) =>
      var roleplay := text[i..e];
      (roleplay, PyStr.Strip(PyStr.Replace(text, roleplay, "", Some(1))))
  }

  /** Without two stars there is no roleplay part, and the whole text is the regular part. */
  lemma SplitWithoutRoleplay(text: string)
    ensures SplitOpeningText(text).0 == "" <==> !TwoStars(text)
    ensures !TwoStars(text) ==> SplitOpeningText(text) == ("", PyStr.Strip(text))
  {
    SearchIsFirstTwoStars(text);
  }

  /**
   * With `i` the first star and `j` the next one, the roleplay part is
   * `text[i..j+1]` and the regular part is the rest of the text, stripped.
   */
  lemma SplitRoleplay(text: string, i: nat, j: nat)
    requires i < j < |text| && text[i] == '*' && text[j] == '*'
    requires forall k :: 0 <= k < i ==> text[k] != '*'
    requires forall k :: i < k < j ==> text[k] != '*'
    ensures SplitOpeningText(text) == (text[i..j + 1], PyStr.Strip(text[..i] + text[j + 1..]))
  {
    SearchAt(text, i, j);
    var roleplay := text[i..j + 1];
    forall k | 0 <= k < i
      ensures !PyStr.OccursAt(text, roleplay, k)
    {
      assert text[k..k + |roleplay|][0] == text[k];
    }
    PyStr.FindFromIs(text, roleplay, 0, i);
    PyStr.ReplaceFirst(text, roleplay, "", i);
    assert text[..i] + "" + text[i + |roleplay|..] == text[..i] + text[j + 1..];
  }
}

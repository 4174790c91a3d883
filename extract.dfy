/**
 * The credential extractors of app.py: `re.search(r'\b\d{10}\b', text)` and
 * `re.search(r'\b\d{5}\b', text)`, returning the matched text or None.
 *
 * `\d` and `\w` are restricted to ASCII: a digit is '0'..'9', a word character
 * is an ASCII letter, a digit or '_'.
 */
module Extract {
  import opened Opt

  predicate IsDigit(c: char) { '0' <= c <= '9' }

  predicate IsWordChar(c: char) { IsDigit(c) || 'a' <= c <= 'z' || 'A' <= c <= 'Z' || c == '_' }

  /** Position k of text holds a word character; positions outside the text do not. */
  predicate WordAt(text: string, k: int) { 0 <= k < |text| && IsWordChar(text[k]) }

  /** `\b` holds at position k: exactly one of the characters around k is a word character. */
  predicate Boundary(text: string, k: int) { WordAt(text, k - 1) != WordAt(text, k) }

  /** text[i..i+n] exists and is made of digits only (`\d{n}` at i). */
  predicate DigitsAt(text: string, i: nat, n: nat)
  {
    i + n <= |text| && forall k :: i <= k < i + n ==> IsDigit(text[k])
  }

  /** The pattern `\b\d{n}\b` matches text starting at index i. */
  predicate MatchesAt(text: string, i: nat, n: nat)
  {
    Boundary(text, i) && DigitsAt(text, i, n) && Boundary(text, i + n)
  }

  /** i is the leftmost index at which `\b\d{n}\b` matches, the one `re.search` reports. */
  ghost predicate Leftmost(text: string, i: nat, n: nat)
  {
    MatchesAt(text, i, n) && forall j: nat :: j < i ==> !MatchesAt(text, j, n)
  }

  ghost predicate NoMatch(text: string, n: nat)
  {
    forall i: nat :: !MatchesAt(text, i, n)
  }

  /** `re.search` tries the start positions from..|text| in order and stops at the first match. */
  function FindFrom(text: string, n: nat, from: nat): (r: Option<nat>)
    requires from <= |text|
    ensures r.Some? ==> from <= r.value && MatchesAt(text, r.value, n)
    ensures r.Some? ==> forall j: nat :: from <= j < r.value ==> !MatchesAt(text, j, n)
    ensures r.None? ==> forall j: nat :: from <= j ==> !MatchesAt(text, j, n)
    decreases |text| - from
  {
    if MatchesAt(text, from, n) then Some(from)
    else if from == |text| then None
    else FindFrom(text, n, from + 1)
  }

  /** `re.search(r'\b\d{n}\b', text)` followed by `match.group(0)`, or None. */
  function Search(text: string, n: nat): (r: Option<string>)
    ensures r.None? <==> NoMatch(text, n)
    ensures r.Some? ==> |r.value| == n && forall k :: 0 <= k < n ==> IsDigit(r.value[k])
    ensures r.Some? ==> exists i: nat :: Leftmost(text, i, n) && r.value == text[i..i + n]
  {
    match FindFrom(text, n, 0)
    case Some(i) =>
      var s := text[i..i + n];
      assert forall k :: 0 <= k < n ==> s[k] == text[i + k];
      assert Leftmost(text, i, n);
      Some(s)
    case None => None
  }

  /** extract_phone_number: the leftmost boundary-delimited run of exactly 10 digits. */
  function ExtractPhone(text: string): (r: Option<string>)
    ensures r.None? <==> NoMatch(text, 10)
    ensures r.Some? ==> |r.value| == 10 && forall k :: 0 <= k < 10 ==> IsDigit(r.value[k])
    ensures r.Some? ==> exists i: nat :: Leftmost(text, i, 10) && r.value == text[i..i + 10]
  {
    Search(text, 10)
  }

  /** extract_zip_code: the leftmost boundary-delimited run of exactly 5 digits. */
  function ExtractZip(text: string): (r: Option<string>)
    ensures r.None? <==> NoMatch(text, 5)
    ensures r.Some? ==> |r.value| == 5 && forall k :: 0 <= k < 5 ==> IsDigit(r.value[k])
    ensures r.Some? ==> exists i: nat :: Leftmost(text, i, 5) && r.value == text[i..i + 5]
  {
    Search(text, 5)
  }

  /**
   * For a non-empty digit pattern, a match is exactly a maximal word token made of n
   * digits: the characters just before and just after it are not word characters.
   */
  lemma MatchIsDigitToken(text: string, i: nat, n: nat)
    requires 0 < n
    ensures MatchesAt(text, i, n) <==> DigitsAt(text, i, n) && !WordAt(text, i - 1) && !WordAt(text, i + n)
  {
    if DigitsAt(text, i, n) {
      assert IsDigit(text[i]) && IsDigit(text[i + n - 1]);
    }
  }

  /** A match never lies inside a longer run of digits (so 11 or more digits give no phone). */
  lemma NoMatchInsideLongerRun(text: string, a: nat, b: nat, i: nat, n: nat)
    requires 0 < n && a <= i && i + n <= b && n < b - a
    requires DigitsAt(text, a, b - a)
    ensures !MatchesAt(text, i, n)
  {
    if i > a {
      assert WordAt(text, i - 1) && WordAt(text, i);
    } else {
      assert WordAt(text, i + n - 1) && WordAt(text, i + n);
    }
  }

  /**
   * Two matches of non-empty digit patterns are the same token or do not overlap;
   * in particular a 5-digit match is never a slice of a 10-digit match.
   */
  lemma MatchesDisjointOrSame(text: string, i: nat, m: nat, j: nat, n: nat)
    requires 0 < m && 0 < n
    requires MatchesAt(text, i, m) && MatchesAt(text, j, n)
    ensures (i == j && m == n) || i + m <= j || j + n <= i
  {
    MatchIsDigitToken(text, i, m);
    MatchIsDigitToken(text, j, n);
  }

  /** The zip code found in a text never overlaps the phone number found in it. */
  lemma ZipNeverInsidePhone(text: string, p: nat, z: nat)
    requires Leftmost(text, p, 10) && Leftmost(text, z, 5)
    ensures z + 5 <= p || p + 10 <= z
  {
    MatchesDisjointOrSame(text, p, 10, z, 5);
  }

  /** `re.search` reports the leftmost match: whichever index is leftmost determines the result. */
  lemma SearchFindsLeftmost(text: string, i: nat, n: nat)
    requires Leftmost(text, i, n)
    ensures Search(text, n) == Some(text[i..i + n])
  {
    var r := Search(text, n);
    var j: nat :| Leftmost(text, j, n) && r.value == text[j..j + n];
    assert !(j < i) && !(i < j);
  }

  /** A window holding a non-digit is not a match. */
  lemma NonDigitBlocks(text: string, j: nat, n: nat, k: nat)
    requires j <= k < j + n && k < |text| && !IsDigit(text[k])
    ensures !MatchesAt(text, j, n)
  {
  }
}

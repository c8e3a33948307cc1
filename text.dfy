/** The few Python `str` operations the gateway relies on: `strip()` and
    `split()` with no argument, `lower()` as far as it matters for comparing
    against lower-case ASCII words, and `join()`. */
module Text {

  /** The characters for which Python's `str.isspace()` holds; `strip()` and
      `split()` without an argument cut at exactly these. */
  predicate IsSpace(c: char) {
    || c == ' '
    || ('\t' <= c <= '\r')
    || ('\U{1C}' <= c <= '\U{1F}')
    || c == '\U{85}' || c == '\U{A0}' || c == '\U{1680}'
    || ('\U{2000}' <= c <= '\U{200A}')
    || c == '\U{2028}' || c == '\U{2029}' || c == '\U{202F}'
    || c == '\U{205F}' || c == '\U{3000}'
  }

  predicate AllSpace(s: string) {
    forall i :: 0 <= i < |s| ==> IsSpace(s[i])
  }

  /** A non-empty run of non-whitespace characters: what `split()` yields. */
  predicate IsWord(s: string) {
    s != [] && forall i :: 0 <= i < |s| ==> !IsSpace(s[i])
  }

  /** Neither the first nor the last character is whitespace. */
  predicate NoEdgeSpace(s: string) {
    s == [] || (!IsSpace(s[0]) && !IsSpace(s[|s| - 1]))
  }

  /** `s.lstrip()`: drops the longest all-whitespace prefix. */
  function TrimStart(s: string): (r: string)
    ensures |r| <= |s|
    ensures r == [] || !IsSpace(r[0])
  {
    if s != [] && IsSpace(s[0]) then TrimStart(s[1..]) else s
  }

  /** `s.rstrip()`: drops the longest all-whitespace suffix. */
  function TrimEnd(s: string): (r: string)
    ensures |r| <= |s|
    ensures r == [] || (r[0] == s[0] && !IsSpace(r[|r| - 1]))
  {
    if s != [] && IsSpace(s[|s| - 1]) then TrimEnd(s[..|s| - 1]) else s
  }

  /** `s.strip()`. */
  function Strip(s: string): (r: string)
    ensures |r| <= |s|
    ensures NoEdgeSpace(r)
  {
    TrimEnd(TrimStart(s))
  }

  /** Length of the leading run of non-whitespace characters of `s`. */
  function WordEnd(s: string): (n: nat)
    ensures n <= |s|
    ensures forall i :: 0 <= i < n ==> !IsSpace(s[i])
    ensures n < |s| ==> IsSpace(s[n])
  {
    if s == [] || IsSpace(s[0]) then 0 else 1 + WordEnd(s[1..])
  }

  /** `s.split()`: the maximal runs of non-whitespace characters, in order;
      empty strings never appear in the result. */
  function Words(s: string): (ws: seq<string>)
    ensures forall i :: 0 <= i < |ws| ==> IsWord(ws[i])
    decreases |s|
  {
    if s == [] then []
    else if IsSpace(s[0]) then Words(s[1..])
    else
      var n := WordEnd(s);
      [s[..n]] + Words(s[n..])
  }

  /** `c.lower() == lc`, for `lc` a lower-case ASCII letter. Besides `lc`
      itself, only its upper-case ASCII form lower-cases to it, and for 'k'
      also U+212A KELVIN SIGN, the one non-ASCII character Python's
      `lower()` maps onto an ASCII letter. */
  predicate FoldsTo(c: char, lc: char) {
    || c == lc
    || ('A' <= c <= 'Z' && c as int + 32 == lc as int)
    || (c == '\U{212A}' && lc == 'k')
  }

  /** `s.lower() == word`, for a word of lower-case ASCII letters. */
  predicate LowerEquals(s: string, word: string) {
    |s| == |word| && forall i :: 0 <= i < |s| ==> FoldsTo(s[i], word[i])
  }

  /** `sep.join(parts)`. */
  function Join(parts: seq<string>, sep: string): string {
    if |parts| == 0 then ""
    else if |parts| == 1 then parts[0]
    else parts[0] + sep + Join(parts[1..], sep)
  }

  // ---------------------------------------------------------------------
  // strip()

  lemma {:induction false} TrimStartOfPadded(lead: string, s: string)
    requires AllSpace(lead)
    requires s == [] || !IsSpace(s[0])
    ensures TrimStart(lead + s) == s
    decreases |lead|
  {
    if lead == [] {
      assert lead + s == s;
    } else {
      assert (lead + s)[1..] == lead[1..] + s;
      TrimStartOfPadded(lead[1..], s);
    }
  }

  lemma {:induction false} TrimEndOfPadded(s: string, trail: string)
    requires AllSpace(trail)
    requires s == [] || !IsSpace(s[|s| - 1])
    ensures TrimEnd(s + trail) == s
    decreases |trail|
  {
    if trail == [] {
      assert s + trail == s;
    } else {
      var t := s + trail;
      assert t[..|t| - 1] == s + trail[..|trail| - 1];
      TrimEndOfPadded(s, trail[..|trail| - 1]);
    }
  }

  /** `strip()` removes exactly the surrounding whitespace: whatever
      whitespace pads a string without whitespace at its edges, stripping
      gives that string back. */
  lemma StripOfPadded(lead: string, u: string, trail: string)
    requires AllSpace(lead) && AllSpace(trail) && NoEdgeSpace(u)
    ensures Strip(lead + u + trail) == u
  {
    if u == [] {
      assert lead + u + trail == (lead + trail) + [];
      assert AllSpace(lead + trail);
      TrimStartOfPadded(lead + trail, []);
    } else {
      assert lead + u + trail == lead + (u + trail);
      TrimStartOfPadded(lead, u + trail);
      TrimEndOfPadded(u, trail);
    }
  }

  /** A string without edge whitespace is its own `strip()`; in particular
      `strip()` is idempotent. */
  lemma StripFixed(u: string)
    requires NoEdgeSpace(u)
    ensures Strip(u) == u
  {
    assert [] + u + [] == u;
    StripOfPadded([], u, []);
  }

  // ---------------------------------------------------------------------
  // split()

  lemma {:induction false} WordsOfSpace(s: string)
    requires AllSpace(s)
    ensures Words(s) == []
    decreases |s|
  {
    if s != [] {
      WordsOfSpace(s[1..]);
    }
  }

  lemma {:induction false} WordsSkipSpace(lead: string, s: string)
    requires AllSpace(lead)
    ensures Words(lead + s) == Words(s)
    decreases |lead|
  {
    if lead == [] {
      assert lead + s == s;
    } else {
      assert (lead + s)[1..] == lead[1..] + s;
      WordsSkipSpace(lead[1..], s);
    }
  }

  lemma {:induction false} WordEndOfWord(w: string, s: string)
    requires IsWord(w)
    requires s == [] || IsSpace(s[0])
    ensures WordEnd(w + s) == |w|
    decreases |w|
  {
    if |w| > 1 {
      assert (w + s)[1..] == w[1..] + s;
      WordEndOfWord(w[1..], s);
    } else {
      assert (w + s)[1..] == s;
    }
  }

  /** A word followed by whitespace (or by nothing) is split off whole. */
  lemma WordsOfWordThen(w: string, s: string)
    requires IsWord(w)
    requires s == [] || IsSpace(s[0])
    ensures Words(w + s) == [w] + Words(s)
  {
    WordEndOfWord(w, s);
    assert (w + s)[..|w|] == w;
    assert (w + s)[|w|..] == s;
  }

  lemma WordsOfWord(w: string)
    requires IsWord(w)
    ensures Words(w) == [w]
  {
    WordsOfWordThen(w, []);
    assert w + [] == w;
  }

  /** Two words separated by any non-empty run of whitespace split into
      exactly those two words. */
  lemma WordsOfTwo(w1: string, sep: string, w2: string)
    requires IsWord(w1) && IsWord(w2)
    requires AllSpace(sep) && sep != []
    ensures Words(w1 + sep + w2) == [w1, w2]
  {
    assert w1 + sep + w2 == w1 + (sep + w2);
    WordsOfWordThen(w1, sep + w2);
    WordsSkipSpace(sep, w2);
    WordsOfWord(w2);
  }
}

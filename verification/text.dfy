/**
  Character classes and the string helpers the form handler relies on:
  JavaScript's `\s` and `\d`, the Latin letter class of the name pattern,
  runs of characters of one class (what a greedy repetition consumes), and
  `String.prototype.trim`.
 */
module Text {

  /** JavaScript's `\s`: the ECMAScript WhiteSpace and LineTerminator code
      points. `String.prototype.trim` strips exactly the same set. */
  predicate IsSpace(c: char) {
    || c == '\t' || c == '\n' || c == '\U{B}' || c == '\U{C}' || c == '\r'
    || c == ' ' || c == '\U{A0}' || c == '\U{1680}'
    || ('\U{2000}' <= c <= '\U{200A}')
    || c == '\U{2028}' || c == '\U{2029}' || c == '\U{202F}' || c == '\U{205F}'
    || c == '\U{3000}' || c == '\U{FEFF}'
  }

  /** The letter class of the name pattern: the ASCII letters and the
      Latin-1 letters from U+00C0 to U+00FF except U+00D7 and U+00F7. */
  predicate IsLetter(c: char) {
    || ('A' <= c <= 'Z') || ('a' <= c <= 'z')
    || ('\U{C0}' <= c <= '\U{D6}') || ('\U{D8}' <= c <= '\U{F6}') || ('\U{F8}' <= c <= '\U{FF}')
  }

  /** JavaScript's `\d` (ASCII digits only: the patterns have no `u` flag). */
  predicate IsDigit(c: char) {
    '0' <= c <= '9'
  }

  /** Every character of `s[lo..hi]` belongs to the class `p`. */
  predicate Within(s: string, lo: nat, hi: nat, p: char -> bool)
    requires lo <= hi <= |s|
  {
    forall k :: lo <= k < hi ==> p(s[k])
  }

  /** `s` starts with `t`. */
  predicate StartsWith(s: string, t: string) {
    |t| <= |s| && s[..|t|] == t
  }

  /** The length of the longest run of characters of the class `p` that
      starts at position `i`: what a greedy `p*` consumes there. */
  function Run(s: string, i: nat, p: char -> bool): (n: nat)
    requires i <= |s|
    ensures i + n <= |s|
    ensures Within(s, i, i + n, p)
    ensures i + n < |s| ==> !p(s[i + n])
    decreases |s| - i
  {
    if i == |s| || !p(s[i]) then 0 else 1 + Run(s, i + 1, p)
  }

  /** `Run` is pinned down by its ensures clauses: a run of `k` characters
      of the class followed by the end or by a character outside it. */
  lemma {:induction false} RunIs(s: string, i: nat, p: char -> bool, k: nat)
    requires i + k <= |s| && Within(s, i, i + k, p)
    requires i + k < |s| ==> !p(s[i + k])
    ensures Run(s, i, p) == k
    decreases k
  {
    if k > 0 {
      RunIs(s, i + 1, p, k - 1);
    }
  }

  /** A run of `k` characters of the class is at most what `Run` consumes. */
  lemma {:induction false} RunCovers(s: string, i: nat, p: char -> bool, k: nat)
    requires i + k <= |s| && Within(s, i, i + k, p)
    ensures Run(s, i, p) >= k
    decreases k
  {
    if k > 0 {
      RunCovers(s, i + 1, p, k - 1);
    }
  }

  /** `r` is `s` with only whitespace removed at its two ends, and `r`
      neither starts nor ends with whitespace: what `trim` promises. */
  ghost predicate Trimmed(s: string, r: string) {
    && (r == [] || (!IsSpace(r[0]) && !IsSpace(r[|r| - 1])))
    && exists i :: 0 <= i <= |s| - |r| && s[i..i + |r|] == r
                   && Within(s, 0, i, IsSpace) && Within(s, i + |r|, |s|, IsSpace)
  }

  /** `s[lo..hi]` with the whitespace at both of its ends removed, one
      character at a time: the front first, then the back. */
  function TrimRange(s: string, lo: nat, hi: nat): (r: string)
    requires lo <= hi <= |s|
    decreases hi - lo
  {
    if lo < hi && IsSpace(s[lo]) then TrimRange(s, lo + 1, hi)
    else if lo < hi && IsSpace(s[hi - 1]) then TrimRange(s, lo, hi - 1)
    else s[lo..hi]
  }

  /** `String.prototype.trim`, with `IsSpace` as its whitespace set. */
  function Trim(s: string): (r: string) {
    TrimRange(s, 0, |s|)
  }

  /** A witness for the existential of `Trimmed`. */
  lemma TrimmedAt(s: string, i: nat, r: string)
    requires i + |r| <= |s| && s[i..i + |r|] == r
    requires Within(s, 0, i, IsSpace) && Within(s, i + |r|, |s|, IsSpace)
    requires r == [] || (!IsSpace(r[0]) && !IsSpace(r[|r| - 1]))
    ensures Trimmed(s, r)
  {
  }

  /** Trimming a range whose outside is all whitespace trims the string. */
  lemma {:induction false} TrimRangeTrims(s: string, lo: nat, hi: nat)
    requires lo <= hi <= |s|
    requires Within(s, 0, lo, IsSpace) && Within(s, hi, |s|, IsSpace)
    ensures Trimmed(s, TrimRange(s, lo, hi))
    decreases hi - lo
  {
    if lo < hi && IsSpace(s[lo]) {
      TrimRangeTrims(s, lo + 1, hi);
    } else if lo < hi && IsSpace(s[hi - 1]) {
      TrimRangeTrims(s, lo, hi - 1);
    } else {
      TrimmedAt(s, lo, s[lo..hi]);
    }
  }

  /** `Trim` does what `trim` promises. */
  lemma TrimTrims(s: string)
    ensures Trimmed(s, Trim(s))
  {
    TrimRangeTrims(s, 0, |s|);
  }

  /** A range of whitespace trims to nothing. */
  lemma {:induction false} TrimRangeBlank(s: string, lo: nat, hi: nat)
    requires lo <= hi <= |s| && Within(s, lo, hi, IsSpace)
    ensures TrimRange(s, lo, hi) == []
    decreases hi - lo
  {
    if lo < hi {
      TrimRangeBlank(s, lo + 1, hi);
    }
  }

  /** A range holding a non-blank `r` at `i` with only whitespace around it
      trims to `r`. */
  lemma {:induction false} TrimRangeAt(s: string, lo: nat, hi: nat, i: nat, r: string)
    requires r != [] && !IsSpace(r[0]) && !IsSpace(r[|r| - 1])
    requires lo <= i && i + |r| <= hi <= |s| && s[i..i + |r|] == r
    requires Within(s, lo, i, IsSpace) && Within(s, i + |r|, hi, IsSpace)
    ensures TrimRange(s, lo, hi) == r
    decreases hi - lo
  {
    assert s[i] == r[0] && s[i + |r| - 1] == r[|r| - 1];
    if lo < i {
      TrimRangeAt(s, lo + 1, hi, i, r);
    } else if i + |r| < hi {
      TrimRangeAt(s, lo, hi - 1, i, r);
    }
  }

  /** `trim` has exactly one possible result: any `r` that `Trimmed`
      admits is `Trim(s)`. */
  lemma TrimUnique(s: string, r: string)
    requires Trimmed(s, r)
    ensures r == Trim(s)
  {
    var i :| 0 <= i <= |s| - |r| && s[i..i + |r|] == r
             && Within(s, 0, i, IsSpace) && Within(s, i + |r|, |s|, IsSpace);
    if r == [] {
      TrimRangeBlank(s, 0, |s|);
    } else {
      TrimRangeAt(s, 0, |s|, i, r);
    }
  }

  /** A string that neither starts nor ends with whitespace is its own trim. */
  lemma TrimKeeps(s: string)
    requires s == [] || (!IsSpace(s[0]) && !IsSpace(s[|s| - 1]))
    ensures Trim(s) == s
  {
    assert s[0..|s|] == s;
    TrimmedAt(s, 0, s);
    TrimUnique(s, s);
  }

  /** Trimming twice is trimming once. */
  lemma TrimIdempotent(s: string)
    ensures Trim(Trim(s)) == Trim(s)
  {
    TrimTrims(s);
    TrimKeeps(Trim(s));
  }
}

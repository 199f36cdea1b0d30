/**
  The three regular expressions of the validator, each given twice: once as
  the set of strings the pattern accepts (a ghost predicate read off the
  pattern: anchors, classes and repetition counts), and once as the scan
  the validator runs. A lemma shows that the two agree on every input.
 */
module Patterns {
  import opened Text

  // ---------------------------------------------------------------- name

  /** The strings the name pattern accepts: two or more letters, one or
      more whitespace characters, two or more letters. The pattern is
      anchored at the start only, so any tail may follow the second word. */
  ghost predicate NameMatches(s: string) {
    exists i, j :: 2 <= i < j && j + 2 <= |s|
                   && Within(s, 0, i, IsLetter) && Within(s, i, j, IsSpace)
                   && IsLetter(s[j]) && IsLetter(s[j + 1])
  }

  /** The name check as a scan: a run of at least two letters, a run of at
      least one whitespace character, then at least two letters. */
  predicate NameValid(s: string) {
    var i := Run(s, 0, IsLetter);
    var j := i + Run(s, i, IsSpace);
    2 <= i < j && Run(s, j, IsLetter) >= 2
  }

  lemma NameValidIffMatches(s: string)
    ensures NameValid(s) <==> NameMatches(s)
  {
    if NameValid(s) {
      var i := Run(s, 0, IsLetter);
      var j := i + Run(s, i, IsSpace);
      assert IsLetter(s[j]) && IsLetter(s[j + 1]);
    }
    forall i, j | 2 <= i < j && j + 2 <= |s|
                  && Within(s, 0, i, IsLetter) && Within(s, i, j, IsSpace)
                  && IsLetter(s[j]) && IsLetter(s[j + 1])
      ensures NameValid(s)
    {
      NameScan(s, i, j);
    }
  }

  /** Given a match's split points, the scan finds the same runs: letters
      and whitespace are disjoint classes, so each run stops where the
      match says it does. */
  lemma NameScan(s: string, i: nat, j: nat)
    requires 2 <= i < j && j + 2 <= |s|
    requires Within(s, 0, i, IsLetter) && Within(s, i, j, IsSpace)
    requires IsLetter(s[j]) && IsLetter(s[j + 1])
    ensures NameValid(s)
  {
    assert IsSpace(s[i]);
    RunIs(s, 0, IsLetter, i);
    RunIs(s, i, IsSpace, j - i);
    RunCovers(s, j, IsLetter, 2);
  }

  /** No `$` anchor: whatever follows a valid name keeps it valid. */
  lemma NameOpenEnded(s: string, tail: string)
    requires NameValid(s)
    ensures NameValid(s + tail)
  {
    var i := Run(s, 0, IsLetter);
    var j := i + Run(s, i, IsSpace);
    var t := s + tail;
    assert IsLetter(s[j]) && IsLetter(s[j + 1]);
    NameScan(t, i, j);
  }

  // --------------------------------------------------------------- email

  /** The class `[^\s@]`. */
  predicate IsEmailChar(c: char) {
    !IsSpace(c) && c != '@'
  }

  predicate IsNotAt(c: char) {
    c != '@'
  }

  /** The strings the email pattern accepts, which is anchored at both
      ends: one or more characters that are neither whitespace nor '@', an
      '@', one or more such characters, a '.', and one or more such
      characters. (A '.' is itself such a character, so the domain may
      hold several.) */
  ghost predicate EmailMatches(s: string) {
    exists k, d :: 0 < k && k + 1 < d && d + 1 < |s| && s[k] == '@' && s[d] == '.'
                   && Within(s, 0, k, IsEmailChar) && Within(s, k + 1, d, IsEmailChar)
                   && Within(s, d + 1, |s|, IsEmailChar)
  }

  /** The email check as a scan: no whitespace anywhere; a first '@' at
      position `k` with something before it and no second '@' after it;
      and a '.' after the '@' that is neither the first nor the last
      character of the domain. */
  predicate EmailValid(s: string) {
    && (forall i :: 0 <= i < |s| ==> !IsSpace(s[i]))
    && var k := Run(s, 0, IsNotAt);
       && 0 < k < |s|
       && Within(s, k + 1, |s|, IsNotAt)
       && exists d :: k + 2 <= d < |s| - 1 && s[d] == '.'
  }

  lemma EmailValidIffMatches(s: string)
    ensures EmailValid(s) <==> EmailMatches(s)
  {
    if EmailValid(s) {
      var k := Run(s, 0, IsNotAt);
      var d :| k + 2 <= d < |s| - 1 && s[d] == '.';
      assert Within(s, 0, k, IsEmailChar) && Within(s, k + 1, d, IsEmailChar)
             && Within(s, d + 1, |s|, IsEmailChar);
    }
    forall k, d | 0 < k && k + 1 < d && d + 1 < |s| && s[k] == '@' && s[d] == '.'
                  && Within(s, 0, k, IsEmailChar) && Within(s, k + 1, d, IsEmailChar)
                  && Within(s, d + 1, |s|, IsEmailChar)
      ensures EmailValid(s)
    {
      EmailScan(s, k, d);
    }
  }

  /** Given a match's '@' and '.', the scan accepts. */
  lemma EmailScan(s: string, k: nat, d: nat)
    requires 0 < k && k + 1 < d && d + 1 < |s| && s[k] == '@' && s[d] == '.'
    requires Within(s, 0, k, IsEmailChar) && Within(s, k + 1, d, IsEmailChar)
    requires Within(s, d + 1, |s|, IsEmailChar)
    ensures EmailValid(s)
  {
    assert forall i :: 0 <= i < |s| ==> IsEmailChar(s[i]) || i == k || i == d;
    RunIs(s, 0, IsNotAt, k);
  }

  /** A valid email holds exactly one '@'. */
  lemma EmailOneAt(s: string)
    requires EmailValid(s)
    ensures multiset(s)['@'] == 1
  {
    var k := Run(s, 0, IsNotAt);
    var before, after := s[..k], s[k + 1..];
    assert s == before + [s[k]] + after;
    assert '@' !in before by {
      forall i | 0 <= i < |before| ensures before[i] != '@' { assert before[i] == s[i]; }
    }
    assert '@' !in after by {
      forall i | 0 <= i < |after| ensures after[i] != '@' { assert after[i] == s[k + 1 + i]; }
    }
  }

  // --------------------------------------------------------------- phone

  /** The strings the phone pattern accepts, which is anchored at both
      ends: the prefix "+358" or "0", at most one whitespace character, and
      five to ten ASCII digits. `i` ends the prefix and `j` ends the
      optional whitespace character. */
  ghost predicate PhoneMatches(s: string) {
    exists i, j :: && ((i == 4 && StartsWith(s, "+358")) || (i == 1 && StartsWith(s, "0")))
                   && i <= j <= i + 1 && j <= |s| && Within(s, i, j, IsSpace)
                   && 5 <= |s| - j <= 10 && Within(s, j, |s|, IsDigit)
  }

  /** The length of the prefix "+358" or "0" that `s` starts with, or 0. */
  function PrefixLength(s: string): (n: nat) {
    if StartsWith(s, "+358") then 4 else if StartsWith(s, "0") then 1 else 0
  }

  /** The phone check as a scan: a prefix "+358" or "0", one whitespace
      character if one follows it, then five to ten digits up to the end. */
  predicate PhoneValid(s: string) {
    var i := PrefixLength(s);
    var j := if i < |s| && IsSpace(s[i]) then i + 1 else i;
    0 < i && j <= |s| && 5 <= |s| - j <= 10 && Within(s, j, |s|, IsDigit)
  }

  lemma PhoneValidIffMatches(s: string)
    ensures PhoneValid(s) <==> PhoneMatches(s)
  {
    if PhoneValid(s) {
      var i := PrefixLength(s);
      var j := if i < |s| && IsSpace(s[i]) then i + 1 else i;
      assert Within(s, i, j, IsSpace);
    }
    forall i, j | && ((i == 4 && StartsWith(s, "+358")) || (i == 1 && StartsWith(s, "0")))
                  && i <= j <= i + 1 && j <= |s| && Within(s, i, j, IsSpace)
                  && 5 <= |s| - j <= 10 && Within(s, j, |s|, IsDigit)
      ensures PhoneValid(s)
    {
      PhoneScan(s, i, j);
    }
  }

  /** Given a match's prefix end `i` and digit start `j`, the scan accepts:
      a digit is not whitespace, so the optional whitespace character is
      taken exactly when one is there. */
  lemma PhoneScan(s: string, i: nat, j: nat)
    requires (i == 4 && StartsWith(s, "+358")) || (i == 1 && StartsWith(s, "0"))
    requires i <= j <= i + 1 && j <= |s| && Within(s, i, j, IsSpace)
    requires 5 <= |s| - j <= 10 && Within(s, j, |s|, IsDigit)
    ensures PhoneValid(s)
  {
    if i == 1 {
      assert s[0] == s[..1][0] == '0';
      assert !StartsWith(s, "+358") by {
        if |s| >= 4 { assert s[..4][0] == '0'; }
      }
    }
    assert i < |s|;
    if j == i {
      assert IsDigit(s[i]);
    }
  }

  /** Lengths that pass: 6 to 12 characters with the prefix "0", 9 to 15
      with "+358". */
  lemma PhoneLength(s: string)
    requires PhoneValid(s)
    ensures StartsWith(s, "0") ==> 6 <= |s| <= 12
    ensures !StartsWith(s, "0") ==> StartsWith(s, "+358") && 9 <= |s| <= 15
  {
    if StartsWith(s, "+358") {
      assert s[0] == s[..4][0] == '+';
      assert s[..1] != "0";
    }
  }
}

/**
  Concrete inputs run through the checks: names, addresses and numbers the
  patterns accept and refuse, and what `trim` makes of padded input.
 */
module Cases {
  import opened Text
  import opened Patterns
  import opened BirthDate
  import opened Validation

  /** Surrounding blanks are dropped, inner ones kept. */
  lemma TrimPadded()
    ensures Trim("  Al Bundy ") == "Al Bundy"
  {
    var s, r := "  Al Bundy ", "Al Bundy";
    assert s[2..10] == r;
    TrimmedAt(s, 2, r);
    TrimUnique(s, r);
  }

  /** Two words of two letters or more make a full name. */
  lemma NameTwoWords()
    ensures NameValid(Trim("Al Bundy"))
  {
    var s := "Al Bundy";
    TrimKeeps(s);
    NameScan(s, 2, 3);
  }

  /** A one-letter first name is refused. */
  lemma NameShortFirst()
    ensures !NameValid(Trim("A Bundy"))
  {
    var s := "A Bundy";
    TrimKeeps(s);
    RunIs(s, 0, IsLetter, 1);
  }

  /** A single word is refused. */
  lemma NameOneWord()
    ensures !NameValid(Trim("John"))
  {
    var s := "John";
    TrimKeeps(s);
    RunIs(s, 0, IsLetter, 4);
  }

  /** An ordinary address is accepted. */
  lemma EmailPlain()
    ensures EmailValid(Trim("a@b.com"))
  {
    TrimKeeps("a@b.com");
    EmailScan("a@b.com", 1, 3);
  }

  /** A domain without a dot is refused. */
  lemma EmailNoDot()
    ensures !EmailValid(Trim("a@b"))
  {
    TrimKeeps("a@b");
    RunIs("a@b", 0, IsNotAt, 1);
  }

  /** Whitespace inside an address is refused. */
  lemma EmailInnerSpace()
    ensures !EmailValid(Trim("a b@c.com"))
  {
    TrimKeeps("a b@c.com");
    assert IsSpace("a b@c.com"[1]);
  }

  /** An international number. */
  lemma PhoneInternational()
    ensures PhoneValid(Trim("+358401234567"))
  {
    var s := "+358401234567";
    TrimKeeps(s);
    PhoneScan(s, 4, 4);
  }

  /** An international number with a space after the prefix. */
  lemma PhoneSpaced()
    ensures PhoneValid(Trim("+358 401234567"))
  {
    TrimKeeps("+358 401234567");
    PhoneScan("+358 401234567", 4, 5);
  }

  /** A national number. */
  lemma PhoneNational()
    ensures PhoneValid(Trim("0401234567"))
  {
    var s := "0401234567";
    TrimKeeps(s);
    PhoneScan(s, 1, 1);
  }

  /** A number with neither prefix is refused. */
  lemma PhoneNoPrefix()
    ensures !PhoneValid(Trim("123456"))
  {
    var s := "123456";
    TrimKeeps(s);
    assert PrefixLength(s) == 0;
  }

  /** Four digits after the prefix are too few. */
  lemma PhoneTooShort()
    ensures !PhoneValid(Trim("01234"))
  {
    var s := "01234";
    TrimKeeps(s);
    assert s[..4][0] == '0';
    assert s[..1] == "0";
  }

  /** A complete form is accepted when its birth date is thirteen years old
      to the millisecond: `nowMs - MinAgeMs` stands for the instant the
      birth date string denotes, which the model takes as given. */
  lemma AcceptedForm(nowMs: int)
    ensures Accepts(Fields("Al Bundy", "a@b.com", "0401234567", "1990-05-01", true), nowMs - MinAgeMs, nowMs)
  {
    NameTwoWords();
    TrimKeeps("a@b.com");
    EmailPlain();
    PhoneNational();
  }
}

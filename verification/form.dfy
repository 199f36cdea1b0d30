/**
  The page the handler drives: its error slots, the rows of the result
  table, and the form's controls; and the submit handler that clears the
  slots, validates, and on success appends a row and resets the form.
 */
module RegistrationForm {
  import opened Wrappers
  import opened Text
  import opened Patterns
  import opened BirthDate
  import opened Validation

  class Page {
    /** What each error slot shows. */
    var slots: Errors
    /** The rows of the result table, oldest first, each as its cells' text. */
    var rows: seq<seq<string>>
    /** The current values of the form's visible controls. */
    var fields: Fields
    /** The value of the hidden timestamp input. */
    var timestamp: string
    /** The values the controls return to when the form is reset. */
    const defaults: Fields

    /** Every row of the table has the six cells a submission produces.
        A shape invariant that the constructor establishes and `Submit`
        preserves; no operation needs it to do its work. */
    ghost predicate Valid()
      reads this
    {
      forall row :: row in rows ==> |row| == 6
    }

    /** A freshly loaded page. The markup is not part of this model: the
        page is taken to load with empty error elements, an empty table
        body and an empty hidden timestamp, and its controls at `defaults`. */
    constructor (defaults: Fields)
      ensures Valid()
      ensures slots == Blank && rows == [] && fields == defaults
      ensures this.defaults == defaults && timestamp == ""
    {
      slots := Blank;
      rows := [];
      fields := defaults;
      timestamp := "";
      this.defaults := defaults;
    }

    /** `showError`: the slot shows `message`, whatever it showed before;
        no other slot changes. */
    method ShowError(slot: Slot, message: Message)
      modifies this`slots
      ensures slots == old(slots).With(slot, Some(message))
    {
      slots := slots.With(slot, Some(message));
    }

    /** `clearErrors`: every slot, in page order, is emptied. */
    method ClearErrors()
      modifies this`slots
      ensures slots == Blank
    {
      for i := 0 to |Order|
        invariant forall k :: 0 <= k < i ==> slots.At(Order[k]) == None
      {
        slots := slots.With(Order[i], None);
      }
      assert slots.At(Order[0]) == None && slots.At(Order[1]) == None && slots.At(Order[2]) == None;
      assert slots.At(Order[3]) == None && slots.At(Order[4]) == None;
    }

    /** The name step of `validateForm`: the trimmed name must match the
        name pattern, or the name slot shows its message. */
    method ValidateName(name: string) returns (ok: bool)
      modifies this`slots
      ensures ok == NameValid(name)
      ensures slots == old(slots).(name := if ok then old(slots).name else Some(NameMessage))
    {
      ok := true;
      if !NameValid(name) {
        ShowError(NameSlot, NameMessage);
        ok := false;
      }
    }

    /** The email step: the trimmed address must match the email pattern. */
    method ValidateEmail(email: string) returns (ok: bool)
      modifies this`slots
      ensures ok == EmailValid(email)
      ensures slots == old(slots).(email := if ok then old(slots).email else Some(EmailMessage))
    {
      ok := true;
      if !EmailValid(email) {
        ShowError(EmailSlot, EmailMessage);
        ok := false;
      }
    }

    /** The phone step: the trimmed number must match the phone pattern. */
    method ValidatePhone(phone: string) returns (ok: bool)
      modifies this`slots
      ensures ok == PhoneValid(phone)
      ensures slots == old(slots).(phone := if ok then old(slots).phone else Some(PhoneMessage))
    {
      ok := true;
      if !PhoneValid(phone) {
        ShowError(PhoneSlot, PhoneMessage);
        ok := false;
      }
    }

    /** The birth date step: missing, in the future, or under thirteen
        years old by the real-valued age, tested in that order; the first
        that applies is shown. */
    method ValidateBirth(birth: string, birthMs: int, nowMs: int) returns (ok: bool)
      modifies this`slots
      ensures ok == (BirthCheck(birth, birthMs, nowMs) == None)
      ensures slots == old(slots).(birth := if ok then old(slots).birth
                                            else Some(BirthMessage(BirthCheck(birth, birthMs, nowMs).value)))
    {
      ok := true;
      if birth != "" {
        var age := AgeYears(birthMs, nowMs);
        AgeBelowThirteen(birthMs, nowMs);
        if birthMs > nowMs {
          ShowError(BirthSlot, BirthMessage(Future));
          ok := false;
        } else if age < 13.0 {
          ShowError(BirthSlot, BirthMessage(UnderAge));
          ok := false;
        }
      } else {
        ShowError(BirthSlot, BirthMessage(Missing));
        ok := false;
      }
    }

    /** The terms step: the box must be ticked. */
    method ValidateTerms(terms: bool) returns (ok: bool)
      modifies this`slots
      ensures ok == terms
      ensures slots == old(slots).(terms := if ok then old(slots).terms else Some(TermsMessage))
    {
      ok := true;
      if !terms {
        ShowError(TermsSlot, TermsMessage);
        ok := false;
      }
    }

    /** `validateForm`: reads the five values, then runs all five checks
        in order, each failing one writing its message into its own slot
        and clearing the verdict. */
    method Validate(birthMs: int, nowMs: int) returns (valid: bool)
      modifies this`slots
      ensures valid == Accepts(fields, birthMs, nowMs)
      ensures slots == Report(old(slots), Judge(fields, birthMs, nowMs))
    {
      var name := Trim(fields.fullName);
      var email := Trim(fields.email);
      var phone := Trim(fields.phone);
      var birth := fields.birthdate;
      var terms := fields.terms;

      var nameOk := ValidateName(name);
      var emailOk := ValidateEmail(email);
      var phoneOk := ValidatePhone(phone);
      var birthOk := ValidateBirth(birth, birthMs, nowMs);
      var termsOk := ValidateTerms(terms);
      valid := nameOk && emailOk && phoneOk && birthOk && termsOk;
    }

    /** `form.reset()`: every control returns to its default value. */
    method Reset()
      modifies this`fields
      ensures fields == defaults
    {
      fields := defaults;
    }

    /** The row element built from `texts`, one cell per text, in order. */
    static method MakeRow(texts: seq<string>) returns (row: seq<string>)
      ensures row == texts
    {
      row := [];
      for i := 0 to |texts|
        invariant row == texts[..i]
      {
        row := row + [texts[i]];
      }
    }

    /** The submit handler. It stamps the hidden timestamp input, clears
        the slots and validates; a rejected form stops there, with the
        table and the controls as they were; an accepted one gets its row
        appended to the table and the form reset. */
    method Submit(stamp: string, birthMs: int, nowMs: int)
      requires Valid()
      modifies this
      ensures Valid()
      ensures timestamp == stamp
      ensures slots == Shown(Judge(old(fields), birthMs, nowMs))
      ensures Accepts(old(fields), birthMs, nowMs)
              ==> rows == old(rows) + [Row(stamp, old(fields))] && fields == defaults
      ensures !Accepts(old(fields), birthMs, nowMs)
              ==> rows == old(rows) && fields == old(fields)
    {
      timestamp := stamp;
      ClearErrors();
      var isValid := Validate(birthMs, nowMs);
      if !isValid {
        return;
      }

      var row := MakeRow(Row(timestamp, fields));
      rows := rows + [row];
      Reset();
    }
  }
}

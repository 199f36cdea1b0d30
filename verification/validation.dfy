/**
  The field validator as a function of a snapshot of the form: the five
  checks, the slot each one reports to, the overall verdict, and the row an
  accepted submission adds to the table.
 */
module Validation {
  import opened Wrappers
  import opened Text
  import opened Patterns
  import opened BirthDate

  /** The values of the form's visible controls. */
  datatype Fields = Fields(fullName: string, email: string, phone: string, birthdate: string, terms: bool)

  /** The five error slots. */
  datatype Slot = NameSlot | EmailSlot | PhoneSlot | BirthSlot | TermsSlot {

    /** The id of the element that shows the slot's message. */
    function Id(): (r: string) {
      match this
      case NameSlot => "nameError"
      case EmailSlot => "emailError"
      case PhoneSlot => "phoneError"
      case BirthSlot => "birthError"
      case TermsSlot => "termsError"
    }
  }

  /** The error slots in the order they appear on the page. */
  const Order: seq<Slot> := [NameSlot, EmailSlot, PhoneSlot, BirthSlot, TermsSlot]

  /** The messages the validator shows, one per check; the birth-date
      check has one per problem. */
  datatype Message = NameMessage | EmailMessage | PhoneMessage | BirthMessage(problem: Problem) | TermsMessage {

    /** The text of the message. */
    function Text(): (r: string) {
      match this
      case NameMessage => "Please enter your full name (first and last)."
      case EmailMessage => "Enter a valid email address."
      case PhoneMessage => "Enter a valid Finnish phone number (+358 or 0...)."
      case BirthMessage(p) => p.Text()
      case TermsMessage => "You must accept the terms to continue."
    }
  }

  /** What each error slot shows: nothing, or a message. */
  datatype Errors = Errors(name: Option<Message>, email: Option<Message>, phone: Option<Message>,
                           birth: Option<Message>, terms: Option<Message>) {

    /** What `slot` shows. */
    function At(slot: Slot): (r: Option<Message>) {
      match slot
      case NameSlot => name
      case EmailSlot => email
      case PhoneSlot => phone
      case BirthSlot => birth
      case TermsSlot => terms
    }

    /** The text content of the element of `slot`. */
    function Text(slot: Slot): (r: string) {
      match At(slot)
      case None => ""
      case Some(m) => m.Text()
    }

    /** The same slots with `slot` showing `e` instead. */
    function With(slot: Slot, e: Option<Message>): (r: Errors)
      ensures r.At(slot) == e
      ensures forall other :: other != slot ==> r.At(other) == At(other)
    {
      match slot
      case NameSlot => this.(name := e)
      case EmailSlot => this.(email := e)
      case PhoneSlot => this.(phone := e)
      case BirthSlot => this.(birth := e)
      case TermsSlot => this.(terms := e)
    }
  }

  /** The outcome of the five checks: whether the name, email and phone
      patterns matched, the birth-date check's problem if it failed, and
      whether the terms box was ticked. */
  datatype Verdict = Verdict(name: bool, email: bool, phone: bool, birth: Option<Problem>, terms: bool) {

    /** The message the check that reports to `slot` shows, or `None` when
        that check passed. */
    function Failure(slot: Slot): (r: Option<Message>) {
      match slot
      case NameSlot => if name then None else Some(NameMessage)
      case EmailSlot => if email then None else Some(EmailMessage)
      case PhoneSlot => if phone then None else Some(PhoneMessage)
      case BirthSlot => if birth.None? then None else Some(BirthMessage(birth.value))
      case TermsSlot => if terms then None else Some(TermsMessage)
    }

    /** All five checks passed. */
    predicate Passed() {
      name && email && phone && birth == None && terms
    }
  }

  /** The five checks applied to the form's values: the name, email and
      phone are trimmed before their patterns are tried; the birth date
      and the terms box are taken as they are. */
  function Judge(f: Fields, birthMs: int, nowMs: int): (v: Verdict) {
    Verdict(NameValid(Trim(f.fullName)), EmailValid(Trim(f.email)), PhoneValid(Trim(f.phone)),
            BirthCheck(f.birthdate, birthMs, nowMs), f.terms)
  }

  /** The validator's verdict: the conjunction of the five rules. */
  predicate Accepts(f: Fields, birthMs: int, nowMs: int) {
    Judge(f, birthMs, nowMs).Passed()
  }

  /** The form is accepted exactly when no check reports a message. */
  lemma PassedIffNoFailure(v: Verdict)
    ensures v.Passed() <==> forall slot :: v.Failure(slot) == None
  {
    if forall slot :: v.Failure(slot) == None {
      assert v.Failure(NameSlot) == None && v.Failure(EmailSlot) == None && v.Failure(PhoneSlot) == None;
      assert v.Failure(BirthSlot) == None && v.Failure(TermsSlot) == None;
    }
  }

  /** Every slot empty, as `clearErrors` leaves them. */
  const Blank: Errors := Errors(None, None, None, None, None)

  /** The slots after the validator has run over slots showing `prior`:
      the five checks in the validator's order, each failing one writing
      its message into its own slot. */
  function Report(prior: Errors, v: Verdict): (r: Errors) {
    prior.(name := if v.name then prior.name else Some(NameMessage),
           email := if v.email then prior.email else Some(EmailMessage),
           phone := if v.phone then prior.phone else Some(PhoneMessage),
           birth := if v.birth.None? then prior.birth else Some(BirthMessage(v.birth.value)),
           terms := if v.terms then prior.terms else Some(TermsMessage))
  }

  /** Each check writes only its own slot: after the validator, a slot
      shows its check's message if that check failed, and what it showed
      before otherwise. */
  lemma ReportAt(prior: Errors, v: Verdict, slot: Slot)
    ensures Report(prior, v).At(slot) == if v.Failure(slot).None? then prior.At(slot) else v.Failure(slot)
  {
    match slot
    case NameSlot =>
    case EmailSlot =>
    case PhoneSlot =>
    case BirthSlot =>
    case TermsSlot =>
  }

  /** What the slots show once a submission has been handled: the message
      of each failed check in its slot, nothing elsewhere. */
  function Shown(v: Verdict): (r: Errors)
    ensures forall slot :: r.At(slot) == v.Failure(slot)
  {
    ReportOfBlank(v);
    Report(Blank, v)
  }

  /** Run over cleared slots, the validator leaves each slot showing its
      own check's message or nothing. */
  lemma ReportOfBlank(v: Verdict)
    ensures forall slot :: Report(Blank, v).At(slot) == v.Failure(slot)
  {
    forall slot ensures Report(Blank, v).At(slot) == v.Failure(slot) {
      ReportAt(Blank, v, slot);
    }
  }

  /** A slot's element has text after a submission exactly when the slot's
      own check failed. */
  lemma ShownIffFailed(v: Verdict, slot: Slot)
    ensures Shown(v).Text(slot) != "" <==> v.Failure(slot).Some?
  {
    if v.Failure(slot).Some? {
      TextNonEmpty(v.Failure(slot).value);
    }
  }

  /** No message is empty text. */
  lemma TextNonEmpty(m: Message)
    ensures m.Text() != ""
  {
    match m {
      case NameMessage =>
      case EmailMessage =>
      case PhoneMessage =>
      case BirthMessage(p) =>
        match p {
          case Missing =>
          case Future =>
          case UnderAge =>
        }
      case TermsMessage =>
    }
  }

  /** An unchecked terms box with every other field valid rejects the form
      and fills the terms slot only. */
  lemma TermsAlone(f: Fields, birthMs: int, nowMs: int)
    requires NameValid(Trim(f.fullName)) && EmailValid(Trim(f.email)) && PhoneValid(Trim(f.phone))
    requires BirthCheck(f.birthdate, birthMs, nowMs) == None
    requires !f.terms
    ensures !Accepts(f, birthMs, nowMs)
    ensures forall slot :: Judge(f, birthMs, nowMs).Failure(slot).Some? <==> slot == TermsSlot
    ensures Shown(Judge(f, birthMs, nowMs)).Text(TermsSlot) == "You must accept the terms to continue."
  {
    var v := Judge(f, birthMs, nowMs);
    forall slot ensures v.Failure(slot).Some? <==> slot == TermsSlot {
      match slot
      case NameSlot =>
      case EmailSlot =>
      case PhoneSlot =>
      case BirthSlot =>
      case TermsSlot =>
    }
  }

  /** The row an accepted submission adds: the timestamp, the trimmed name,
      email and phone, the raw birth date, and whether the terms were
      accepted. */
  function Row(timestamp: string, f: Fields): (row: seq<string>) {
    [timestamp, Trim(f.fullName), Trim(f.email), Trim(f.phone), f.birthdate,
     if f.terms then "Yes" else "No"]
  }

  /** The cells of a row: the timestamp, the name, email and phone with
      only their surrounding whitespace removed, the birth date as entered,
      and "Yes" exactly when the terms were accepted. */
  lemma RowCells(timestamp: string, f: Fields)
    ensures var r := Row(timestamp, f);
            && |r| == 6 && r[0] == timestamp && r[4] == f.birthdate
            && Trimmed(f.fullName, r[1]) && Trimmed(f.email, r[2]) && Trimmed(f.phone, r[3])
            && (r[5] == "Yes" <==> f.terms)
  {
    TrimTrims(f.fullName);
    TrimTrims(f.email);
    TrimTrims(f.phone);
  }

  /** The row of an accepted submission always ends in "Yes": acceptance
      needs the terms box checked. */
  lemma AcceptedRowSaysYes(timestamp: string, f: Fields, birthMs: int, nowMs: int)
    requires Accepts(f, birthMs, nowMs)
    ensures Row(timestamp, f)[5] == "Yes"
  {
    assert f.terms;
  }
}

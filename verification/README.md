# Registration form handler, modelled in Dafny

This project models the client-side registration form of `task-g/index.js`.
When the form is submitted, the handler does the following:
- It stamps a hidden timestamp input.
- It clears the five error slots.
- It runs five checks: the full name, the e-mail address, the Finnish phone number, the birth date with a minimum age of 13, and the terms box.
- If a check fails, it writes that check's message into the check's own slot.
- If every check passes, it appends a six-cell row to the result table and resets the form.

The model is laid out as follows:

- `text.dfy` (module `Text`):
  - JavaScript's `\s` and `\d`, and the name pattern's letter class.
  - Greedy runs of one class.
  - `String.prototype.trim`, with a lemma saying what it promises and that its result is unique.
- `patterns.dfy` (module `Patterns`): each of the three regular expressions, given twice.
  - First as the set of strings the pattern accepts. This is a ghost predicate read off the pattern.
  - Then as the scan the code effectively performs.
  - An all-inputs lemma shows the two agree.
- `birth.dfy` (module `BirthDate`): the birth-date rule and its three failure problems.
  - The validator's real-valued `age < 13` is proved equal to an integer test on milliseconds.
- `validation.dfy` (module `Validation`): the five checks as a function of a snapshot of the form.
  - `Judge` gives a `Verdict`.
  - `Report` gives the error slots after validation.
  - `Shown` gives the slots after a submission.
  - `Row` gives the row an accepted submission adds.
- `form.dfy` (module `RegistrationForm`): class `Page`, which holds the state the handler changes in place:
  - the error slots;
  - the table rows;
  - the control values;
  - the hidden timestamp.

  Its methods are `showError`, `clearErrors`, `validateForm`, `form.reset()`, the row-building `forEach`, and the submit handler.
  - `validateForm` reads the five values first, as the source does.
  - It then runs the five checks one after the other, as step methods `ValidateName` … `ValidateTerms`. Each step calls `ShowError` when its check fails.
- `cases.dfy` (module `Cases`): concrete inputs that the patterns accept and refuse.

An error slot holds either nothing or one of the validator's messages (`Validation.Message`). `Message.Text()` gives the exact text the source writes into the element. `Errors.Text(slot)` is the element's `textContent`, which is `""` for an empty slot.

## Model

| member | source | states |
|---|---|---|
| Text.Trim | task-g/index.js:42-44 | `String.prototype.trim`; no contract of its own: `TrimTrims` and `TrimUnique` pin it down as the one result that removes only end whitespace and leaves none |
| Text.TrimTrims | task-g/index.js:42-44 | `trim` removes only whitespace, and only at the two ends, and leaves a result that neither starts nor ends with whitespace |
| Text.TrimUnique | task-g/index.js:42-44 | any string meeting that description is the trim, so `Trim` is the one function `trim` can be |
| Text.TrimKeeps | task-g/index.js:42-44 | a string with no whitespace at either end is unchanged by trimming |
| Text.TrimIdempotent | task-g/index.js:42-44 | a property of `trim` itself: trimming twice is trimming once |
| Text.Run | task-g/index.js:49 | a greedy repetition of a character class stops at the end of the string or at the first character outside the class |
| Text.RunIs | task-g/index.js:49 | a run of exactly `k` class characters followed by a non-class character or the end is what the greedy repetition consumes |
| Patterns.NameMatches | task-g/index.js:49 | the strings the name pattern accepts, read off the pattern as split points (two or more letters, one or more `\s`, two letters, any tail); no contract of its own: it is the reference `NameValidIffMatches` compares the scan with |
| Patterns.NameValid | task-g/index.js:49 | the name test as the code runs it, a scan of greedy runs; no contract of its own: `NameValidIffMatches` proves it equal to `NameMatches` |
| Patterns.NameValidIffMatches | task-g/index.js:49 | the name check passes iff the trimmed name starts with at least two letters, then at least one whitespace character, then at least two letters |
| Patterns.NameOpenEnded | task-g/index.js:49 | the name pattern has no end anchor: appending anything to an accepted name keeps it accepted |
| Patterns.NameScan | task-g/index.js:49 | two letters or more, whitespace, then two letters is enough for the name check |
| Patterns.EmailMatches | task-g/index.js:55 | the strings the e-mail pattern accepts, read off the pattern as the positions of the '@' and a '.'; no contract of its own: it is the reference `EmailValidIffMatches` compares the scan with |
| Patterns.EmailValid | task-g/index.js:55 | the e-mail test as a scan up to the first '@'; no contract of its own: `EmailValidIffMatches` proves it equal to `EmailMatches`, and `EmailOneAt` bounds the '@' count |
| Patterns.EmailValidIffMatches | task-g/index.js:55 | the e-mail check passes iff there is no whitespace, a non-empty local part, one '@', and a '.' in the domain that is neither its first nor its last character |
| Patterns.EmailOneAt | task-g/index.js:55 | an accepted address contains exactly one '@' |
| Patterns.EmailScan | task-g/index.js:55 | a witness split (local part, '@', label, '.', rest) makes the e-mail check pass |
| Patterns.PhoneMatches | task-g/index.js:61 | the strings the phone pattern accepts, read off the pattern as the end of the prefix and of the optional whitespace; no contract of its own: it is the reference `PhoneValidIffMatches` compares the scan with |
| Patterns.PhoneValid | task-g/index.js:61 | the phone test as a scan; no contract of its own: `PhoneValidIffMatches` proves it equal to `PhoneMatches`, and `PhoneLength` bounds the accepted lengths |
| Patterns.PhoneValidIffMatches | task-g/index.js:61 | the phone check passes iff the number starts with "+358" or "0", then has at most one whitespace character, then 5 to 10 ASCII digits up to the end |
| Patterns.PhoneLength | task-g/index.js:61 | accepted numbers are 6 to 12 characters long with the "0" prefix and 9 to 15 with "+358" |
| Patterns.PhoneScan | task-g/index.js:61 | a prefix, an optional whitespace and 5 to 10 digits make the phone check pass |
| BirthDate.AgeYears | task-g/index.js:70 | the age in years as the validator computes it; no contract of its own: `AgeBelowThirteen` states what comparing it with 13 means |
| BirthDate.BirthCheck | task-g/index.js:66-81 | the birth-date rule, giving the problem the birth slot reports or none; no contract of its own: `BirthPasses`, `BirthFailures` and `BirthBoundary` characterise it, and `Page.ValidateBirth` is proved equal to it |
| BirthDate.AgeBelowThirteen | task-g/index.js:70-74 | the test `(now - birth) / (365.25 days) < 13` holds exactly when fewer than 410 248 800 000 ms have elapsed |
| BirthDate.BirthPasses | task-g/index.js:66-81 | the birth check passes iff a date is given, it is not after now, and at least 13 years of 365.25 days have elapsed |
| BirthDate.BirthFailures | task-g/index.js:66-81 | the branches are tried in order: missing date, then future date, then under 13, so a future date reports "future" and not the age |
| BirthDate.BirthBoundary | task-g/index.js:70-77 | exactly 13 years passes; one day less fails with the age message |
| Validation.Errors.With | task-g/index.js:92-94 | `showError` sets its own element and no other |
| Validation.Judge | task-g/index.js:42-89 | the five checks on a snapshot of the form, three of them on trimmed values; no contract of its own: `Page.Validate` is proved to compute it, and `PassedIffNoFailure` and `TermsAlone` are about it |
| Validation.Accepts | task-g/index.js:42-89 | the value `validateForm` returns; no contract of its own: `PassedIffNoFailure` states it is true iff no check reports a message |
| Validation.Report | task-g/index.js:48-87 | the error slots after `validateForm`; no contract of its own: `ReportAt` states what each slot holds afterwards |
| Validation.PassedIffNoFailure | task-g/index.js:39-90 | `validateForm` returns true exactly when no check reported a message |
| Validation.ReportAt | task-g/index.js:48-87 | after validation, each slot shows its own check's message if that check failed, and otherwise what it showed before |
| Validation.ReportOfBlank | task-g/index.js:15-16 | validating after `clearErrors` leaves each slot showing exactly its check's failure, or nothing |
| Validation.Shown | task-g/index.js:15-16 | the slots after a submission are the failure of each check, slot by slot |
| Validation.ShownIffFailed | task-g/index.js:92-98 | after a submission, an error element has text iff its own check failed |
| Validation.TextNonEmpty | task-g/index.js:50-85 | every message the validator shows is non-empty text |
| Validation.TermsAlone | task-g/index.js:83-87 | an unticked terms box with every other field valid rejects the form and fills the terms slot only, with its message |
| Validation.Row | task-g/index.js:22-28 | the texts of the row an accepted submission adds; no contract of its own: `RowCells` states each cell |
| Validation.RowCells | task-g/index.js:22-28 | the row has six cells: the timestamp, the trimmed name, e-mail and phone, the raw birth date, and "Yes" iff the box is ticked |
| Validation.AcceptedRowSaysYes | task-g/index.js:28 | an accepted form's row always ends in "Yes", because acceptance needs the box ticked |
| RegistrationForm.Page.constructor | task-g/index.js:4-7 | the page the handler is bound to: its controls start at their defaults, and (an assumption about the markup, see below) its error slots, table and timestamp start empty |
| RegistrationForm.Page.ShowError | task-g/index.js:92-94 | the named slot shows the message; nothing else changes |
| RegistrationForm.Page.ClearErrors | task-g/index.js:96-98 | every error slot, visited in page order, is left empty |
| RegistrationForm.Page.ValidateName | task-g/index.js:48-52 | the name step's verdict is the name pattern on the trimmed name; on failure it writes its message into the name slot only |
| RegistrationForm.Page.ValidateEmail | task-g/index.js:54-58 | the e-mail step's verdict is the e-mail pattern; on failure it writes its message into the e-mail slot only |
| RegistrationForm.Page.ValidatePhone | task-g/index.js:60-64 | the phone step's verdict is the phone pattern; on failure it writes its message into the phone slot only |
| RegistrationForm.Page.ValidateBirth | task-g/index.js:66-81 | the birth step, with the real-valued age, agrees with `BirthCheck` and writes the message of the first failing branch into the birth slot only |
| RegistrationForm.Page.ValidateTerms | task-g/index.js:83-87 | the terms step fails exactly when the box is unticked, writing into the terms slot only |
| RegistrationForm.Page.Validate | task-g/index.js:39-90 | returns the conjunction of the five rules; all five checks always run, and the slots become `Report` of the old slots |
| RegistrationForm.Page.Reset | task-g/index.js:36 | `form.reset()` returns every visible control to its default |
| RegistrationForm.Page.MakeRow | task-g/index.js:21-33 | the `forEach` builds a row holding the given texts, one cell each, in order |
| RegistrationForm.Page.Submit | task-g/index.js:9-37 | always stamps the timestamp and leaves the slots showing exactly the failed checks' messages; a rejected form changes neither table nor controls; an accepted one appends exactly its row and resets the controls |
| Cases.TrimPadded | task-g/index.js:42 | "  Al Bundy " trims to "Al Bundy" |
| Cases.NameTwoWords | task-g/index.js:49 | "Al Bundy" is a full name |
| Cases.NameShortFirst | task-g/index.js:49 | "A Bundy" is refused |
| Cases.NameOneWord | task-g/index.js:49 | "John" is refused |
| Cases.EmailPlain | task-g/index.js:55 | "a@b.com" is accepted |
| Cases.EmailNoDot | task-g/index.js:55 | "a@b" is refused |
| Cases.EmailInnerSpace | task-g/index.js:55 | "a b@c.com" is refused |
| Cases.PhoneInternational | task-g/index.js:61 | "+358401234567" is accepted |
| Cases.PhoneSpaced | task-g/index.js:61 | "+358 401234567" is accepted |
| Cases.PhoneNational | task-g/index.js:61 | "0401234567" is accepted |
| Cases.PhoneNoPrefix | task-g/index.js:61 | "123456" is refused |
| Cases.PhoneTooShort | task-g/index.js:61 | "01234" has too few digits and is refused |
| Cases.AcceptedForm | task-g/index.js:39-90 | a complete form, exactly 13 years old, is accepted |

## Left out

- DOM wiring is not modelled: the `DOMContentLoaded` listener, `getElementById`, `querySelector`, element creation and `preventDefault`. The page's state is the fields of `Page`, and the error elements are exactly the five slots named by `Slot`. `Slot.Id()` gives their element ids.
- The timestamp is a parameter of `Submit`. It stands for `new Date().toLocaleString()`, whose text depends on the clock and the locale.
- The birth date and the current time are parameters, as milliseconds. Parsing `birthdate.value` with `new Date` is not modelled. Neither is reading the clock.
- The case where `new Date(birth)` gives an invalid date (NaN) is not modelled. Both of its comparisons would be false, so such a date would pass.
- Floating point:
  - The model divides exact reals, while JavaScript divides doubles.
  - The milliseconds difference is an integer well inside the exact range of doubles, and the divisor 31 557 600 000 is exact.
  - A quotient's distance from 13 is either zero or at least 1/31 557 600 000. That is far more than the rounding error of one division.
  - So the double test agrees with `AgeBelowThirteen`'s integer test.
- Unicode:
  - Characters are Unicode scalar values. JavaScript strings are UTF-16 code units.
  - The e-mail class `[^\s@]` also matches characters outside the Basic Multilingual Plane. JavaScript matches such a character as two code units, and the model matches it as one scalar value. The class is only ever repeated with `+`, with no upper bound, so both ways of counting accept the same strings.
  - Every other class (the name letters, `\s`, `\d`) lies inside the Basic Multilingual Plane, and so does every character `trim` removes. So the other patterns and `trim` behave the same either way.
  - A Dafny `string` cannot hold a lone surrogate, so inputs holding one are not modelled.
  - `IsSpace` is the fixed ECMAScript WhiteSpace and LineTerminator list, with the space separators of current Unicode.
- `form.reset()` is modelled only as returning the visible controls to `Page.defaults`, which are the markup's initial values.
  - The hidden timestamp keeps its value across a reset, because a hidden input's value is its default value.
  - For that reason `Reset` does not modify `timestamp`.
- The markup is not part of this model. `RegistrationForm.Page.constructor` assumes it loads with the error elements empty, the table body empty and the hidden timestamp empty.
- The terms box is read twice in the source: through `document.getElementById("terms")` when validating (line 46) and through `form.terms` when building the row (line 28). The model reads both as the one field `Fields.terms`, which assumes both name the same element. `Validation.AcceptedRowSaysYes` rests on that assumption.
- RegistrationForm.Page.ShowError: takes one of the validator's `Message`s, not an arbitrary string. The source only ever passes those messages, and the element text is `Message.Text()`.

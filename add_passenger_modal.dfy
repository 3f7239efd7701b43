/**
 * The manual-entry form: its fields, the validation that fills the error
 * messages, the record a valid form becomes, and the reset and close rules
 * around a submission.
 */
module AddPassengerModal {
  import opened Wrappers
  import opened Text
  import opened TimeText
  import opened Records

  datatype Field = LastName | FirstName | FlightNumber | DepartureDate | DepartureTime | Status

  datatype Form = Form(
    lastName: string, firstName: string, flightNumber: string,
    departureDate: string, departureTime: string, status: string)

  /** The form as it opens, and as every reset leaves it. */
  const DefaultForm: Form := Form("", "", "", "", "", "WCHR")

  function FieldOf(form: Form, f: Field): string
  {
    match f
    case LastName => form.lastName
    case FirstName => form.firstName
    case FlightNumber => form.flightNumber
    case DepartureDate => form.departureDate
    case DepartureTime => form.departureTime
    case Status => form.status
  }

  /** `{ ...prev, [name]: value }`: the named field takes the value, the others are kept. */
  function FormWith(form: Form, f: Field, value: string): (r: Form)
    ensures FieldOf(r, f) == value
    ensures forall g :: g != f ==> FieldOf(r, g) == FieldOf(form, g)
  {
    match f
    case LastName => form.(lastName := value)
    case FirstName => form.(firstName := value)
    case FlightNumber => form.(flightNumber := value)
    case DepartureDate => form.(departureDate := value)
    case DepartureTime => form.(departureTime := value)
    case Status => form.(status := value)
  }

  /** The message `validateForm` records for a missing field. */
  function Message(f: Field): string
  {
    match f
    case LastName => "Le nom est obligatoire"
    case FirstName => "Le prénom est obligatoire"
    case FlightNumber => "Le numéro de vol est obligatoire"
    case DepartureDate => "La date de départ est obligatoire"
    case DepartureTime => "L'heure de départ est obligatoire"
    case Status => ""
  }

  /**
   * `validateForm`'s tests: the three names must not trim to nothing (`Blank`
   * is exactly `!s.trim()`), the date and time must not be empty; the status
   * is not checked.
   */
  predicate Filled(form: Form, f: Field)
  {
    match f
    case LastName => !Blank(form.lastName)
    case FirstName => !Blank(form.firstName)
    case FlightNumber => !Blank(form.flightNumber)
    case DepartureDate => form.departureDate != ""
    case DepartureTime => form.departureTime != ""
    case Status => true
  }

  predicate FormValid(form: Form)
  {
    !Blank(form.lastName) && !Blank(form.firstName) && !Blank(form.flightNumber)
    && form.departureDate != "" && form.departureTime != ""
  }

  /** The order `validateForm` tests the fields in. */
  function FieldAt(n: nat): (f: Field)
    requires n < 5
    ensures Position(f) == n
  {
    if n == 0 then LastName
    else if n == 1 then FirstName
    else if n == 2 then FlightNumber
    else if n == 3 then DepartureDate
    else DepartureTime
  }

  /** Where a field comes in that order; the status, never tested, comes after the five tests. */
  function Position(f: Field): nat
  {
    match f
    case LastName => 0
    case FirstName => 1
    case FlightNumber => 2
    case DepartureDate => 3
    case DepartureTime => 4
    case Status => 5
  }

  /** The number of tests `validateForm` runs. */
  const TestCount: nat := 5

  /** The messages recorded once the first `n` tests have run. */
  function ErrorsUpTo(form: Form, n: nat): map<Field, string>
    requires n <= 5
  {
    if n == 0 then map[]
    else
      var e := ErrorsUpTo(form, n - 1);
      if Filled(form, FieldAt(n - 1)) then e else e[FieldAt(n - 1) := Message(FieldAt(n - 1))]
  }

  lemma {:induction false} ErrorsUpToHolds(form: Form, n: nat)
    requires n <= 5
    ensures forall f :: f in ErrorsUpTo(form, n) <==> Position(f) < n && !Filled(form, f)
    ensures forall f :: f in ErrorsUpTo(form, n) ==> ErrorsUpTo(form, n)[f] == Message(f)
  {
    if n > 0 {
      ErrorsUpToHolds(form, n - 1);
    }
  }

  /** The `newErrors` object `validateForm` builds. */
  function FormErrors(form: Form): map<Field, string>
  {
    ErrorsUpTo(form, TestCount)
  }

  /** Validation records one message for each failed test, and nothing else. */
  lemma FormErrorsListed(form: Form)
    ensures forall f :: f in FormErrors(form) <==> !Filled(form, f)
    ensures forall f :: f in FormErrors(form) ==> FormErrors(form)[f] == Message(f) && FormErrors(form)[f] != ""
  {
    ErrorsUpToHolds(form, TestCount);
  }

  /** The form is valid exactly when validation records no message. */
  lemma ValidIffNoErrors(form: Form)
    ensures FormErrors(form) == map[] <==> FormValid(form)
  {
    FormErrorsListed(form);
    if !FormValid(form) {
      var f :| f in {LastName, FirstName, FlightNumber, DepartureDate, DepartureTime} && !Filled(form, f);
      assert f in FormErrors(form);
    }
  }

  /** `errors[name] && value.trim()`: a shown error clears once the field holds more than white space. */
  function ErrorsAfterInput(errors: map<Field, string>, f: Field, value: string): (r: map<Field, string>)
    ensures r.Keys == errors.Keys
    ensures forall g :: g in r && g != f ==> r[g] == errors[g]
    ensures f in errors ==> (r[f] == "" <==> errors[f] == "" || !Blank(value))
    ensures f in errors && (errors[f] == "" || Blank(value)) ==> r[f] == errors[f]
  {
    if f in errors && errors[f] != "" && !Blank(value) then errors[f := ""] else errors
  }

  /** The record a valid form submits: `MANUAL-<stamp>`, upper-cased name and flight, `DD/MM/YYYY HH:MM`. */
  function BuildRecord(form: Form, stamp: nat): (r: Passenger)
    ensures r.idPax.Some? && r.departureTime == ManualDepartureText(form.departureDate, form.departureTime)
    ensures r.lastName == ToUpper(Trim(form.lastName)) && r.firstName == Trim(form.firstName)
    ensures r.flightNumber == ToUpper(Trim(form.flightNumber))
    ensures r.(idPax := Unset.idPax, lastName := Unset.lastName, firstName := Unset.firstName,
               flightNumber := Unset.flightNumber, departureTime := Unset.departureTime,
               status := Unset.status, ssr1 := Unset.ssr1) == Unset
  {
    Unset.(
      idPax := Some("MANUAL-" + Decimal(stamp)),
      lastName := ToUpper(Trim(form.lastName)),
      firstName := Trim(form.firstName),
      flightNumber := ToUpper(Trim(form.flightNumber)),
      departureTime := ManualDepartureText(form.departureDate, form.departureTime),
      status := form.status,
      ssr1 := form.status,
      goAcc := "")
  }

  /** Upper-cased and trimmed, as the record stores names and flight numbers. */
  predicate Normalised(s: string) {
    IsTrimmed(s) && forall k :: 0 <= k < |s| ==> !('a' <= s[k] <= 'z')
  }

  /** `toUpperCase` of a trimmed string, ASCII letters only. */
  lemma {:induction false} UpperTrimmedNormalised(s: string)
    requires IsTrimmed(s)
    ensures Normalised(ToUpper(s))
    ensures ToUpper(s) == [] <==> s == []
  {
    var u := ToUpper(s);
    if s != [] {
      assert u[0] == UpperChar(s[0]) && u[|u| - 1] == UpperChar(s[|s| - 1]);
    }
  }

  /** Normalising a name that already is normalised changes nothing. */
  lemma NormaliseIdempotent(s: string)
    requires Normalised(s)
    ensures ToUpper(Trim(s)) == s
  {
    TrimOfTrimmed(s);
    assert ToUpper(s) == s;
  }

  /**
   * The submitted record's names: a trimmed upper-case last name and flight that
   * are empty only for a blank entry, and the trimmed first name.
   */
  lemma RecordNames(form: Form, stamp: nat)
    ensures var r := BuildRecord(form, stamp);
      && r.lastName == ToUpper(Trim(form.lastName)) && r.firstName == Trim(form.firstName)
      && r.flightNumber == ToUpper(Trim(form.flightNumber))
      && Normalised(r.lastName) && (r.lastName == "" <==> Blank(form.lastName))
      && Normalised(r.flightNumber) && (r.flightNumber == "" <==> Blank(form.flightNumber))
      && IsTrimmed(r.firstName) && (r.firstName == "" <==> Blank(form.firstName))
  {
    var r := BuildRecord(form, stamp);
    assert r.lastName == ToUpper(Trim(form.lastName)) && r.flightNumber == ToUpper(Trim(form.flightNumber));
    assert r.firstName == Trim(form.firstName);
    NormalisedEntry(form.lastName);
    NormalisedEntry(form.flightNumber);
  }

  /** The chosen status is both status and SSR; no GO ACC, SkyPriority or assistance. */
  lemma RecordStatus(form: Form, stamp: nat)
    ensures var r := BuildRecord(form, stamp);
      && r.status == form.status && r.ssr1 == form.status && r.goAcc == ""
      && !r.isSkyPriority && !r.isAssisted
  {
  }

  /** `value.trim().toUpperCase()` is normalised, and empty exactly for a blank entry. */
  lemma NormalisedEntry(value: string)
    ensures Normalised(ToUpper(Trim(value))) && (ToUpper(Trim(value)) == "" <==> Blank(value))
  {
    UpperTrimmedNormalised(Trim(value));
  }

  /** The idPax carries the submission stamp, which reads back from it. */
  lemma StampReadsBack(form: Form, stamp: nat)
    ensures BuildRecord(form, stamp).idPax.Some?
    ensures var id := BuildRecord(form, stamp).idPax.value;
      |id| > 7 && id[..7] == "MANUAL-" && AllDigits(id[7..]) && DigitsValue(id[7..]) == stamp
  {
    var id := BuildRecord(form, stamp).idPax.value;
    assert id[7..] == Decimal(stamp);
  }

  /**
   * With the date and time the browser's date and time inputs deliver, every
   * page reads back exactly the time that was typed in.
   */
  lemma RecordTimeReadsBack(form: Form, stamp: nat)
    requires IsIsoDate(form.departureDate) && IsTimeInput(form.departureTime)
    ensures ExtractOrRaw(BuildRecord(form, stamp).departureTime) == form.departureTime
    ensures ExtractOrNull(BuildRecord(form, stamp).departureTime) == Some(form.departureTime)
  {
    ManualDepartureRoundTrip(form.departureDate, form.departureTime);
  }

  /** The five tests of `validateForm`, in order, each recording its message when it fails. */
  method CollectErrors(data: Form) returns (newErrors: map<Field, string>)
    ensures newErrors == FormErrors(data)
  {
    newErrors := map[];
    if Blank(data.lastName) {
      newErrors := newErrors[LastName := Message(LastName)];
    }
    assert newErrors == ErrorsUpTo(data, 1);
    if Blank(data.firstName) {
      newErrors := newErrors[FirstName := Message(FirstName)];
    }
    assert newErrors == ErrorsUpTo(data, 2);
    if Blank(data.flightNumber) {
      newErrors := newErrors[FlightNumber := Message(FlightNumber)];
    }
    assert newErrors == ErrorsUpTo(data, 3);
    if data.departureDate == "" {
      newErrors := newErrors[DepartureDate := Message(DepartureDate)];
    }
    assert newErrors == ErrorsUpTo(data, 4);
    if data.departureTime == "" {
      newErrors := newErrors[DepartureTime := Message(DepartureTime)];
    }
    assert newErrors == ErrorsUpTo(data, 5);
  }

  class AddPassengerForm {
    var form: Form
    var errors: map<Field, string>
    var isSubmitting: bool

    constructor()
      ensures form == DefaultForm && errors == map[] && !isSubmitting
    {
      form := DefaultForm;
      errors := map[];
      isSubmitting := false;
    }

    method HandleInputChange(f: Field, value: string)
      modifies this
      ensures form == FormWith(old(form), f, value)
      ensures errors == ErrorsAfterInput(old(errors), f, value)
      ensures isSubmitting == old(isSubmitting)
    {
      form := FormWith(form, f, value);
      if f in errors && errors[f] != "" && !Blank(value) {
        errors := errors[f := ""];
      }
    }

    /** `validateForm`: records the messages and reports whether there are none. */
    method ValidateForm() returns (ok: bool)
      modifies this
      ensures errors == FormErrors(form)
      ensures ok <==> FormValid(form)
      ensures form == old(form) && isSubmitting == old(isSubmitting)
    {
      var data := form;
      var newErrors := CollectErrors(data);
      errors := newErrors;
      ok := |newErrors.Keys| == 0;
      assert ok <==> newErrors == map[];
      ValidIffNoErrors(data);
    }

    /** The first half of `handleSubmit`: an invalid form submits nothing and is not reset. */
    method BeginSubmit(stamp: nat) returns (record: Option<Passenger>)
      modifies this
      ensures errors == FormErrors(old(form)) && form == old(form)
      ensures record.None? <==> !FormValid(form)
      ensures record.Some? ==> record.value == BuildRecord(form, stamp) && isSubmitting
      ensures record.None? ==> isSubmitting == old(isSubmitting)
    {
      var ok := ValidateForm();
      if !ok {
        return None;
      }
      var data := form;
      var built := BuildRecord(data, stamp);
      isSubmitting := true;
      record := Some(built);
    }

    /** The second half: a submission that went through resets the form and closes the modal. */
    method FinishSubmit(succeeded: bool) returns (closed: bool)
      modifies this
      ensures !isSubmitting && closed == succeeded
      ensures succeeded ==> form == DefaultForm && errors == map[]
      ensures !succeeded ==> form == old(form) && errors == old(errors)
    {
      closed := false;
      if succeeded {
        form := DefaultForm;
        errors := map[];
        closed := true;
      }
      isSubmitting := false;
    }

    /** `handleClose`: ignored while a submission is running. */
    method HandleClose() returns (closed: bool)
      modifies this
      ensures closed == !old(isSubmitting) && isSubmitting == old(isSubmitting)
      ensures closed ==> form == DefaultForm && errors == map[]
      ensures !closed ==> form == old(form) && errors == old(errors)
    {
      closed := false;
      if !isSubmitting {
        form := DefaultForm;
        errors := map[];
        closed := true;
      }
    }
  }
}

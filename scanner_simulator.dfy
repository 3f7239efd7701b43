/**
 * The boarding-pass scanner simulator: a seven-field form whose submission
 * appends one record to the list and resets the form.
 */
module ScannerSimulator {
  import opened Wrappers
  import opened Text
  import opened TimeText
  import opened Records

  datatype ScanField = Airline | FlightNumber | DepartureTime | Destination | LastName | FirstName | Status

  datatype ScanForm = ScanForm(
    airline: string, flightNumber: string, departureTime: string, destination: string,
    lastName: string, firstName: string, status: string)

  const DefaultScanForm: ScanForm := ScanForm("", "", "", "", "", "", "WCHR")

  function FieldOf(form: ScanForm, f: ScanField): string
  {
    match f
    case Airline => form.airline
    case FlightNumber => form.flightNumber
    case DepartureTime => form.departureTime
    case Destination => form.destination
    case LastName => form.lastName
    case FirstName => form.firstName
    case Status => form.status
  }

  /** `{ ...prevData, [name]: value }`. */
  function FormWith(form: ScanForm, f: ScanField, value: string): (r: ScanForm)
    ensures FieldOf(r, f) == value
    ensures forall g :: g != f ==> FieldOf(r, g) == FieldOf(form, g)
  {
    match f
    case Airline => form.(airline := value)
    case FlightNumber => form.(flightNumber := value)
    case DepartureTime => form.(departureTime := value)
    case Destination => form.(destination := value)
    case LastName => form.(lastName := value)
    case FirstName => form.(firstName := value)
    case Status => form.(status := value)
  }

  /** `isFormValid`, which enables the submit button: six fields filled, the status not checked. */
  predicate IsFormValid(form: ScanForm)
  {
    form.airline != "" && form.flightNumber != "" && form.departureTime != ""
    && form.destination != "" && form.lastName != "" && form.firstName != ""
  }

  lemma FormValidIff(form: ScanForm)
    ensures IsFormValid(form) <==> forall f :: f != Status ==> FieldOf(form, f) != ""
    ensures IsFormValid(form) == IsFormValid(form.(status := ""))
  {
    if !IsFormValid(form) {
      var f :| f in [Airline, FlightNumber, DepartureTime, Destination, LastName, FirstName] && FieldOf(form, f) == "";
    }
  }

  /** `new Date().toISOString().split('T')[0]`, from the same instant as the scan time. */
  function DateOf(isoNow: string): string { Split(isoNow, 'T')[0] }

  lemma DateOfIso(isoNow: string)
    requires |isoNow| > 10 && 'T' !in isoNow[..10] && isoNow[10] == 'T'
    ensures DateOf(isoNow) == isoNow[..10]
  {
    assert isoNow == isoNow[..10] + ['T'] + isoNow[11..];
    SplitAt(isoNow[..10], 'T', isoNow[11..]);
  }

  /** `{ id, scanTime, date, ...formData }`: the form's fields over a fresh id and the scan instant. */
  function ScanRecord(form: ScanForm, id: string, isoNow: string): (r: Passenger)
    ensures r.id == id && r.scanTime == isoNow && r.date == DateOf(isoNow)
    ensures FormOf(r) == form
    ensures r.idPax.None? && r.goAcc == "" && !r.isSkyPriority
  {
    Unset.(id := id, scanTime := isoNow, date := DateOf(isoNow),
           airline := form.airline, flightNumber := form.flightNumber,
           departureTime := form.departureTime, destination := form.destination,
           lastName := form.lastName, firstName := form.firstName, status := form.status)
  }

  /** The form fields a record carries; the submitted form reads back from its record. */
  function FormOf(p: Passenger): ScanForm
  {
    ScanForm(p.airline, p.flightNumber, p.departureTime, p.destination, p.lastName, p.firstName, p.status)
  }

  /**
   * A departure typed into the `datetime-local` input, `YYYY-MM-DDTHH:MM`,
   * is read by the pages as its `HH:MM` part.
   */
  lemma ScannedTimeReadsBack(form: ScanForm, id: string, isoNow: string)
    requires IsDateTimeLocal(form.departureTime)
    ensures ExtractOrNull(ScanRecord(form, id, isoNow).departureTime) == Some(form.departureTime[11..])
  {
    DateTimeLocalUsesIsoRule(form.departureTime);
  }

  class Scanner {
    var form: ScanForm
    /** The list the page's `setPassengers` updates. */
    var passengers: seq<Passenger>

    constructor(passengers: seq<Passenger>)
      ensures form == DefaultScanForm && this.passengers == passengers
    {
      form := DefaultScanForm;
      this.passengers := passengers;
    }

    method HandleChange(f: ScanField, value: string)
      modifies this
      ensures form == FormWith(old(form), f, value) && passengers == old(passengers)
    {
      form := FormWith(form, f, value);
    }

    /** Appends the scanned record at the end and resets the form. */
    method HandleSubmit(id: string, isoNow: string)
      modifies this
      ensures passengers == old(passengers) + [ScanRecord(old(form), id, isoNow)]
      ensures form == DefaultScanForm
    {
      var newPassenger := ScanRecord(form, id, isoNow);
      passengers := passengers + [newPassenger];
      form := DefaultScanForm;
    }
  }
}

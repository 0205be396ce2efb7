/** The booking dialog: its option lists, the form it keeps, the total it
    shows, and the request it submits. The date picker's value is kept as
    the `yyyy-MM-dd` string it is formatted to; the formatting itself and
    the 1.5 second submit delay are not part of this model. */
module Booking {
  import opened Wrappers
  import opened Types
  import Text
  import Pricing

  /** The values of the duration select, in hours. */
  const DurationOptions: seq<string> := ["1", "2", "3", "4"]

  /** The bookable start times, on the hour from 09:00 to 20:00. */
  const TimeSlots: seq<string> := [
    "09:00", "10:00", "11:00", "12:00", "13:00", "14:00",
    "15:00", "16:00", "17:00", "18:00", "19:00", "20:00"]

  /** What the duration field can hold: one of the options, or empty. */
  type DurationText = s: string | s == "" || s in DurationOptions witness "1"

  /** The two-digit `HH:00` label of hour `h`. */
  function HourLabel(h: nat): (s: string)
    requires h < 24
    ensures |s| == 5 && Text.AllDigits(s[..2]) && s[2..] == ":00"
    ensures Text.DigitsValue(s[..2]) == h
  {
    var s := [Text.DigitChar(h / 10), Text.DigitChar(h % 10)] + ":00";
    var t := s[..2];
    assert t[..|t| - 1] == [s[0]] && [s[0]][..0] == [];
    assert Text.DigitsValue([s[0]]) == h / 10;
    assert Text.DigitsValue(t) == 10 * (h / 10) + h % 10;
    s
  }

  /** The slots are the twelve consecutive hours from nine to twenty. */
  lemma TimeSlotsAreHourly()
    ensures |TimeSlots| == 12
    ensures forall i :: 0 <= i < |TimeSlots| ==> TimeSlots[i] == HourLabel(9 + i)
  {
  }

  /** The duration options are the numerals of one to four hours. */
  lemma DurationOptionsAreOneToFour()
    ensures |DurationOptions| == 4
    ensures forall i :: 0 <= i < |DurationOptions| ==> DurationOptions[i] == Text.NatToString(i + 1)
  {
  }

  /** `parseInt(duration || '1')`: the hours of the duration field, an
      empty field counting as one hour. */
  function Hours(s: DurationText): (h: nat)
    ensures s == "" ==> h == 1
    ensures s != "" ==> 1 <= h <= 4 && Text.NatToString(h) == s
  {
    if s == "" then 1 else Text.DigitsValue(s)
  }

  /** The dialog's form state. */
  datatype BookingForm = BookingForm(
    date: Option<string>,
    time: string,
    duration: DurationText,
    description: string)

  /** The form before the dialog is first used and after every submit. The
      dialog stays mounted, so a form closed without submitting keeps its
      fields for the next opening. */
  const EmptyForm: BookingForm := BookingForm(None, "", "1", "")

  /** Date, time and duration are all filled in. */
  predicate Ready(f: BookingForm) {
    f.date.Some? && f.time != "" && f.duration != ""
  }

  /** The request a submit hands to the page; `duration` is in hours. */
  datatype BookingRequest = BookingRequest(
    duckId: string,
    duckName: string,
    sessionType: SessionType,
    date: string,
    time: string,
    duration: nat,
    description: string,
    cost: nat)

  /** The dialog heading for each session type. */
  function SessionTitle(t: SessionType): string {
    match t
    case Debugging => "Debugging Session"
    case Career => "Career Counseling"
    case Existential => "Existential Support"
  }

  /** The note under the total for each price signal. */
  function NoteText(s: Pricing.Signal): string {
    match s
    case Discount => "Discount applied!"
    case Premium => "Premium pricing"
  }

  /** The note under the total: "Discount applied!" below a neutral mood,
      "Premium pricing" above it, nothing at exactly 1.0. */
  function PriceNote(modifier: nat): (r: Option<string>)
    ensures r == Some("Discount applied!") <==> modifier < 100
    ensures r == Some("Premium pricing") <==> modifier > 100
    ensures r.None? <==> modifier == 100
  {
    match Pricing.MoodSignal(modifier)
    case None => None
    case Some(s) => Some(NoteText(s))
  }

  /** A discount note is only shown when the mood price is at or below the
      profile's list price, and a premium note when it is at or above. */
  lemma PriceNoteIsHonest(d: Duck, t: SessionType)
    ensures PriceNote(d.mood.priceModifier) == Some("Discount applied!") ==>
      Pricing.BookingUnitPrice(d, t) <= Pricing.ProfileUnitPrice(d, t)
    ensures PriceNote(d.mood.priceModifier) == Some("Premium pricing") ==>
      Pricing.BookingUnitPrice(d, t) >= Pricing.ProfileUnitPrice(d, t)
  {
    Pricing.MoodDirection(d, t);
  }

  /** What the open dialog shows. */
  datatype DialogView = DialogView(
    title: string,
    total: nat,
    priceNote: Option<string>,
    canSubmit: bool)

  /** The dialog for a selected duck and session type; without either it
      renders nothing. `submitting` is true while a submit is pending. */
  function Dialog(duck: Option<Duck>, t: Option<SessionType>, f: BookingForm, submitting: bool): (r: Option<DialogView>)
    ensures r.None? <==> duck.None? || t.None?
    ensures r.Some? ==> r.value.total == Pricing.TotalCost(duck.value, t.value, Hours(f.duration))
    ensures r.Some? ==> r.value.priceNote == PriceNote(duck.value.mood.priceModifier)
    ensures r.Some? ==> (r.value.canSubmit <==> Ready(f) && !submitting)
    ensures r.Some? ==> Text.StartsWith(r.value.title, "Book ")
  {
    if duck.None? || t.None? then None
    else
      var d, k := duck.value, t.value;
      Some(DialogView(
        "Book " + SessionTitle(k) + " with " + d.name,
        Pricing.TotalCost(d, k, Hours(f.duration)),
        PriceNote(d.mood.priceModifier),
        Ready(f) && !submitting))
  }

  /** The result of a submit: the request, if one is sent, and the form. */
  datatype SubmitOutcome = SubmitOutcome(request: Option<BookingRequest>, form: BookingForm)

  /** `handleSubmit`: nothing happens unless date, time and duration are all
      set; otherwise the request carries the duck, the form's fields, the
      duration as a number and the total, and the form is reset. */
  function Submit(d: Duck, t: SessionType, f: BookingForm): (r: SubmitOutcome)
    ensures !Ready(f) ==> r == SubmitOutcome(None, f)
    ensures Ready(f) ==> r.form == EmptyForm && r.request.Some?
    ensures Ready(f) ==>
      var q := r.request.value;
      && q.duckId == d.id && q.duckName == d.name && q.sessionType == t
      && q.date == f.date.value && q.time == f.time && q.description == f.description
      && 1 <= q.duration <= 4 && Text.NatToString(q.duration) == f.duration
      && q.cost == Pricing.TotalCost(d, t, q.duration)
  {
    if !Ready(f) then SubmitOutcome(None, f)
    else
      var hours := Hours(f.duration);
      SubmitOutcome(
        Some(BookingRequest(d.id, d.name, t, f.date.value, f.time, hours, f.description,
          Pricing.TotalCost(d, t, hours))),
        EmptyForm)
  }

  /** Whenever the submit button is enabled, pressing it sends a request
      whose cost is the total the dialog showed. */
  lemma SubmitChargesShownTotal(d: Duck, t: SessionType, f: BookingForm)
    requires Dialog(Some(d), Some(t), f, false).value.canSubmit
    ensures Submit(d, t, f).request.Some?
    ensures Submit(d, t, f).request.value.cost == Dialog(Some(d), Some(t), f, false).value.total
  {
  }

  /** A submit from a reset form is refused, so a form is never submitted
      twice without being filled in again. */
  lemma ResetFormIsNotReady(d: Duck, t: SessionType, f: BookingForm)
    ensures !Ready(Submit(d, t, f).form) || !Ready(f)
    ensures Ready(f) ==> Submit(d, t, Submit(d, t, f).form).request.None?
  {
  }
}

/** The marketplace card of one duck: the availability dot and badge, the
    mood emoji, the first specialties with a count of the rest, the
    discount or premium badge, and whether the book button is enabled. */
module Card {
  import opened Wrappers
  import opened Types
  import Text
  import Pricing

  /** The colour of the availability dot. */
  function AvailabilityColor(a: Availability): string {
    match a
    case Available => "bg-green-500"
    case Busy => "bg-yellow-500"
    case Offline => "bg-gray-500"
  }

  /** The availability badge text; a busy duck is "In Session". */
  function AvailabilityText(a: Availability): string {
    match a
    case Available => "Available"
    case Busy => "In Session"
    case Offline => "Offline"
  }

  /** Each availability has its own colour and its own text. */
  lemma AvailabilityDisplayDistinct(a: Availability, b: Availability)
    requires a != b
    ensures AvailabilityColor(a) != AvailabilityColor(b)
    ensures AvailabilityText(a) != AvailabilityText(b)
  {
  }

  /** The duck emoji shown for any string that is not a mood name. */
  const DefaultEmoji: string := "🦆"

  /** The emoji for a mood name, looked up by its string. */
  function MoodEmoji(mood: string): (e: string)
    ensures ParseMood(mood).None? <==> e == DefaultEmoji
  {
    if mood == "happy" then "😊"
    else if mood == "focused" then "🎯"
    else if mood == "grumpy" then "😤"
    else if mood == "excited" then "🤩"
    else if mood == "sleepy" then "😴"
    else DefaultEmoji
  }

  /** Every mood has an emoji of its own, none of them the default. */
  lemma MoodEmojiDistinct(a: MoodKind, b: MoodKind)
    ensures MoodEmoji(MoodName(a)) != DefaultEmoji
    ensures a != b ==> MoodEmoji(MoodName(a)) != MoodEmoji(MoodName(b))
  {
  }

  /** The specialty badges shown: the first three. */
  function VisibleSpecialties(xs: seq<string>): (r: seq<string>)
    ensures |r| == if |xs| < 3 then |xs| else 3
    ensures r == xs[..|r|]
  {
    if |xs| <= 3 then xs else xs[..3]
  }

  /** The badge counting the specialties not shown, if there are any. */
  function MoreBadge(xs: seq<string>): (r: Option<string>)
    ensures r.Some? <==> |xs| > 3
    ensures r.Some? ==> r.value == "+" + Text.NatToString(|xs| - 3) + " more"
  {
    if |xs| > 3 then Some("+" + Text.NatToString(|xs| - 3) + " more") else None
  }

  /** The badges account for every specialty: those shown plus the count
      in the "+k more" badge is the total. */
  lemma BadgesCountAll(xs: seq<string>)
    ensures MoreBadge(xs).None? ==> VisibleSpecialties(xs) == xs
    ensures MoreBadge(xs).Some? ==>
      var k := Text.DigitsValue(MoreBadge(xs).value[1..|MoreBadge(xs).value| - 5]);
      |VisibleSpecialties(xs)| + k == |xs|
  {
    if |xs| > 3 {
      var n := Text.NatToString(|xs| - 3);
      var b := "+" + n + " more";
      assert b[1..|b| - 5] == n;
      Text.NatToStringRoundTrip(|xs| - 3);
    }
  }

  /** The badge next to the price for each price signal. */
  function BadgeText(s: Pricing.Signal): string {
    match s
    case Discount => "Discount!"
    case Premium => "Premium"
  }

  /** The badge next to the price: "Discount!" below a neutral mood,
      "Premium" above it, none at exactly 1.0. */
  function PriceBadge(modifier: nat): (r: Option<string>)
    ensures r == Some("Discount!") <==> modifier < 100
    ensures r == Some("Premium") <==> modifier > 100
    ensures r.None? <==> modifier == 100
  {
    match Pricing.MoodSignal(modifier)
    case None => None
    case Some(s) => Some(BadgeText(s))
  }

  /** The book button is enabled exactly for an available duck. */
  predicate BookEnabled(d: Duck) {
    d.availability == Available
  }

  /** The hourly price the card is meant to show: the rate under the
      duck's mood, rounded to whole dollars, which is what the booking
      dialog charges for a debugging hour. */
  function ActualPrice(d: Duck): (p: nat)
    ensures var exact := d.hourlyRate * d.mood.priceModifier;
      200 * p <= 2 * exact + 100 < 200 * (p + 1)
    ensures p == Pricing.BookingUnitPrice(d, Debugging)
  {
    var exact := d.hourlyRate * d.mood.priceModifier;
    var p := Pricing.RoundHalfUp(exact, 100);
    assert 2 * p * 100 == 200 * p && 2 * (p + 1) * 100 == 200 * (p + 1);
    assert d.hourlyRate * d.mood.priceModifier * Pricing.TypeMultiplier(Debugging) == exact * 10;
    p
  }

  /** What the card shows about one duck. */
  datatype CardView = CardView(
    dotColor: string,
    moodEmoji: string,
    specialties: seq<string>,
    more: Option<string>,
    price: nat,
    priceBadge: Option<string>,
    availabilityText: string,
    bookEnabled: bool)

  /** The card as intended, with the mood price on its price line. */
  function View(d: Duck): (v: CardView)
    ensures |v.specialties| <= 3 && |v.specialties| <= |d.specialties|
    ensures v.specialties == d.specialties[..|v.specialties|]
    ensures v.moodEmoji != DefaultEmoji
    ensures v.price == Pricing.BookingUnitPrice(d, Debugging)
    ensures v.bookEnabled <==> d.availability == Available
    ensures v.priceBadge.Some? <==> d.mood.priceModifier != 100
  {
    MoodEmojiDistinct(d.mood.current, d.mood.current);
    CardView(
      AvailabilityColor(d.availability),
      MoodEmoji(MoodName(d.mood.current)),
      VisibleSpecialties(d.specialties),
      MoreBadge(d.specialties),
      ActualPrice(d),
      PriceBadge(d.mood.priceModifier),
      AvailabilityText(d.availability),
      BookEnabled(d))
  }

  /** Rendering a card either shows it or throws, aborting the render. */
  datatype Rendering = Shown(view: CardView) | Threw(error: string)

  /** The error a call to an undeclared name raises. */
  const UndeclaredPrice: string := "ReferenceError: getActualPrice is not defined"

  /** The card as written: its price line calls `getActualPrice`, which
      no module declares, so every render throws before the card is shown. */
  function RenderAsWritten(d: Duck): (r: Rendering)
    ensures r.Threw? && r.error == UndeclaredPrice
  {
    Threw(UndeclaredPrice)
  }

  /** The intended render always shows the card. */
  function Render(d: Duck): (r: Rendering)
    ensures r.Shown? && r.view.price == Pricing.BookingUnitPrice(d, Debugging)
  {
    Shown(View(d))
  }
}

/** Session prices. The booking dialog charges the hourly rate scaled by
    the duck's mood modifier and the session-type multiplier; the profile
    dialog lists the rate scaled by the type multiplier alone. Both round
    with `Math.round`, modelled exactly on rationals: modifiers are in
    hundredths and multipliers in tenths. */
module Pricing {
  import opened Wrappers
  import opened Types

  /** How a mood moves the price, as the card badge and the booking note
      both report it. */
  datatype Signal = Discount | Premium

  /** A modifier below 1.0 is a discount and one above is a premium; at
      exactly 1.0 neither is shown. */
  function MoodSignal(modifier: nat): (s: Option<Signal>)
    ensures s == Some(Discount) <==> modifier < 100
    ensures s == Some(Premium) <==> modifier > 100
    ensures s.None? <==> modifier == 100
  {
    if modifier == 100 then None
    else if modifier < 100 then Some(Discount)
    else Some(Premium)
  }

  /** The session-type multiplier in tenths: 1.0, 1.2 or 0.8. */
  function TypeMultiplier(t: SessionType): (m: nat)
    ensures 8 <= m <= 12
    ensures m == 10 <==> t == Debugging
    ensures m > 10 <==> t == Career
    ensures m < 10 <==> t == Existential
  {
    match t
    case Debugging => 10
    case Career => 12
    case Existential => 8
  }

  /** `Math.round(num / den)`: the integer nearest to the quotient, a
      quotient exactly half-way between two integers going up. */
  function RoundHalfUp(num: nat, den: nat): (n: nat)
    requires den > 0
    ensures 2 * n * den <= 2 * num + den < 2 * (n + 1) * den
  {
    var q := (2 * num + den) / (2 * den);
    assert q * (2 * den) <= 2 * num + den < (q + 1) * (2 * den);
    q
  }

  /** Multiplying by a natural number keeps the order. */
  lemma ScaleKeepsOrder(a: nat, b: nat, c: nat)
    ensures a <= b ==> 2 * a * c <= 2 * b * c
  {
    if a <= b {
      assert 2 * b * c == 2 * a * c + 2 * (b - a) * c;
    }
  }

  /** A larger quotient never rounds lower. */
  lemma RoundMonotone(a: nat, b: nat, den: nat)
    requires den > 0 && a <= b
    ensures RoundHalfUp(a, den) <= RoundHalfUp(b, den)
  {
    var x, y := RoundHalfUp(a, den), RoundHalfUp(b, den);
    ScaleKeepsOrder(y + 1, x, den);
  }

  /** Quotients at least one whole unit apart round to different integers. */
  lemma RoundSeparates(a: nat, b: nat, den: nat)
    requires den > 0 && a + den <= b
    ensures RoundHalfUp(a, den) < RoundHalfUp(b, den)
  {
    var x, y := RoundHalfUp(a, den), RoundHalfUp(b, den);
    ScaleKeepsOrder(y, x, den);
  }

  /** The booking dialog's hourly price: the rate times the mood modifier
      times the type multiplier, rounded to whole dollars. */
  function BookingUnitPrice(d: Duck, t: SessionType): (p: nat)
    ensures var exact := d.hourlyRate * d.mood.priceModifier * TypeMultiplier(t);
      2000 * p <= 2 * exact + 1000 < 2000 * (p + 1)
  {
    var exact := d.hourlyRate * d.mood.priceModifier * TypeMultiplier(t);
    var p := RoundHalfUp(exact, 1000);
    assert 2 * p * 1000 == 2000 * p && 2 * (p + 1) * 1000 == 2000 * (p + 1);
    p
  }

  /** The profile dialog's hourly price, which leaves the mood out. */
  function ProfileUnitPrice(d: Duck, t: SessionType): (p: nat)
    ensures var exact := d.hourlyRate * TypeMultiplier(t);
      20 * p <= 2 * exact + 10 < 20 * (p + 1)
  {
    var exact := d.hourlyRate * TypeMultiplier(t);
    var p := RoundHalfUp(exact, 10);
    assert 2 * p * 10 == 20 * p && 2 * (p + 1) * 10 == 20 * (p + 1);
    p
  }

  /** Both prices scaled to the common denominator 1000. */
  lemma ProfileOverThousand(d: Duck, t: SessionType)
    ensures ProfileUnitPrice(d, t) == RoundHalfUp(d.hourlyRate * 100 * TypeMultiplier(t), 1000)
  {
    var x := d.hourlyRate * TypeMultiplier(t);
    Reorder(d.hourlyRate, 100, TypeMultiplier(t));
    RoundRescaled(x);
  }

  /** Scaling a quotient's numerator and denominator by 100 rounds alike. */
  lemma RoundRescaled(x: nat)
    ensures RoundHalfUp(x * 100, 1000) == RoundHalfUp(x, 10)
  {
    var p, q := RoundHalfUp(x, 10), RoundHalfUp(x * 100, 1000);
    assert 2 * p * 10 == 20 * p && 2 * (p + 1) * 10 == 20 * (p + 1);
    assert 2 * q * 1000 == 2000 * q && 2 * (q + 1) * 1000 == 2000 * (q + 1);
  }

  /** The profile's debugging price of a whole-dollar rate is the rate. */
  lemma DebuggingListPriceIsRate(d: Duck)
    ensures ProfileUnitPrice(d, Debugging) == d.hourlyRate
  {
  }

  /** With a neutral mood the two dialogs quote the same price. */
  lemma NeutralMoodAgrees(d: Duck, t: SessionType)
    requires d.mood.priceModifier == 100
    ensures BookingUnitPrice(d, t) == ProfileUnitPrice(d, t)
  {
    ProfileOverThousand(d, t);
    assert d.hourlyRate * d.mood.priceModifier * TypeMultiplier(t) == d.hourlyRate * 100 * TypeMultiplier(t);
  }

  /** Both prices as roundings of the exact price in thousandths of a
      dollar: rate * multiplier * modifier, and rate * multiplier * 100. */
  lemma OverCommonScale(d: Duck, t: SessionType)
    ensures var r := d.hourlyRate * TypeMultiplier(t);
      && BookingUnitPrice(d, t) == RoundHalfUp(r * d.mood.priceModifier, 1000)
      && ProfileUnitPrice(d, t) == RoundHalfUp(r * 100, 1000)
  {
    ProfileOverThousand(d, t);
    Reorder(d.hourlyRate, d.mood.priceModifier, TypeMultiplier(t));
    Reorder(d.hourlyRate, 100, TypeMultiplier(t));
  }

  lemma Reorder(a: nat, b: nat, c: nat)
    ensures a * b * c == (a * c) * b
  {
  }

  lemma ScaleLeft(r: nat, m: nat, n: nat)
    ensures m <= n ==> r * m <= r * n
    ensures m <= n ==> r * n == r * m + r * (n - m)
  {
  }

  /** A discount mood never charges more than the profile lists, and a
      premium mood never charges less. */
  lemma MoodDirection(d: Duck, t: SessionType)
    ensures d.mood.priceModifier < 100 ==> BookingUnitPrice(d, t) <= ProfileUnitPrice(d, t)
    ensures d.mood.priceModifier > 100 ==> BookingUnitPrice(d, t) >= ProfileUnitPrice(d, t)
  {
    OverCommonScale(d, t);
    ScaledOrder(d.hourlyRate * TypeMultiplier(t), d.mood.priceModifier);
  }

  /** Rounding `r * m` and `r * 100` over 1000 keeps the order of `m` and 100. */
  lemma ScaledOrder(r: nat, m: nat)
    ensures m < 100 ==> RoundHalfUp(r * m, 1000) <= RoundHalfUp(r * 100, 1000)
    ensures m > 100 ==> RoundHalfUp(r * m, 1000) >= RoundHalfUp(r * 100, 1000)
  {
    if m < 100 {
      ScaleLeft(r, m, 100);
      RoundMonotone(r * m, r * 100, 1000);
    } else if m > 100 {
      ScaleLeft(r, 100, m);
      RoundMonotone(r * 100, r * m, 1000);
    }
  }

  /** The two dialogs quote different prices once the mood moves the exact
      price by at least a dollar, i.e. rate * multiplier * |modifier - 1|
      is at least 1. */
  lemma PricesDiverge(d: Duck, t: SessionType)
    requires var r := d.hourlyRate * TypeMultiplier(t);
      var m := d.mood.priceModifier;
      (m < 100 && r * (100 - m) >= 1000) || (m > 100 && r * (m - 100) >= 1000)
    ensures BookingUnitPrice(d, t) != ProfileUnitPrice(d, t)
  {
    OverCommonScale(d, t);
    ScaledApart(d.hourlyRate * TypeMultiplier(t), d.mood.priceModifier);
  }

  /** `r * m` and `r * 100` a whole 1000 apart round to different values. */
  lemma ScaledApart(r: nat, m: nat)
    requires (m < 100 && r * (100 - m) >= 1000) || (m > 100 && r * (m - 100) >= 1000)
    ensures RoundHalfUp(r * m, 1000) != RoundHalfUp(r * 100, 1000)
  {
    if m < 100 {
      ScaleLeft(r, m, 100);
      RoundSeparates(r * m, r * 100, 1000);
    } else {
      ScaleLeft(r, 100, m);
      RoundSeparates(r * 100, r * m, 1000);
    }
  }

  /** A non-neutral mood does not always change the price: at one dollar
      an hour a happy duck's debugging price rounds back to one dollar. */
  lemma SmallRateHidesMood(d: Duck)
    requires d.hourlyRate == 1 && d.mood.priceModifier == 90
    ensures BookingUnitPrice(d, Debugging) == ProfileUnitPrice(d, Debugging) == 1
  {
  }

  /** Total cost of a booking: the hourly price times the hours. */
  function TotalCost(d: Duck, t: SessionType, hours: nat): (c: nat)
    ensures hours == 0 ==> c == 0
    ensures hours > 0 ==> c >= BookingUnitPrice(d, t)
  {
    BookingUnitPrice(d, t) * hours
  }

  /** A duck at $75 with modifier 0.95 costs $86 for one career hour
      (75 * 0.95 * 1.2 = 85.5, which rounds up). */
  lemma CareerExample(d: Duck)
    requires d.hourlyRate == 75 && d.mood.priceModifier == 95
    ensures BookingUnitPrice(d, Career) == 86
    ensures TotalCost(d, Career, 1) == 86 && TotalCost(d, Career, 3) == 258
    ensures ProfileUnitPrice(d, Career) == 90
  {
  }
}

/** The mood engine of `useDuckMoodSystem`: a check, run at start-up and on
    every poll, that re-rolls every duck's mood once more than thirty
    minutes have passed since the stored marker, and derives the price
    modifier and availability bonus from a fixed table. The clock and the
    `Math.random()` draws are inputs. */
module MoodSystem {
  import opened Wrappers
  import opened Types
  import Random

  /** Thirty minutes, in milliseconds. */
  const UpdateInterval: nat := 30 * 60 * 1000

  /** The moods in the order the re-roll indexes them. */
  const Moods: seq<MoodKind> := [Happy, Focused, Grumpy, Excited, Sleepy]

  /** The mood table's price modifier, in hundredths. */
  function PriceModifier(k: MoodKind): (m: nat)
    ensures 85 <= m <= 120
    ensures m < 100 <==> k == Happy || k == Excited
    ensures m == 100 <==> k == Focused
  {
    match k
    case Happy => 90
    case Focused => 100
    case Grumpy => 120
    case Excited => 85
    case Sleepy => 110
  }

  /** The mood table's availability bonus. */
  function AvailabilityBonus(k: MoodKind): (b: bool)
    ensures b <==> PriceModifier(k) <= 100
  {
    match k
    case Happy => true
    case Focused => true
    case Grumpy => false
    case Excited => true
    case Sleepy => false
  }

  /** The table row for `k`, stamped with `now`. */
  function MoodFor(k: MoodKind, now: Time): (m: Mood)
    ensures Consistent(m) && m.current == k && m.lastUpdated == now
  {
    Mood(k, PriceModifier(k), AvailabilityBonus(k), now)
  }

  /** A mood whose modifier and bonus are those the table gives its kind. */
  predicate Consistent(m: Mood) {
    m.priceModifier == PriceModifier(m.current)
    && m.availabilityBonus == AvailabilityBonus(m.current)
  }

  /** The catalog together with the persisted `last-mood-update` marker;
      `None` is the empty string the store starts with. */
  datatype MoodState = MoodState(ducks: seq<Duck>, lastMoodUpdate: Option<Time>)

  /** The marker as a time: the empty marker reads as the epoch. */
  function MarkerTime(marker: Option<Time>): (t: Time)
    ensures marker.None? ==> t == 0
    ensures marker.Some? ==> t == marker.value
  {
    marker.GetOr(0)
  }

  /** Strictly more than thirty minutes have passed since the marker. */
  predicate Due(marker: Option<Time>, now: Time) {
    now - MarkerTime(marker) > UpdateInterval
  }

  /** The mood one draw selects: `moods[Math.floor(Math.random() * 5)]`. */
  function RolledMood(r: Random.Draw): MoodKind {
    Moods[Random.Index(r, 5)]
  }

  /** Every one of the five moods is the outcome of some draw. */
  lemma EveryMoodReachable(k: MoodKind)
    ensures exists r: Random.Draw :: RolledMood(r) == k
  {
    var i := if k == Happy then 0 else if k == Focused then 1 else if k == Grumpy then 2
             else if k == Excited then 3 else 4;
    Random.IndexReachable(5, i);
    var r: Random.Draw :| Random.Index(r, 5) == i;
    assert RolledMood(r) == k;
  }

  /** Re-rolls every duck: only the mood sub-record is replaced. */
  function Reroll(ducks: seq<Duck>, draws: seq<Random.Draw>, now: Time): (r: seq<Duck>)
    requires |draws| == |ducks|
    ensures |r| == |ducks|
    ensures forall i :: 0 <= i < |r| ==> r[i].mood == MoodFor(RolledMood(draws[i]), now)
    ensures forall i :: 0 <= i < |r| ==> r[i].(mood := ducks[i].mood) == ducks[i]
    decreases |ducks|
  {
    if |ducks| == 0 then []
    else [ducks[0].(mood := MoodFor(RolledMood(draws[0]), now))] + Reroll(ducks[1..], draws[1..], now)
  }

  /** One run of `updateMoods` at time `now`, with one draw per duck. */
  function UpdateMoods(s: MoodState, now: Time, draws: seq<Random.Draw>): (r: MoodState)
    requires |draws| == |s.ducks|
    ensures !Due(s.lastMoodUpdate, now) ==> r == s
    ensures Due(s.lastMoodUpdate, now) ==>
      && r.lastMoodUpdate == Some(now)
      && |r.ducks| == |s.ducks|
      && (forall i :: 0 <= i < |r.ducks| ==>
            && Consistent(r.ducks[i].mood)
            && r.ducks[i].mood.lastUpdated == now
            && r.ducks[i].mood.current == Moods[Random.Index(draws[i], 5)]
            && r.ducks[i].(mood := s.ducks[i].mood) == s.ducks[i])
  {
    if Due(s.lastMoodUpdate, now) then
      MoodState(Reroll(s.ducks, draws, now), Some(now))
    else
      s
  }

  /** Exactly thirty minutes after the marker nothing changes; one
      millisecond later the moods are re-rolled. */
  lemma ThresholdIsStrict(s: MoodState, t: Time, draws: seq<Random.Draw>)
    requires s.lastMoodUpdate == Some(t) && |draws| == |s.ducks|
    ensures UpdateMoods(s, t + UpdateInterval, draws) == s
    ensures UpdateMoods(s, t + UpdateInterval + 1, draws).lastMoodUpdate == Some(t + UpdateInterval + 1)
  {
  }

  /** With the empty marker every check later than thirty minutes past the
      epoch updates, so the first check after start-up re-rolls. */
  lemma FirstCheckUpdates(ducks: seq<Duck>, now: Time, draws: seq<Random.Draw>)
    requires |draws| == |ducks| && now > UpdateInterval
    ensures UpdateMoods(MoodState(ducks, None), now, draws).lastMoodUpdate == Some(now)
  {
  }

  /** A check inside the thirty-minute window that follows an update changes
      nothing: neither a mood nor the marker. */
  lemma Idempotent(s: MoodState, t1: Time, d1: seq<Random.Draw>, t2: Time, d2: seq<Random.Draw>)
    requires |d1| == |s.ducks| && |d2| == |s.ducks|
    requires Due(s.lastMoodUpdate, t1) && t2 <= t1 + UpdateInterval
    ensures UpdateMoods(UpdateMoods(s, t1, d1), t2, d2) == UpdateMoods(s, t1, d1)
  {
  }

  /** Every duck's mood agrees with the table. */
  predicate AllConsistent(ducks: seq<Duck>) {
    forall i :: 0 <= i < |ducks| ==> Consistent(ducks[i].mood)
  }

  /** Table consistency, once reached, survives every later check. */
  lemma {:induction false} ConsistencyPreserved(s: MoodState, now: Time, draws: seq<Random.Draw>)
    requires |draws| == |s.ducks|
    requires AllConsistent(s.ducks) || Due(s.lastMoodUpdate, now)
    ensures AllConsistent(UpdateMoods(s, now, draws).ducks)
  {
  }

  /** Every modifier the engine writes lies in [0.85, 1.2], inside the
      documented range [0.8, 1.3]. */
  lemma ModifierRange(s: MoodState, now: Time, draws: seq<Random.Draw>)
    requires |draws| == |s.ducks| && Due(s.lastMoodUpdate, now)
    ensures forall i :: 0 <= i < |s.ducks| ==>
      85 <= UpdateMoods(s, now, draws).ducks[i].mood.priceModifier <= 120
  {
  }

  /** `getMoodDescription`. The texts are split into phrases, as in the
      catalog, to keep the verifier's work on the literals small. */
  function MoodDescription(k: MoodKind): string {
    match k
    case Happy =>
      "In a great mood! " + "Offering discounted " + "rates and extra " +
      "enthusiasm."
    case Focused =>
      "Laser-focused and ready " + "for serious debugging " + "work."
    case Grumpy =>
      "A bit grumpy today. " + "Rates are higher but " +
      "still delivers quality " + "work."
    case Excited =>
      "Super excited and " + "energetic! Great " + "discounts available."
    case Sleepy =>
      "Feeling a bit sleepy. " + "May take longer to " +
      "respond but still " + "reliable."
  }

  /** Each mood has its own description. */
  lemma MoodDescriptionInjective(a: MoodKind, b: MoodKind)
    requires MoodDescription(a) == MoodDescription(b)
    ensures a == b
  {
  }
}

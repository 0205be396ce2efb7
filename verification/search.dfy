/** The marketplace's catalog filter: a duck is listed when it matches the
    search text, the specialty, the availability and the price range. An
    empty search or an empty specialty disables that test, as JavaScript's
    falsy checks do. */
module Search {
  import opened Wrappers
  import opened Types
  import Text
  import Seqs

  /** An inclusive price range in whole dollars per hour. */
  datatype PriceRange = PriceRange(lo: nat, hi: nat)

  /** The upper bound that stands for "no upper bound". */
  const Unbounded: nat := 999

  /** The page's active filters. */
  datatype Criteria = Criteria(
    query: string,
    specialty: Option<string>,
    availability: Option<Availability>,
    priceRange: Option<PriceRange>)

  /** No search and no filter. */
  const NoCriteria: Criteria := Criteria("", None, None, None)

  /** A rate lies in a range: at least its lower bound and, unless the
      upper bound is the sentinel, at most its upper bound. */
  predicate InRange(rate: nat, r: PriceRange) {
    rate >= r.lo && (r.hi == Unbounded || rate <= r.hi)
  }

  /** Some specialty of `d` contains `q`, ignoring case. */
  predicate SpecialtyMentions(d: Duck, q: string) {
    exists i :: 0 <= i < |d.specialties| && Text.Contains(Text.Lower(d.specialties[i]), Text.Lower(q))
  }

  predicate MatchesQuery(d: Duck, q: string) {
    || q == ""
    || Text.Contains(Text.Lower(d.name), Text.Lower(q))
    || Text.Contains(Text.Lower(d.location), Text.Lower(q))
    || Text.Contains(Text.Lower(d.description), Text.Lower(q))
    || SpecialtyMentions(d, q)
  }

  predicate MatchesSpecialty(d: Duck, s: Option<string>) {
    s.None? || s.value == "" || s.value in d.specialties
  }

  predicate MatchesAvailability(d: Duck, a: Option<Availability>) {
    a.None? || d.availability == a.value
  }

  /** The price test reads the base hourly rate, not the mood price. */
  predicate MatchesPrice(d: Duck, r: Option<PriceRange>) {
    r.None? || InRange(d.hourlyRate, r.value)
  }

  predicate Matches(d: Duck, c: Criteria) {
    && MatchesQuery(d, c.query)
    && MatchesSpecialty(d, c.specialty)
    && MatchesAvailability(d, c.availability)
    && MatchesPrice(d, c.priceRange)
  }

  /** `filteredDucks`: the matching ducks, in catalog order. */
  function Filtered(ducks: seq<Duck>, c: Criteria): (r: seq<Duck>)
    ensures Seqs.IsSubsequence(r, ducks)
    ensures forall i :: 0 <= i < |r| ==> Matches(r[i], c)
    ensures forall i :: 0 <= i < |ducks| && Matches(ducks[i], c) ==> ducks[i] in r
    ensures forall d :: multiset(r)[d] == if Matches(d, c) then multiset(ducks)[d] else 0
  {
    Seqs.FilterCounts(ducks, d => Matches(d, c));
    Seqs.Filter(ducks, d => Matches(d, c))
  }

  /** With no search and no filter every duck is listed, in order. */
  lemma NoCriteriaListsAll(ducks: seq<Duck>)
    ensures Filtered(ducks, NoCriteria) == ducks
  {
    Seqs.FilterKeepsAll(ducks, d => Matches(d, NoCriteria));
  }

  /** Search ignores the case of the query. */
  lemma QueryIgnoresCase(d: Duck, q: string)
    ensures MatchesQuery(d, q) <==> MatchesQuery(d, Text.Lower(q))
  {
    Text.LowerIdempotent(q);
  }

  /** A duck whose name contains the query, in any case, is listed when no
      other filter is set. */
  lemma NameSearchFinds(ducks: seq<Duck>, i: nat, q: string)
    requires i < |ducks| && Text.Contains(Text.Lower(ducks[i].name), Text.Lower(q))
    ensures ducks[i] in Filtered(ducks, Criteria(q, None, None, None))
  {
  }

  /** Both bounds are inclusive, and the sentinel admits every rate at or
      above the lower bound. */
  lemma RangeBounds(r: PriceRange)
    ensures r.lo <= r.hi ==> InRange(r.lo, r) && InRange(r.hi, r)
    ensures r.hi == Unbounded ==> forall rate: nat :: rate >= r.lo ==> InRange(rate, r)
    ensures r.hi != Unbounded ==> !InRange(r.hi + 1, r) && (r.lo == 0 || !InRange(r.lo - 1, r))
  {
  }

  /** Whether a duck is listed does not depend on its mood, so a mood
      update never changes which ducks a filter shows. */
  lemma MoodDoesNotFilter(d: Duck, m: Mood, c: Criteria)
    ensures Matches(d.(mood := m), c) <==> Matches(d, c)
  {
    assert forall i :: 0 <= i < |d.specialties| ==> d.(mood := m).specialties[i] == d.specialties[i];
  }

  /** Filtering ducks that differ only in their moods lists the same
      ducks, up to their moods. */
  lemma FilterIgnoresMoods(a: seq<Duck>, b: seq<Duck>, c: Criteria)
    requires |a| == |b|
    requires forall i :: 0 <= i < |a| ==> b[i] == a[i].(mood := b[i].mood)
    ensures |Filtered(a, c)| == |Filtered(b, c)|
    ensures forall i :: 0 <= i < |Filtered(a, c)| ==>
      Filtered(b, c)[i] == Filtered(a, c)[i].(mood := Filtered(b, c)[i].mood)
  {
    forall i | 0 <= i < |a|
      ensures Matches(a[i], c) == Matches(b[i], c)
    {
      MoodDoesNotFilter(a[i], b[i].mood, c);
    }
    Seqs.FilterPairwise(a, b, d => Matches(d, c), d => Matches(d, c), (x: Duck, y: Duck) => y == x.(mood := y.mood));
  }
}

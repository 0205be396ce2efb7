/** The filter bar: its option lists, the string values its selects carry
    (a price range travels as the key `"lo-hi"`), the sentinel values
    meaning "no filter", clearing, and the badges for active filters. */
module Filters {
  import opened Wrappers
  import opened Types
  import Text
  import Search
  import Catalog
  import Seqs

  /** The specialty select's options, after its "all" entry. */
  const SpecialtyOptions: seq<string> := [
    "Frontend Bugs", "React Hooks", "CSS Layout", "Algorithms",
    "System Design", "Career Guidance", "Existential Support",
    "Backend Systems", "Database Issues", "Performance",
    "Code Quality", "Refactoring", "AI/ML"]

  /** A price option: its caption and its range. */
  datatype RangeOption = RangeOption(caption: string, range: Search.PriceRange)

  const PriceRanges: seq<RangeOption> := [
    RangeOption("Under $50", Search.PriceRange(0, 49)),
    RangeOption("$50 - $65", Search.PriceRange(50, 65)),
    RangeOption("$65 - $80", Search.PriceRange(65, 80)),
    RangeOption("Over $80", Search.PriceRange(80, 999))]

  /** The select values that stand for "no filter". */
  const AllSpecialties: string := "all-specialties"
  const AllStatus: string := "all-status"
  const AllPrices: string := "all-prices"

  // ---------------------------------------------------------------------
  // Price range keys

  /** The select value of a range: its bounds in decimal, joined by '-'. */
  function RangeKey(r: Search.PriceRange): (k: string)
    ensures |k| > 0 && Text.IsDigit(k[0])
  {
    Text.NatToString(r.lo) + "-" + Text.NatToString(r.hi)
  }

  /** How many characters at the front of `s` are decimal digits. */
  function DigitRun(s: string): (n: nat)
    ensures n <= |s| && Text.AllDigits(s[..n])
    ensures n < |s| ==> !Text.IsDigit(s[n])
  {
    if s == [] || !Text.IsDigit(s[0]) then 0 else 1 + DigitRun(s[1..])
  }

  /** The digits of a key end exactly where its first numeral ends. */
  lemma {:induction false} DigitRunOfKey(x: string, rest: string)
    requires Text.AllDigits(x) && rest != [] && rest[0] == '-'
    ensures DigitRun(x + rest) == |x|
    decreases |x|
  {
    if x == [] {
      assert (x + rest)[0] == '-';
    } else {
      assert (x + rest)[1..] == x[1..] + rest;
      DigitRunOfKey(x[1..], rest);
    }
  }

  /** Different ranges have different keys, so a key names one range. */
  lemma RangeKeyInjective(a: Search.PriceRange, b: Search.PriceRange)
    requires RangeKey(a) == RangeKey(b)
    ensures a == b
  {
    var x, y := Text.NatToString(a.lo), Text.NatToString(a.hi);
    var u, v := Text.NatToString(b.lo), Text.NatToString(b.hi);
    var k := RangeKey(a);
    assert k == x + ("-" + y) && k == u + ("-" + v);
    DigitRunOfKey(x, "-" + y);
    DigitRunOfKey(u, "-" + v);
    assert x == k[..|x|] == u;
    assert y == k[|x| + 1..] == v;
    Text.NatToStringInjective(a.lo, b.lo);
    Text.NatToStringInjective(a.hi, b.hi);
  }

  /** The first option whose key is `key`. */
  function FindRange(options: seq<RangeOption>, key: string): (r: Option<Search.PriceRange>)
    ensures r.Some? ==> exists i :: 0 <= i < |options| && options[i].range == r.value && RangeKey(r.value) == key
    ensures r.None? <==> forall i :: 0 <= i < |options| ==> RangeKey(options[i].range) != key
  {
    if options == [] then None
    else if RangeKey(options[0].range) == key then Some(options[0].range)
    else FindRange(options[1..], key)
  }

  /** The price select's value for the active range. */
  function PriceValue(r: Option<Search.PriceRange>): (v: string)
    ensures r.None? <==> v == AllPrices
  {
    if r.None? then AllPrices else RangeKey(r.value)
  }

  /** The range a price select value sets: none for the sentinel, the
      listed range with that key otherwise, none for an unknown key. */
  function OnPriceChange(v: string): (r: Option<Search.PriceRange>)
    ensures v == AllPrices ==> r.None?
    ensures r.Some? ==> PriceValue(r) == v
    ensures r.Some? ==> exists i :: 0 <= i < |PriceRanges| && PriceRanges[i].range == r.value
  {
    if v == AllPrices then None else FindRange(PriceRanges, v)
  }

  /** Choosing a listed range, or the sentinel, and reading it back gives
      the same selection. */
  lemma PriceRoundTrip(r: Option<Search.PriceRange>)
    requires r.None? || exists i :: 0 <= i < |PriceRanges| && PriceRanges[i].range == r.value
    ensures OnPriceChange(PriceValue(r)) == r
  {
    if r.Some? {
      var v := PriceValue(r);
      var i :| 0 <= i < |PriceRanges| && PriceRanges[i].range == r.value;
      assert RangeKey(PriceRanges[i].range) == v;
      var found := FindRange(PriceRanges, v);
      var j :| 0 <= j < |PriceRanges| && PriceRanges[j].range == found.value && RangeKey(found.value) == v;
      RangeKeyInjective(found.value, r.value);
    }
  }

  /** A value that is neither the sentinel nor a listed key clears the
      price filter. */
  lemma UnknownKeyClears(v: string)
    requires forall i :: 0 <= i < |PriceRanges| ==> RangeKey(PriceRanges[i].range) != v
    ensures OnPriceChange(v).None?
  {
  }

  // ---------------------------------------------------------------------
  // Specialty and status selects

  /** The specialty select's value: the sentinel for no (or an empty)
      specialty. */
  function SpecialtyValue(s: Option<string>): (v: string)
    ensures s.None? || s.value == "" ==> v == AllSpecialties
    ensures s.Some? && s.value != "" ==> v == s.value
  {
    if s.None? || s.value == "" then AllSpecialties else s.value
  }

  /** The specialty a select value sets. */
  function OnSpecialtyChange(v: string): (r: Option<string>)
    ensures r.None? <==> v == AllSpecialties
    ensures r.Some? ==> r.value == v
  {
    if v == AllSpecialties then None else Some(v)
  }

  /** The sentinel is not a specialty, so every option and "all" round-trip. */
  lemma SpecialtyRoundTrip(s: Option<string>)
    requires s.None? || s.value in SpecialtyOptions
    ensures OnSpecialtyChange(SpecialtyValue(s)) == s
  {
  }

  /** The status select's value. */
  function StatusValue(a: Option<Availability>): (v: string)
    ensures a.None? <==> v == AllStatus
  {
    if a.None? then AllStatus else AvailabilityName(a.value)
  }

  /** The availability a status select value sets. */
  function OnStatusChange(v: string): (r: Option<Availability>)
    ensures v == AllStatus ==> r.None?
    ensures r.Some? ==> AvailabilityName(r.value) == v
  {
    if v == AllStatus then None else ParseAvailability(v)
  }

  /** Every status, and "all", round-trips through the select. */
  lemma StatusRoundTrip(a: Option<Availability>)
    ensures OnStatusChange(StatusValue(a)) == a
  {
  }

  // ---------------------------------------------------------------------
  // Clearing and badges

  /** `clearAllFilters`. */
  function Clear(): (c: Search.Criteria)
    ensures !HasActive(c)
  {
    Search.NoCriteria
  }

  /** `hasActiveFilters`: a specialty, status or range is set, or there is
      search text; an empty specialty string counts as unset. */
  predicate HasActive(c: Search.Criteria) {
    || (c.specialty.Some? && c.specialty.value != "")
    || c.availability.Some?
    || c.priceRange.Some?
    || c.query != ""
  }

  /** While no filter is active the whole catalog is listed, so the clear
      button only appears when it can change the listing's criteria. */
  lemma InactiveListsAll(ducks: seq<Duck>, c: Search.Criteria)
    requires !HasActive(c)
    ensures Search.Filtered(ducks, c) == ducks
  {
    Search.NoCriteriaListsAll(ducks);
    assert forall d :: Search.Matches(d, c);
    Seqs.FilterKeepsAll(ducks, d => Search.Matches(d, c));
  }

  /** Clearing lists the whole catalog. */
  lemma ClearListsAll(ducks: seq<Duck>)
    ensures Search.Filtered(ducks, Clear()) == ducks
  {
    InactiveListsAll(ducks, Clear());
  }

  /** The badge of an active range: the sentinel upper bound shows "80+". */
  function PriceBadge(r: Search.PriceRange): (b: string)
    ensures Text.StartsWith(b, "$" + Text.NatToString(r.lo) + " - $")
    ensures r.hi == Search.Unbounded ==> b == "$" + Text.NatToString(r.lo) + " - $80+"
    ensures r.hi != Search.Unbounded ==> b == "$" + Text.NatToString(r.lo) + " - $" + Text.NatToString(r.hi)
  {
    "$" + Text.NatToString(r.lo) + " - $" + (if r.hi == Search.Unbounded then "80+" else Text.NatToString(r.hi))
  }

  /** Some listed range admits `rate`. */
  predicate Covered(rate: nat) {
    exists i :: 0 <= i < |PriceRanges| && Search.InRange(rate, PriceRanges[i].range)
  }

  /** The listed ranges leave no rate out, and two pairs of them share an
      endpoint: $65 falls in both middle ranges and $80 in the last two. */
  lemma RangesCoverAndOverlap()
    ensures forall rate: nat :: Covered(rate)
    ensures Search.InRange(65, PriceRanges[1].range) && Search.InRange(65, PriceRanges[2].range)
    ensures Search.InRange(80, PriceRanges[2].range) && Search.InRange(80, PriceRanges[3].range)
  {
    forall rate: nat
      ensures Covered(rate)
    {
      if rate < 50 {
        assert Search.InRange(rate, PriceRanges[0].range);
      } else if rate < 65 {
        assert Search.InRange(rate, PriceRanges[1].range);
      } else if rate < 80 {
        assert Search.InRange(rate, PriceRanges[2].range);
      } else {
        assert Search.InRange(rate, PriceRanges[3].range);
      }
    }
  }

  /** Some duck of `ducks` lists specialty `s`. */
  predicate Offered(ducks: seq<Duck>, s: string) {
    exists j :: 0 <= j < |ducks| && s in ducks[j].specialties
  }

  /** Every specialty option matches at least one catalog duck, while the
      catalog's "Math Problems" has no option and is found only by search. */
  lemma SpecialtyOptionsOffered(t: Time)
    ensures forall i :: 0 <= i < |SpecialtyOptions| ==> Offered(Catalog.Ducks(t), SpecialtyOptions[i])
    ensures Offered(Catalog.Ducks(t), "Math Problems") && "Math Problems" !in SpecialtyOptions
  {
    var ds := Catalog.Ducks(t);
    Catalog.EveryEntry(t);
    var s0, s1, s2 := ds[0].specialties, ds[1].specialties, ds[2].specialties;
    var s3, s4, s5 := ds[3].specialties, ds[4].specialties, ds[5].specialties;
    assert s5[1] == "Math Problems";
    forall i | 0 <= i < |SpecialtyOptions|
      ensures Offered(ds, SpecialtyOptions[i])
    {
      var o := SpecialtyOptions[i];
      if i < 3 {
        assert o == s0[i];
      } else if i < 6 {
        assert o == s1[i - 3];
      } else if i == 6 {
        assert o == s2[0];
      } else if i < 10 {
        assert o == s3[i - 7];
      } else if i < 12 {
        assert o == s4[i - 10];
      } else {
        assert o == s5[2];
      }
    }
  }
}

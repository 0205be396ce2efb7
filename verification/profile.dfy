/** The duck profile dialog's three session offers: each lists a price
    that leaves the mood out and books its own session type. */
module Profile {
  import opened Wrappers
  import opened Types
  import Pricing

  /** One offer card: what its button books and the hourly price it lists. */
  datatype Offer = Offer(sessionType: SessionType, description: string, pricePerHour: nat)

  /** The cards in the order the dialog lays them out. */
  const OfferOrder: seq<SessionType> := [Debugging, Career, Existential]

  /** The blurb under each card's title. */
  function Description(t: SessionType): string {
    match t
    case Debugging => "Technical problem solving and code review sessions"
    case Career => "Career guidance, interview prep, and professional development"
    case Existential => "Dealing with imposter syndrome, burnout, and work-life balance"
  }

  /** The card for session type `t`. */
  function OfferFor(d: Duck, t: SessionType): (o: Offer)
    ensures o.sessionType == t
    ensures o.pricePerHour == Pricing.ProfileUnitPrice(d, t)
  {
    Offer(t, Description(t), Pricing.ProfileUnitPrice(d, t))
  }

  /** The dialog's offers; with no duck selected it renders nothing. */
  function Offers(duck: Option<Duck>): (r: Option<seq<Offer>>)
    ensures r.None? <==> duck.None?
    ensures r.Some? ==> |r.value| == 3
    ensures r.Some? ==> forall i :: 0 <= i < 3 ==>
      r.value[i].sessionType == OfferOrder[i] &&
      r.value[i].pricePerHour == Pricing.ProfileUnitPrice(duck.value, OfferOrder[i])
  {
    if duck.None? then None
    else Some(seq(3, i requires 0 <= i < 3 => OfferFor(duck.value, OfferOrder[i])))
  }

  /** Some card in `os` books session type `t`. */
  predicate Offered(os: seq<Offer>, t: SessionType) {
    exists i :: 0 <= i < |os| && os[i].sessionType == t
  }

  /** The three cards book three different session types, one each, and
      the debugging card lists the bare hourly rate. */
  lemma OffersCoverEveryType(d: Duck)
    ensures var os := Offers(Some(d)).value;
      && (forall t :: Offered(os, t))
      && os[0].pricePerHour == d.hourlyRate
  {
    var os := Offers(Some(d)).value;
    forall t ensures Offered(os, t) {
      match t
      case Debugging => assert os[0].sessionType == t;
      case Career => assert os[1].sessionType == t;
      case Existential => assert os[2].sessionType == t;
    }
    Pricing.DebuggingListPriceIsRate(d);
  }
}

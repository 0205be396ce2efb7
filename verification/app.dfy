/** The marketplace page: which duck is selected, which dialog is open,
    the active tab and filters, and the persisted list of booked sessions,
    together with the handlers that change them. Notifications are not
    modelled, and new session ids are inputs. */
module Marketplace {
  import opened Wrappers
  import opened Types
  import Search
  import Booking
  import Profile
  import Card
  import Dashboard
  import Pricing
  import MoodSystem
  import Random
  import Catalog

  datatype Tab = MarketplaceTab | SessionsTab

  datatype Page = Page(
    sessions: seq<Session>,
    selectedDuck: Option<Duck>,
    showProfile: bool,
    showBooking: bool,
    bookingType: Option<SessionType>,
    activeTab: Tab,
    criteria: Search.Criteria)

  /** The page as it opens over the stored sessions. */
  function Opened(stored: seq<Session>): (p: Page)
    ensures p.sessions == stored && p.activeTab == MarketplaceTab
    ensures p.selectedDuck.None? && !p.showProfile && !p.showBooking
    ensures p.criteria == Search.NoCriteria
  {
    Page(stored, None, false, false, None, MarketplaceTab, Search.NoCriteria)
  }

  /** The ducks the marketplace lists under the page's filters. */
  function Listed(p: Page, catalog: seq<Duck>): (r: seq<Duck>)
    ensures forall i :: 0 <= i < |r| ==> r[i] in catalog && Search.Matches(r[i], p.criteria)
  {
    Search.Filtered(catalog, p.criteria)
  }

  /** The cards of the marketplace tab from their renders: no cards when one
      render throws, otherwise the cards in order. `App` has no error
      boundary, so a throw actually takes down the whole page; this function
      records only the tab's share of that. */
  function ShowAll(rs: seq<Card.Rendering>): (r: Option<seq<Card.CardView>>)
    ensures r.Some? <==> forall i :: 0 <= i < |rs| ==> rs[i].Shown?
    ensures r.Some? ==> |r.value| == |rs| && forall i :: 0 <= i < |rs| ==> r.value[i] == rs[i].view
    decreases |rs|
  {
    if rs == [] then Some([])
    else if rs[0].Threw? then None
    else
      var rest := ShowAll(rs[1..]);
      assert rest.None? ==> exists i :: 0 <= i < |rs[1..]| && rs[1..][i].Threw?;
      if rest.None? then None else Some([rs[0].view] + rest.value)
  }

  /** The marketplace tab as written: every card render throws, so there
      are cards only when no duck is listed. As written the throw unmounts
      the whole page on first load, so the empty listing, which needs a
      search or filter typed into a rendered page, is never reached; the
      model keeps only the tab's part of the failure. */
  function CardsAsWritten(p: Page, catalog: seq<Duck>): (r: Option<seq<Card.CardView>>)
    ensures r.Some? <==> Listed(p, catalog) == []
  {
    var ds := Listed(p, catalog);
    var rs := seq(|ds|, i requires 0 <= i < |ds| => Card.RenderAsWritten(ds[i]));
    assert ds != [] ==> rs[0].Threw?;
    ShowAll(rs)
  }

  /** The marketplace tab as intended: one card per listed duck, in order,
      each showing its duck's mood price and booking state. */
  function Cards(p: Page, catalog: seq<Duck>): (r: seq<Card.CardView>)
    ensures var ds := Listed(p, catalog);
      && |r| == |ds|
      && forall i :: 0 <= i < |r| ==>
           && r[i].price == Pricing.BookingUnitPrice(ds[i], Debugging)
           && (r[i].bookEnabled <==> ds[i].availability == Available)
  {
    var ds := Listed(p, catalog);
    seq(|ds|, i requires 0 <= i < |ds| => Card.View(ds[i]))
  }

  /** As written, the page opened over the catalog shows no card at all:
      all six ducks are listed and the first card's render throws, which
      takes the rest of the page with it. */
  lemma OpeningTabThrows(loadedAt: Time, stored: seq<Session>)
    ensures CardsAsWritten(Opened(stored), Catalog.Ducks(loadedAt)).None?
  {
    Search.NoCriteriaListsAll(Catalog.Ducks(loadedAt));
  }

  /** As intended, the page opened over the catalog shows all six cards. */
  lemma OpeningTabShowsEveryDuck(loadedAt: Time, stored: seq<Session>)
    ensures |Cards(Opened(stored), Catalog.Ducks(loadedAt))| == 6
  {
    Search.NoCriteriaListsAll(Catalog.Ducks(loadedAt));
  }

  /** `handleDuckSelect`: the duck is selected and its profile opens. */
  function SelectDuck(p: Page, d: Duck): (r: Page)
    ensures r.selectedDuck == Some(d) && r.showProfile
    ensures r.sessions == p.sessions && r.showBooking == p.showBooking
    ensures r.bookingType == p.bookingType && r.activeTab == p.activeTab && r.criteria == p.criteria
  {
    p.(selectedDuck := Some(d), showProfile := true)
  }

  /** `handleBookSession`: a duck that is not available is refused and the
      page is left as it was; otherwise the duck and session type are
      recorded, the profile closes and the booking dialog opens. */
  function BookSession(p: Page, d: Duck, t: SessionType): (r: Page)
    ensures d.availability != Available ==> r == p
    ensures d.availability == Available ==>
      && r.selectedDuck == Some(d) && r.bookingType == Some(t)
      && !r.showProfile && r.showBooking
      && r.sessions == p.sessions && r.activeTab == p.activeTab && r.criteria == p.criteria
  {
    if d.availability != Available then p
    else p.(selectedDuck := Some(d), bookingType := Some(t), showProfile := false, showBooking := true)
  }

  /** A button on the selected duck's profile: offer card `i` books its
      own session type. Without a selected duck the profile shows nothing. */
  function ProfileBook(p: Page, i: nat): (r: Page)
    requires i < |Profile.OfferOrder|
    ensures p.selectedDuck.None? ==> r == p
    ensures p.selectedDuck.Some? && p.selectedDuck.value.availability != Available ==> r == p
    ensures p.selectedDuck.Some? && p.selectedDuck.value.availability == Available ==>
      && r.bookingType == Some(Profile.OfferOrder[i]) && r.showBooking && !r.showProfile
      && r.selectedDuck == p.selectedDuck && r.sessions == p.sessions
  {
    match Profile.Offers(p.selectedDuck)
    case None => p
    case Some(offers) => BookSession(p, p.selectedDuck.value, offers[i].sessionType)
  }

  /** A click on a marketplace card. The card's book button has no handler
      of its own, so a click on it, enabled or not, reaches the card's
      handler: the profile opens, and booking goes through its offers. */
  function CardClick(p: Page, d: Duck, onBookButton: bool): (r: Page)
    ensures r.selectedDuck == Some(d) && r.showProfile
    ensures r.showBooking == p.showBooking && r.bookingType == p.bookingType
    ensures r.sessions == p.sessions && r.activeTab == p.activeTab && r.criteria == p.criteria
  {
    SelectDuck(p, d)
  }

  /** The card's book button does not book: pressing it does what a click
      elsewhere on the card does, for available and unavailable ducks. */
  lemma BookButtonOpensProfile(p: Page, d: Duck)
    ensures CardClick(p, d, true) == CardClick(p, d, false)
    ensures !p.showBooking ==> !CardClick(p, d, true).showBooking
  {
  }

  /** The session a confirmed booking request becomes. */
  function NewSession(q: Booking.BookingRequest, id: string): (s: Session)
    ensures s.id == id && s.duckId == q.duckId && s.duckName == q.duckName
    ensures s.sessionType == q.sessionType && s.duration == q.duration && s.cost == q.cost
    ensures s.status == Upcoming && s.notes == Some(q.description) && s.chatHistory.None?
    ensures s.date == q.date + "T" + q.time + ":00"
  {
    Session(id, q.duckId, q.duckName, q.sessionType, q.date + "T" + q.time + ":00",
      q.duration, Upcoming, Some(q.description), q.cost, None)
  }

  /** `handleBookingConfirm`: one upcoming session is added at the end of
      the list, the dialog closes, the selection clears and the sessions
      tab opens. */
  function ConfirmBooking(p: Page, q: Booking.BookingRequest, id: string): (r: Page)
    ensures |r.sessions| == |p.sessions| + 1 && r.sessions[..|p.sessions|] == p.sessions
    ensures r.sessions[|p.sessions|] == NewSession(q, id)
    ensures !r.showBooking && r.bookingType.None? && r.selectedDuck.None?
    ensures r.activeTab == SessionsTab && r.criteria == p.criteria && r.showProfile == p.showProfile
  {
    p.(sessions := p.sessions + [NewSession(q, id)], showBooking := false, bookingType := None,
      selectedDuck := None, activeTab := SessionsTab)
  }

  /** `handleJoinSession` only announces the session: the page, and so the
      session list, stays as it was. */
  function JoinSession(p: Page, s: Session): (r: Page)
    ensures r.sessions == p.sessions && r == p
  {
    p
  }

  /** From a card to the dashboard: booking an available duck, filling in
      the form and confirming adds one upcoming session at the end of the
      list, charged the mood price for the chosen hours, and it appears at
      the end of the upcoming tab. */
  lemma BookingFlow(p: Page, d: Duck, t: SessionType, f: Booking.BookingForm, id: string)
    requires d.availability == Available && Booking.Ready(f)
    ensures var p1 := BookSession(p, d, t);
      var out := Booking.Submit(p1.selectedDuck.value, p1.bookingType.value, f);
      out.request.Some? &&
      var p2 := ConfirmBooking(p1, out.request.value, id);
      var s := p2.sessions[|p.sessions|];
      && p2.sessions == p.sessions + [s]
      && s.duckId == d.id && s.sessionType == t && s.status == Upcoming
      && s.cost == Pricing.TotalCost(d, t, Booking.Hours(f.duration))
      && Dashboard.WithStatus(p2.sessions, Upcoming) == Dashboard.WithStatus(p.sessions, Upcoming) + [s]
  {
    var p1 := BookSession(p, d, t);
    var out := Booking.Submit(d, t, f);
    var p2 := ConfirmBooking(p1, out.request.value, id);
    var s := p2.sessions[|p.sessions|];
    assert p2.sessions == p.sessions + [s];
    Dashboard.AppendLandsLast(p.sessions, s);
  }

  /** Asking to book a duck that is not available adds no session and
      opens no booking dialog. */
  lemma UnavailableNeverBooked(p: Page, d: Duck, t: SessionType)
    requires d.availability != Available && !p.showBooking
    ensures BookSession(p, d, t).sessions == p.sessions
    ensures !BookSession(p, d, t).showBooking
  {
  }

  /** The card badge and the booking dialog's note agree on whether a
      duck's mood price is a discount, a premium, or neither. */
  lemma PriceSignalsAgree(m: nat)
    ensures Card.PriceBadge(m) == Some("Discount!") <==> Booking.PriceNote(m) == Some("Discount applied!")
    ensures Card.PriceBadge(m) == Some("Premium") <==> Booking.PriceNote(m) == Some("Premium pricing")
    ensures Card.PriceBadge(m).None? <==> Booking.PriceNote(m).None?
  {
  }

  /** A mood update never changes which ducks the marketplace lists: the
      listing before and after holds the same ducks, moods aside. */
  lemma MoodUpdateKeepsListing(p: Page, s: MoodSystem.MoodState, now: Time, draws: seq<Random.Draw>)
    requires |draws| == |s.ducks|
    ensures var after := MoodSystem.UpdateMoods(s, now, draws).ducks;
      && |Listed(p, after)| == |Listed(p, s.ducks)|
      && forall i :: 0 <= i < |Listed(p, after)| ==>
        Listed(p, after)[i] == Listed(p, s.ducks)[i].(mood := Listed(p, after)[i].mood)
  {
    var after := MoodSystem.UpdateMoods(s, now, draws).ducks;
    assert |after| == |s.ducks|;
    forall i | 0 <= i < |s.ducks|
      ensures after[i] == s.ducks[i].(mood := after[i].mood)
    {
    }
    Search.FilterIgnoresMoods(s.ducks, after, p.criteria);
  }
}

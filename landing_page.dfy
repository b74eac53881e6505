/** The landing page's mode selection: the three mode cards and the consent
    gate in front of them. Selecting a mode yields the match-context action
    and the route the page navigates to. */
module LandingPage {
  import opened Common
  import MatchContext

  /** A mode card: the mode it selects and the route it opens. */
  datatype Card = Card(id: MatchContext.Mode, path: string)

  const MODE_CARDS: seq<Card> := [
    Card(MatchContext.SoloMode, "/solo"),
    Card(MatchContext.DuoMode, "/room"),
    Card(MatchContext.GroupMode, "/room")]

  /** The solo card opens the solo page; both multiplayer cards open the room
      page; the primary call to action is the first (solo) card. */
  lemma CardTable()
    ensures |MODE_CARDS| == 3
    ensures forall i :: 0 <= i < |MODE_CARDS| ==>
              (MODE_CARDS[i].path == "/solo" <==> MODE_CARDS[i].id == MatchContext.SoloMode)
    ensures forall i :: 0 <= i < |MODE_CARDS| ==>
              (MODE_CARDS[i].path == "/room" <==> MODE_CARDS[i].id != MatchContext.SoloMode)
    ensures MODE_CARDS[0] == Card(MatchContext.SoloMode, "/solo")
  {
  }

  /** What a selection does: set the mode in the match context, then go to
      the card's route. */
  datatype Selection = Selection(action: MatchContext.Action, navigate: string)

  class LandingPage {
    var showConsent: bool
    var pendingMode: Option<Card>

    constructor ()
      ensures !showConsent && pendingMode.None?
    {
      showConsent := false;
      pendingMode := None;
    }

    /** `handleSelect`: without consent the card is remembered and the modal
        opens, and nothing else happens; with consent the card's mode is set
        and its route opened. */
    method HandleSelect(card: Card, consented: bool) returns (sel: Option<Selection>)
      modifies this
      ensures !consented ==> sel.None? && pendingMode == Some(card) && showConsent
      ensures consented ==> sel == Some(Selection(MatchContext.SetMode(card.id), card.path))
                            && pendingMode == old(pendingMode) && showConsent == old(showConsent)
    {
      if !consented {
        pendingMode := Some(card);
        showConsent := true;
        return None;
      }
      sel := Some(Selection(MatchContext.SetMode(card.id), card.path));
    }

    /** `handleConsented`: the modal closes and a remembered card, if any, is
        followed. The remembered card is kept. */
    method HandleConsented() returns (sel: Option<Selection>)
      modifies this
      ensures !showConsent && pendingMode == old(pendingMode)
      ensures old(pendingMode).None? ==> sel.None?
      ensures old(pendingMode).Some? ==>
                sel == Some(Selection(MatchContext.SetMode(old(pendingMode).value.id), old(pendingMode).value.path))
    {
      showConsent := false;
      if pendingMode.Some? {
        sel := Some(Selection(MatchContext.SetMode(pendingMode.value.id), pendingMode.value.path));
      } else {
        sel := None;
      }
    }
  }

  /** Selecting a card without consent and then consenting ends where
      selecting it with consent would: the same mode and the same route. */
  method ConsentThenSelect(card: Card) returns (deferred: Option<Selection>, direct: Option<Selection>)
    ensures deferred == direct && deferred.Some?
  {
    var page := new LandingPage();
    var none := page.HandleSelect(card, false);
    deferred := page.HandleConsented();
    var other := new LandingPage();
    direct := other.HandleSelect(card, true);
  }
}

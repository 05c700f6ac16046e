/** The current home screen: the catalog shown as a deck of cards, unlocked
    for the cards the user owns, and the scan-to-unlock flow. A scanned
    place is recorded as owned in the user's document, after which the
    possession list is fetched again. The identity service and the document
    store are inputs: the current user as the identity service reports it,
    and the store's answers to fetches; writes to the store are recorded. */
module HomeScreen {
  import opened Common
  import opened Ownership

  /** A call of the store's `updateUserCardPossession(userId:cardId:)`. */
  datatype PossessionWrite = PossessionWrite(userId: string, cardId: string)

  /** What the store's `getUserTagData` completion receives. */
  datatype TagResponse = TagResponse(cards: seq<string>, error: Option<Error>)

  /** The reaction of the scan callback to one `(data, error)` pair: the
      alert titles it requests, in order, the possession write it makes, and
      whether it fetches the possession list again. */
  datatype ScanReaction = ScanReaction(alerts: seq<string>, write: Option<PossessionWrite>, refetch: bool)

  /** The handler the view model installs as the NFC manager's callback. An
      error raises an alert with its description and processing goes on;
      missing data raises "No data found"; data without a signed-in user
      raises "User not found"; otherwise the scanned card is written to the
      user's possessions and the possession list is fetched again. */
  function ReactToCardData(data: Option<Place>, error: Option<Error>, user: Option<AuthUser>): (r: ScanReaction)
    ensures r.write.Some? <==> data.Some? && user.Some?
    ensures r.write.Some? ==> r.write == Some(PossessionWrite(user.value.uid, data.value.id))
    ensures r.refetch <==> r.write.Some?
    ensures error.Some? ==> |r.alerts| > 0 && r.alerts[0] == LocalizedDescription(error.value)
    ensures data.Some? && user.Some? ==> r.alerts == (if error.Some? then [LocalizedDescription(error.value)] else [])
    ensures data.None? ==> r.alerts == (if error.Some? then [LocalizedDescription(error.value)] else []) + [NoDataFound]
    ensures data.Some? && user.None? ==>
      r.alerts == (if error.Some? then [LocalizedDescription(error.value)] else []) + [UserNotFound]
  {
    var errorAlerts := if error.Some? then [LocalizedDescription(error.value)] else [];
    if data.None? then ScanReaction(errorAlerts + [NoDataFound], None, false)
    else if user.None? then ScanReaction(errorAlerts + [UserNotFound], None, false)
    else ScanReaction(errorAlerts, Some(PossessionWrite(user.value.uid, data.value.id)), true)
  }

  /** The reaction of `getUserTagFromFirestore`: the alerts it requests,
      whether it fetches (for which uid), and the possession list after it. */
  datatype FetchReaction = FetchReaction(alerts: seq<string>, fetchedFor: Option<string>, cardsId: seq<string>)

  /** With no signed-in user: "User not found", no fetch, the possession list
      kept. Otherwise the fetched list replaces it, even when the fetch also
      reports an error, whose description is then alerted. */
  function ReactToTagFetch(user: Option<AuthUser>, response: TagResponse, cardsId: seq<string>): (r: FetchReaction)
    ensures user.None? ==> r == FetchReaction([UserNotFound], None, cardsId)
    ensures user.Some? ==> r.fetchedFor == Some(user.value.uid) && r.cardsId == response.cards
    ensures user.Some? ==>
      r.alerts == if response.error.Some? then [LocalizedDescription(response.error.value)] else []
  {
    match user
    case None => FetchReaction([UserNotFound], None, cardsId)
    case Some(u) =>
      var alerts := if response.error.Some? then [LocalizedDescription(response.error.value)] else [];
      FetchReaction(alerts, Some(u.uid), response.cards)
  }

  datatype Tint = Black | Gray

  /** What a card shows in its image slot: the lock image, its first photo,
      or, for an owned card without photos, the index trap of `images[0]`. */
  datatype Artwork = LockImage | Photo(url: string) | MissingPhoto

  datatype CardLook = CardLook(tint: Tint, enabled: bool, artwork: Artwork)

  /** How a catalog card is drawn: an owned card is black, can be tapped and
      shows its first photo; a card not owned is grey, disabled and shows the
      lock. */
  function CardLookFor(card: Place, possessed: seq<string>): (look: CardLook)
    ensures look.enabled <==> card.id in possessed
    ensures look.tint == Black <==> card.id in possessed
    ensures look.artwork == LockImage <==> card.id !in possessed
    ensures look.artwork.Photo? <==> card.id in possessed && |card.images| > 0
    ensures look.artwork.Photo? ==> look.artwork.url == card.images[0]
  {
    if !Owns(possessed, card) then CardLook(Gray, false, LockImage)
    else if |card.images| == 0 then CardLook(Black, true, MissingPhoto)
    else CardLook(Black, true, Photo(card.images[0]))
  }

  class HomeViewModel {
    var cards: seq<Place>
    var showAlert: bool
    var alertTitle: string
    var userCardsId: seq<string>
    var userData: Option<AuthUser>
    /** Every `updateUserCardPossession` call made so far. */
    var possessionWrites: seq<PossessionWrite>
    /** The uid of every possession-list fetch issued so far. */
    var tagFetches: seq<string>

    /** `init`: the catalog is the loaded one, or empty when loading gives
        nothing. The initial possession fetch it starts is a separate
        `GetUserTagFromFirestore` event. */
    constructor (loaded: Option<seq<Place>>)
      ensures cards == (if loaded.Some? then loaded.value else [])
      ensures !showAlert && alertTitle == "" && userCardsId == [] && userData == None
      ensures possessionWrites == [] && tagFetches == []
    {
      cards := loaded.GetOr([]);
      showAlert := false;
      alertTitle := "";
      userCardsId := [];
      userData := None;
      possessionWrites := [];
      tagFetches := [];
    }

    /** `showAlertTitle`. */
    method ShowAlertTitle(title: string)
      modifies this`showAlert, this`alertTitle
      ensures showAlert && alertTitle == title
    {
      showAlert := true;
      alertTitle := title;
    }

    /** `getUserData`: the identity service's snapshot of the current user. */
    method GetUserData(user: Option<AuthUser>)
      modifies this`userData
      ensures userData == user
    {
      userData := user;
    }

    /** `getUserTagFromFirestore`, with the store's answer. */
    method GetUserTagFromFirestore(user: Option<AuthUser>, response: TagResponse)
      modifies this`showAlert, this`alertTitle, this`userCardsId, this`tagFetches
      ensures var r := ReactToTagFetch(user, response, old(userCardsId));
        && userCardsId == r.cardsId
        && showAlert == ShownAfter(old(showAlert), r.alerts)
        && alertTitle == TitleAfter(old(alertTitle), r.alerts)
        && tagFetches == old(tagFetches) + (if r.fetchedFor.Some? then [r.fetchedFor.value] else [])
    {
      if user.None? {
        ShowAlertTitle(UserNotFound);
        return;
      }
      tagFetches := tagFetches + [user.value.uid];
      if response.error.Some? {
        ShowAlertTitle(LocalizedDescription(response.error.value));
      }
      userCardsId := response.cards;
    }

    /** The NFC callback for one `(data, error)` pair; `refetched` is the
        store's answer to the possession fetch the callback starts. */
    method OnCardDataUpdate(data: Option<Place>, error: Option<Error>, user: Option<AuthUser>, refetched: TagResponse)
      modifies this`showAlert, this`alertTitle, this`userCardsId, this`tagFetches, this`possessionWrites
      ensures var r := ReactToCardData(data, error, user);
        && possessionWrites == old(possessionWrites) + (if r.write.Some? then [r.write.value] else [])
        && (!r.refetch ==>
              && showAlert == ShownAfter(old(showAlert), r.alerts)
              && alertTitle == TitleAfter(old(alertTitle), r.alerts)
              && userCardsId == old(userCardsId) && tagFetches == old(tagFetches))
        && (r.refetch ==> var f := ReactToTagFetch(user, refetched, old(userCardsId));
              && showAlert == ShownAfter(old(showAlert), r.alerts + f.alerts)
              && alertTitle == TitleAfter(old(alertTitle), r.alerts + f.alerts)
              && userCardsId == f.cardsId
              && tagFetches == old(tagFetches) + [f.fetchedFor.value])
    {
      if error.Some? {
        ShowAlertTitle(LocalizedDescription(error.value));
      }
      if data.None? {
        ShowAlertTitle(NoDataFound);
        return;
      }
      if user.None? {
        ShowAlertTitle(UserNotFound);
        return;
      }
      possessionWrites := possessionWrites + [PossessionWrite(user.value.uid, data.value.id)];
      GetUserTagFromFirestore(user, refetched);
    }

    /** `checkUserHasTag` on this view model's possession list: for a card
        of the deck, it holds exactly when the card is among the deck's owned
        cards, and it is what unlocks the card's look. */
    function CheckUserHasTag(card: Place): (owned: bool)
      reads this
      ensures card in cards ==> (owned <==> card in Owned(cards, userCardsId))
      ensures owned <==> CardLookFor(card, userCardsId).enabled
      ensures owned <==> CardLookFor(card, userCardsId).artwork != LockImage
    {
      Owns(userCardsId, card)
    }
  }
}

/** The earlier home screen: a scanned tag's payload is shown as a card. It
    has no user, store or catalog: the callback only raises alerts and
    replaces the shown payload. */
module LegacyHomeScreen {
  import opened Common
  import opened Ndef

  /** The reaction of the callback to one `(data, error)` pair: the alert
      titles it requests, in order, and the payload shown afterwards. */
  datatype Reaction = Reaction(alerts: seq<string>, nfcData: Option<TagPayload>)

  /** An error raises an alert with its description; missing data then
      raises "No data found" and keeps the payload shown; data replaces it. */
  function ReactToCardData(data: Option<TagPayload>, error: Option<Error>, shown: Option<TagPayload>): (r: Reaction)
    ensures data.Some? ==> r.nfcData == data
    ensures data.None? ==> r.nfcData == shown
    ensures error.Some? ==> |r.alerts| > 0 && r.alerts[0] == LocalizedDescription(error.value)
    ensures data.None? ==> |r.alerts| > 0 && Last(r.alerts) == NoDataFound
    ensures r.alerts == [] <==> error.None? && data.Some?
    ensures r.alerts == (if error.Some? then [LocalizedDescription(error.value)] else [])
                        + (if data.None? then [NoDataFound] else [])
    ensures |r.alerts| <= 2
  {
    var errorAlerts := if error.Some? then [LocalizedDescription(error.value)] else [];
    if data.None? then Reaction(errorAlerts + [NoDataFound], shown)
    else Reaction(errorAlerts, data)
  }

  /** The screen's state as the callbacks leave it. */
  datatype Screen = Screen(nfcData: Option<TagPayload>, showAlert: bool, alertTitle: string)

  /** A run of callbacks applied in order. */
  function Replay(deliveries: seq<Delivery<TagPayload>>, s: Screen): Screen
    decreases |deliveries|
  {
    if deliveries == [] then s
    else
      var r := ReactToCardData(deliveries[0].data, deliveries[0].error, s.nfcData);
      Replay(deliveries[1..], Screen(r.nfcData, ShownAfter(s.showAlert, r.alerts), TitleAfter(s.alertTitle, r.alerts)))
  }

  /** A tag read in this version always ends in an alert: the session ends
      itself after the first read and its invalidation reaches the callback
      as `(nil, error)`, so after a successful read of payload `p` the card
      for `p` is shown under a "No data found" alert. */
  lemma {:induction false} ReadThenInvalidationAlerts(p: TagPayload, e: Error, s: Screen)
    ensures var after := Replay([Delivery(Some(p), None), Delivery(None, Some(e))], s);
      after.nfcData == Some(p) && after.showAlert && after.alertTitle == NoDataFound
  {
    var ds := [Delivery(Some(p), None), Delivery(None, Some(e))];
    var r1 := ReactToCardData(Some(p), None, s.nfcData);
    var s1 := Screen(r1.nfcData, ShownAfter(s.showAlert, r1.alerts), TitleAfter(s.alertTitle, r1.alerts));
    assert ds[1..] == [Delivery(None, Some(e))];
    assert Replay(ds, s) == Replay(ds[1..], s1);
    var r2 := ReactToCardData(None, Some(e), s1.nfcData);
    assert ds[1..][1..] == [];
    assert Replay(ds[1..], s1) == Screen(r2.nfcData, ShownAfter(s1.showAlert, r2.alerts), TitleAfter(s1.alertTitle, r2.alerts));
  }

  class HomeViewModel {
    var nfcData: Option<TagPayload>
    var showAlert: bool
    var alertTitle: string

    constructor ()
      ensures nfcData == None && !showAlert && alertTitle == ""
    {
      nfcData := None;
      showAlert := false;
      alertTitle := "";
    }

    /** `showAlertTitle`. */
    method ShowAlertTitle(title: string)
      modifies this`showAlert, this`alertTitle
      ensures showAlert && alertTitle == title
    {
      showAlert := true;
      alertTitle := title;
    }

    /** The handler installed as the NFC manager's callback. */
    method OnCardDataUpdate(data: Option<TagPayload>, error: Option<Error>)
      modifies this
      ensures var r := ReactToCardData(data, error, old(nfcData));
        && nfcData == r.nfcData
        && showAlert == ShownAfter(old(showAlert), r.alerts)
        && alertTitle == TitleAfter(old(alertTitle), r.alerts)
    {
      if error.Some? {
        ShowAlertTitle(LocalizedDescription(error.value));
      }
      if data.None? {
        ShowAlertTitle(NoDataFound);
        return;
      }
      nfcData := data;
    }
  }
}

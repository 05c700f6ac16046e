/** The scan-to-unlock flow end to end: what one detected NDEF message does
    to the user's possessions, composing the record loop, each version's
    decoder and each version's home-screen callback. */
module ScanToUnlock {
  import opened Common
  import opened Ndef
  import NfcManager
  import LegacyNfcManager
  import HomeScreen
  import LegacyHomeScreen

  /** The home screen's reaction to the callback the current manager makes
      for one message. */
  function ScanOutcome(message: NdefMessage, json: seq<byte> -> Result<Place>, user: Option<AuthUser>): HomeScreen.ScanReaction {
    var d := Report(Processed(message, NfcManager.Decoder(json)));
    HomeScreen.ReactToCardData(d.data, d.error, user)
  }

  /** A scan records a possession exactly when a user is signed in, the
      message has records, all of them are media records and the last one's
      payload decodes to a place; the place recorded is that one, for that
      user, and the possession list is then fetched again. */
  lemma ScanUnlocksLastPlace(message: NdefMessage, json: seq<byte> -> Result<Place>, user: Option<AuthUser>)
    ensures var rs := message.records;
      ScanOutcome(message, json, user).write.Some? <==>
        && user.Some? && rs != []
        && (forall i :: 0 <= i < |rs| ==> rs[i].typeNameFormat == Media)
        && json(Last(rs).payload).Success?
    ensures var rs := message.records;
      ScanOutcome(message, json, user).write.Some? ==>
        && ScanOutcome(message, json, user).write.value
             == HomeScreen.PossessionWrite(user.value.uid, json(Last(rs).payload).value.id)
        && ScanOutcome(message, json, user).refetch
        && ScanOutcome(message, json, user).alerts == []
  {
    NfcManager.MessageOutcome(message, json);
  }

  /** A well-formed message whose last payload is not a place raises only
      "No data found": the decoding failure is swallowed, so no error alert
      precedes it, and nothing is recorded. */
  lemma MalformedPayloadOnlyNoData(message: NdefMessage, json: seq<byte> -> Result<Place>, user: Option<AuthUser>)
    requires message.records != []
    requires forall i :: 0 <= i < |message.records| ==> message.records[i].typeNameFormat == Media
    requires json(Last(message.records).payload).Failure?
    ensures ScanOutcome(message, json, user) == HomeScreen.ScanReaction([NoDataFound], None, false)
  {
    NfcManager.MessageOutcome(message, json);
  }

  /** A message with a record that is not a media record raises the bridged
      description of `RecordTypeNotSupported` followed by "No data found",
      and records nothing. */
  lemma ForeignRecordRaisesTwoAlerts(message: NdefMessage, json: seq<byte> -> Result<Place>, user: Option<AuthUser>, k: nat)
    requires k < |message.records| && message.records[k].typeNameFormat != Media
    ensures ScanOutcome(message, json, user) == HomeScreen.ScanReaction(
      [LocalizedDescription(NfcError(RecordTypeNotSupported)), NoDataFound], None, false)
  {
    NfcManager.MessageOutcome(message, json);
  }

  /** The earlier screen's reaction to the callback the earlier manager makes
      for one message. */
  function LegacyScanOutcome(message: NdefMessage, json: seq<byte> -> Result<TagPayload>, shown: Option<TagPayload>): LegacyHomeScreen.Reaction {
    var d := Report(Processed(message, LegacyNfcManager.Decoder(json)));
    LegacyHomeScreen.ReactToCardData(d.data, d.error, shown)
  }

  /** In the earlier version a malformed payload is reported: the decoder's
      error is alerted, then "No data found", and the card shown stays. A
      readable non-empty message replaces the card shown with its last
      payload, with no alert. */
  lemma LegacyScanOutcomes(message: NdefMessage, json: seq<byte> -> Result<TagPayload>, shown: Option<TagPayload>)
    ensures var rs := message.records;
      rs != [] && (forall i :: 0 <= i < |rs| ==> LegacyNfcManager.Readable(rs[i], json)) ==>
        LegacyScanOutcome(message, json, shown) == LegacyHomeScreen.Reaction([], Some(json(Last(rs).payload).value))
    ensures var rs := message.records;
      forall k :: 0 <= k < |rs| && rs[k].typeNameFormat == Media && json(rs[k].payload).Failure?
                  && (forall i :: 0 <= i < k ==> LegacyNfcManager.Readable(rs[i], json)) ==>
        LegacyScanOutcome(message, json, shown)
          == LegacyHomeScreen.Reaction([LocalizedDescription(json(rs[k].payload).error), NoDataFound], shown)
  {
    LegacyNfcManager.MessageOutcome(message, json);
  }
}

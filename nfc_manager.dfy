/** The current NFC manager: it decodes each detected message into a
    catalog place and hands `(data, nil)` or `(nil, error)` to its callback.
    A payload that is not valid JSON for a place is not an error here: the
    decoder catches every decoding failure and yields no value, so such a
    tag reaches the callback as `(nil, nil)`. Session invalidation is only
    logged. */
module NfcManager {
  import opened Common
  import opened Ndef

  /** `decodeRecordToNFCData`: `json` is the platform JSON decoder for the
      place shape (ISO-8601 dates), as a function from bytes to a place or
      the error it throws. Every failure is caught and becomes no value, so
      this decoder never throws. */
  function DecodeRecordToNfcData(json: seq<byte> -> Result<Place>, payload: seq<byte>): (r: Result<Option<Place>>)
    ensures r.Success?
    ensures r.value.Some? <==> json(payload).Success?
    ensures r.value.Some? ==> r.value.value == json(payload).value
  {
    match json(payload)
    case Success(place) => Success(Some(place))
    case Failure(_) => Success(None)
  }

  /** The record decoder this version passes to the record loop. */
  function Decoder(json: seq<byte> -> Result<Place>): RecordDecoder<Place> {
    payload => DecodeRecordToNfcData(json, payload)
  }

  /** What one message yields in this version: it fails, with the error case
      `RecordTypeNotSupported`, exactly when some record is not a media record, even
      when earlier records decoded; otherwise its value is the decoding of
      its last record (nothing for an empty message, nothing for a malformed
      last payload), whatever earlier records decoded to. */
  lemma MessageOutcome(message: NdefMessage, json: seq<byte> -> Result<Place>)
    ensures var rs := message.records;
      Processed(message, Decoder(json)).Failure? <==> exists i :: 0 <= i < |rs| && rs[i].typeNameFormat != Media
    ensures Processed(message, Decoder(json)).Failure? ==>
      Processed(message, Decoder(json)).error == NfcError(RecordTypeNotSupported)
    ensures var rs := message.records;
      Processed(message, Decoder(json)).Success? ==>
        Processed(message, Decoder(json)).value
          == if rs == [] || json(Last(rs).payload).Failure? then None else Some(json(Last(rs).payload).value)
  {
    var rs := message.records;
    var decode := Decoder(json);
    ProcessedCharacterization(message, decode);
    assert forall i :: 0 <= i < |rs| ==> (Stops(rs[i], decode) <==> rs[i].typeNameFormat != Media);
    if exists i :: 0 <= i < |rs| && rs[i].typeNameFormat != Media {
      var k := FirstStop(rs, decode);
      assert StopError(rs[k], decode) == NfcError(RecordTypeNotSupported);
    }
  }

  class NfcManager {
    /** Whether `onCardDataUpdate` is set. */
    var hasCallback: bool
    var readerSession: Option<ReaderSession>
    /** Every call of `onCardDataUpdate` so far, in order. */
    var delivered: seq<Delivery<Place>>
    /** How many sessions `scan` has begun. */
    var sessionsBegun: nat

    constructor ()
      ensures !hasCallback && readerSession == None && delivered == [] && sessionsBegun == 0
    {
      hasCallback := false;
      readerSession := None;
      delivered := [];
      sessionsBegun := 0;
    }

    /** A view model installs its handler as `onCardDataUpdate`. */
    method SetCallback()
      modifies this`hasCallback
      ensures hasCallback
    {
      hasCallback := true;
    }

    /** `readerSession(_:didInvalidateWithError:)`: the error is only
        logged; the callback is not called. */
    method DidInvalidateWithError(error: Error)
      ensures unchanged(this)
    {
    }

    /** `readerSession(_:didDetectNDEFs:)`: one callback per message, in
        message order, when a callback is set. */
    method DidDetectNdefs(messages: seq<NdefMessage>, json: seq<byte> -> Result<Place>)
      modifies this`delivered
      ensures delivered == old(delivered) + (if hasCallback then Deliveries(messages, Decoder(json)) else [])
    {
      var decode := Decoder(json);
      var i := 0;
      while i < |messages|
        invariant 0 <= i <= |messages|
        invariant delivered == old(delivered) + (if hasCallback then Deliveries(messages[..i], decode) else [])
      {
        var result := ProcessNdefMessage(messages[i], decode);
        if hasCallback {
          delivered := delivered + [Report(result)];
        }
        assert Deliveries(messages[..i + 1], decode) == Deliveries(messages[..i], decode) + [Report(result)];
        i := i + 1;
      }
      assert messages[..i] == messages;
    }

    /** `scan`: nothing happens when the device cannot read tags; otherwise a
        new session that ends after the first read replaces the old one and
        begins. */
    method Scan(readingAvailable: bool)
      modifies this`readerSession, this`sessionsBegun
      ensures !readingAvailable ==> readerSession == old(readerSession) && sessionsBegun == old(sessionsBegun)
      ensures readingAvailable ==>
        readerSession == Some(ReaderSession(true, ScanPrompt, true)) && sessionsBegun == old(sessionsBegun) + 1
    {
      if !readingAvailable {
        return;
      }
      readerSession := Some(ReaderSession(true, ScanPrompt, false));
      readerSession := Some(readerSession.value.(begun := true));
      sessionsBegun := sessionsBegun + 1;
    }
  }
}

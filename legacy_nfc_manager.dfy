/** The earlier NFC manager. Its tag payload is the smaller building record,
    its decoder lets a decoding failure propagate, so a malformed payload
    reaches the callback as `(nil, error)`, and it forwards session
    invalidation to the same callback as `(nil, error)`. */
module LegacyNfcManager {
  import opened Common
  import opened Ndef

  /** `decodeRecordToNFCData`: the platform JSON decoder's result, with its
      error thrown on. */
  function DecodeRecordToNfcData(json: seq<byte> -> Result<TagPayload>, payload: seq<byte>): (r: Result<Option<TagPayload>>)
    ensures r.Success? <==> json(payload).Success?
    ensures r.Success? ==> r.value == Some(json(payload).value)
    ensures r.Failure? ==> r.error == json(payload).error
  {
    match json(payload)
    case Success(p) => Success(Some(p))
    case Failure(e) => Failure(e)
  }

  function Decoder(json: seq<byte> -> Result<TagPayload>): RecordDecoder<TagPayload> {
    payload => DecodeRecordToNfcData(json, payload)
  }

  /** A record that is fine for this version: a media record whose payload
      decodes. */
  predicate Readable(r: NdefRecord, json: seq<byte> -> Result<TagPayload>) {
    r.typeNameFormat == Media && json(r.payload).Success?
  }

  /** What one message yields in this version: it succeeds exactly when
      every record is a media record that decodes, with the last record's
      payload as its value (nothing for an empty message); otherwise the
      first record that is not readable decides the error: the case
      `RecordTypeNotSupported` for a non-media record, the decoder's own error for a
      malformed payload. A malformed payload therefore never yields
      `(nil, nil)`. */
  lemma MessageOutcome(message: NdefMessage, json: seq<byte> -> Result<TagPayload>)
    ensures var rs := message.records;
      Processed(message, Decoder(json)).Success? <==> forall i :: 0 <= i < |rs| ==> Readable(rs[i], json)
    ensures var rs := message.records;
      Processed(message, Decoder(json)).Success? ==>
        Processed(message, Decoder(json)).value == if rs == [] then None else Some(json(Last(rs).payload).value)
    ensures var rs := message.records;
      forall k :: 0 <= k < |rs| && !Readable(rs[k], json) && (forall i :: 0 <= i < k ==> Readable(rs[i], json)) ==>
        Processed(message, Decoder(json)).error
          == if rs[k].typeNameFormat != Media then NfcError(RecordTypeNotSupported) else json(rs[k].payload).error
  {
    var rs := message.records;
    var decode := Decoder(json);
    ProcessedCharacterization(message, decode);
    assert forall i :: 0 <= i < |rs| ==> (Stops(rs[i], decode) <==> !Readable(rs[i], json));
  }

  class NfcManager {
    var hasCallback: bool
    var readerSession: Option<ReaderSession>
    var delivered: seq<Delivery<TagPayload>>
    var sessionsBegun: nat

    constructor ()
      ensures !hasCallback && readerSession == None && delivered == [] && sessionsBegun == 0
    {
      hasCallback := false;
      readerSession := None;
      delivered := [];
      sessionsBegun := 0;
    }

    method SetCallback()
      modifies this`hasCallback
      ensures hasCallback
    {
      hasCallback := true;
    }

    /** `readerSession(_:didInvalidateWithError:)`: the error is logged and
        handed to the callback as `(nil, error)`. */
    method DidInvalidateWithError(error: Error)
      modifies this`delivered
      ensures delivered == old(delivered) + (if hasCallback then [Delivery(None, Some(error))] else [])
    {
      if hasCallback {
        delivered := delivered + [Delivery(None, Some(error))];
      }
    }

    /** `readerSession(_:didDetectNDEFs:)`: one callback per message, in
        message order. */
    method DidDetectNdefs(messages: seq<NdefMessage>, json: seq<byte> -> Result<TagPayload>)
      modifies this`delivered
      ensures delivered == old(delivered) + (if hasCallback then Deliveries(messages, Decoder(json)) else [])
    {
      var decode := Decoder(json);
      var i := 0;
      while i < |messages|
        invariant 0 <= i <= |messages|
        invariant delivered == old(delivered) + (if hasCallback then Deliveries(messages[..i], decode) else [])
      {
        var result := ProcessNdefMessage(messages[i], decode);
        if hasCallback {
          delivered := delivered + [Report(result)];
        }
        assert Deliveries(messages[..i + 1], decode) == Deliveries(messages[..i], decode) + [Report(result)];
        i := i + 1;
      }
      assert messages[..i] == messages;
    }

    /** `scan`: a no-op when the device cannot read tags; otherwise a new
        single-read session begins. */
    method Scan(readingAvailable: bool)
      modifies this`readerSession, this`sessionsBegun
      ensures !readingAvailable ==> readerSession == old(readerSession) && sessionsBegun == old(sessionsBegun)
      ensures readingAvailable ==>
        readerSession == Some(ReaderSession(true, ScanPrompt, true)) && sessionsBegun == old(sessionsBegun) + 1
    {
      if !readingAvailable {
        return;
      }
      readerSession := Some(ReaderSession(true, ScanPrompt, false));
      readerSession := Some(readerSession.value.(begun := true));
      sessionsBegun := sessionsBegun + 1;
    }
  }
}

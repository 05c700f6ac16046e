/** NDEF messages as the tag reader receives them, and the record loop both
    versions of the app's NFC manager run over one message: every record
    must be a media-type record, each record's payload is decoded in turn,
    the last decoded value is the message's value, and the first record
    that is not a media record, or whose decoding throws, ends the message
    with an error. The two versions differ only in the record decoder they
    pass. */
module Ndef {
  import opened Common

  /** The Type Name Format field of an NDEF record (section 3.2.6 of the
      NFC Forum NDEF Technical Specification). */
  datatype Tnf = Empty | WellKnown | Media | AbsoluteUri | External | Unknown | Unchanged

  datatype NdefRecord = NdefRecord(typeNameFormat: Tnf, payload: seq<byte>)

  datatype NdefMessage = NdefMessage(records: seq<NdefRecord>)

  /** How one version turns a record payload into a value: the decoded value
      (possibly none), or the error the decoding threw. */
  type RecordDecoder<!T> = seq<byte> -> Result<Option<T>>

  /** One call of the manager's `onCardDataUpdate` callback. */
  datatype Delivery<+T> = Delivery(data: Option<T>, error: Option<Error>)

  /** A hardware read session as `scan` configures it. */
  datatype ReaderSession = ReaderSession(invalidateAfterFirstRead: bool, alertMessage: string, begun: bool)

  const ScanPrompt: string := "Scan your NFC Card"

  /** A record the loop stops at: not a media record, or one whose decoding
      throws. */
  predicate Stops<T>(r: NdefRecord, decode: RecordDecoder<T>) {
    r.typeNameFormat != Media || decode(r.payload).Failure?
  }

  /** The error a stopping record ends the message with. */
  function StopError<T>(r: NdefRecord, decode: RecordDecoder<T>): Error
    requires Stops(r, decode)
  {
    if r.typeNameFormat != Media then NfcError(RecordTypeNotSupported)
    else decode(r.payload).error
  }

  /** The record loop from some record on, with `acc` the value decoded so
      far. */
  function ProcessFrom<T>(records: seq<NdefRecord>, decode: RecordDecoder<T>, acc: Option<T>): Result<Option<T>>
    decreases |records|
  {
    if records == [] then Success(acc)
    else if records[0].typeNameFormat != Media then Failure(NfcError(RecordTypeNotSupported))
    else match decode(records[0].payload)
      case Failure(e) => Failure(e)
      case Success(d) => ProcessFrom(records[1..], decode, d)
  }

  /** `processNFCNDEFMessage`: the loop over all records, starting with no
      value. */
  function Processed<T>(message: NdefMessage, decode: RecordDecoder<T>): Result<Option<T>> {
    ProcessFrom(message.records, decode, None)
  }

  /** When no record stops the loop, the result is the last record's
      decoding, whatever earlier records gave; with no records it is the
      starting value. */
  lemma {:induction false} ProcessWithoutStop<T>(records: seq<NdefRecord>, decode: RecordDecoder<T>, acc: Option<T>)
    requires forall i :: 0 <= i < |records| ==> !Stops(records[i], decode)
    ensures records == [] ==> ProcessFrom(records, decode, acc) == Success(acc)
    ensures records != [] ==>
      !Stops(Last(records), decode) && ProcessFrom(records, decode, acc) == Success(decode(Last(records).payload).value)
    decreases |records|
  {
    if records != [] {
      assert !Stops(records[0], decode);
      assert forall i :: 0 <= i < |records[1..]| ==> records[1..][i] == records[i + 1];
      ProcessWithoutStop(records[1..], decode, decode(records[0].payload).value);
      if |records| > 1 {
        assert Last(records[1..]) == Last(records);
      }
    }
  }

  /** The first record that stops the loop decides the message's error,
      whatever follows it. */
  lemma {:induction false} ProcessStopsAtFirst<T>(records: seq<NdefRecord>, decode: RecordDecoder<T>, acc: Option<T>, k: nat)
    requires k < |records| && Stops(records[k], decode)
    requires forall i :: 0 <= i < k ==> !Stops(records[i], decode)
    ensures ProcessFrom(records, decode, acc) == Failure(StopError(records[k], decode))
    decreases k
  {
    if k > 0 {
      assert !Stops(records[0], decode);
      assert forall i :: 0 <= i < |records[1..]| ==> records[1..][i] == records[i + 1];
      ProcessStopsAtFirst(records[1..], decode, decode(records[0].payload).value, k - 1);
    }
  }

  /** Both directions at once: a message succeeds exactly when no record
      stops the loop, and then its value is the last record's decoding (none
      for an empty message); otherwise it fails with the first stopping
      record's error. */
  lemma ProcessedCharacterization<T>(message: NdefMessage, decode: RecordDecoder<T>)
    ensures var rs := message.records;
      Processed(message, decode).Success? <==> forall i :: 0 <= i < |rs| ==> !Stops(rs[i], decode)
    ensures var rs := message.records;
      (forall i :: 0 <= i < |rs| ==> !Stops(rs[i], decode)) ==>
        if rs == [] then Processed(message, decode) == Success(None)
        else !Stops(Last(rs), decode) && Processed(message, decode) == Success(decode(Last(rs).payload).value)
    ensures var rs := message.records;
      forall k :: 0 <= k < |rs| && Stops(rs[k], decode) && (forall i :: 0 <= i < k ==> !Stops(rs[i], decode)) ==>
        Processed(message, decode) == Failure(StopError(rs[k], decode))
  {
    var rs := message.records;
    if forall i :: 0 <= i < |rs| ==> !Stops(rs[i], decode) {
      ProcessWithoutStop(rs, decode, None);
    } else {
      var k := FirstStop(rs, decode);
      ProcessStopsAtFirst(rs, decode, None, k);
    }
    forall k | 0 <= k < |rs| && Stops(rs[k], decode) && (forall i :: 0 <= i < k ==> !Stops(rs[i], decode))
      ensures Processed(message, decode) == Failure(StopError(rs[k], decode))
    {
      ProcessStopsAtFirst(rs, decode, None, k);
    }
  }

  /** The index of the first record that stops the loop. */
  lemma FirstStop<T>(records: seq<NdefRecord>, decode: RecordDecoder<T>) returns (k: nat)
    requires exists i :: 0 <= i < |records| && Stops(records[i], decode)
    ensures k < |records| && Stops(records[k], decode)
    ensures forall i :: 0 <= i < k ==> !Stops(records[i], decode)
  {
    k := 0;
    while !Stops(records[k], decode)
      invariant k < |records|
      invariant forall i :: 0 <= i < k ==> !Stops(records[i], decode)
      invariant exists i :: k <= i < |records| && Stops(records[i], decode)
      decreases |records| - k
    {
      k := k + 1;
    }
  }

  /** `processNFCNDEFMessage`, shared by both versions of the manager: the
      loop reassigns the decoded value record by record and leaves early on
      the first record that is not a media record or fails to decode. */
  method ProcessNdefMessage<T>(message: NdefMessage, decode: RecordDecoder<T>) returns (r: Result<Option<T>>)
    ensures r == Processed(message, decode)
  {
    var records := message.records;
    var nfcData: Option<T> := None;
    var i := 0;
    while i < |records|
      invariant 0 <= i <= |records|
      invariant ProcessFrom(records[i..], decode, nfcData) == Processed(message, decode)
    {
      var record := records[i];
      assert records[i..][0] == record && records[i..][1..] == records[i + 1..];
      if record.typeNameFormat != Media {
        return Failure(NfcError(RecordTypeNotSupported));
      }
      var decoded := decode(record.payload);
      if decoded.Failure? {
        return Failure(decoded.error);
      }
      nfcData := decoded.value;
      i := i + 1;
    }
    return Success(nfcData);
  }

  /** The callback arguments for one processed message: `(data, nil)` on
      success, `(nil, error)` when processing threw. */
  function Report<T>(r: Result<Option<T>>): (d: Delivery<T>)
    ensures d.error.Some? <==> r.Failure?
    ensures d.error.Some? ==> d.data.None? && d.error.value == r.error
    ensures d.error.None? ==> d.data == r.value
  {
    match r
    case Success(v) => Delivery(v, None)
    case Failure(e) => Delivery(None, Some(e))
  }

  /** The callbacks one batch of detected messages produces: exactly one
      per message, in message order. */
  function Deliveries<T>(messages: seq<NdefMessage>, decode: RecordDecoder<T>): (ds: seq<Delivery<T>>)
    ensures |ds| == |messages|
    ensures forall i :: 0 <= i < |messages| ==> ds[i] == Report(Processed(messages[i], decode))
  {
    if messages == [] then []
    else [Report(Processed(messages[0], decode))] + Deliveries(messages[1..], decode)
  }
}

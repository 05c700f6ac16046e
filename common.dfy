/** Values shared by the screens and the tag reader of the stamp-rally app:
    the catalog place record, the identity and user-document snapshots,
    the errors the app reports, and how a screen's alert reacts to a run of
    alert requests. */
module Common {

  datatype Option<+T> = None | Some(value: T) {
    /** The `?? default` of the source. */
    function GetOr(default: T): T {
      match this
      case Some(v) => v
      case None => default
    }
  }

  /** The outcome of a throwing call: its value, or the error it threw. */
  datatype Result<+T> = Success(value: T) | Failure(error: Error)

  newtype byte = x: int | 0 <= x < 256

  /** The cases of the app's own NFC error enumeration, in declaration order. */
  datatype NfcErrorCode = InvalidatedSession | ReaderNotAvailable | RecordTypeNotSupported

  /** An error the app can see: one of its own NFC errors, or an error
      raised by a platform or vendor library (reader session, JSON decoder,
      sign-in, identity provider, document store), which carries its own
      localized description. */
  datatype Error = NfcError(code: NfcErrorCode) | SystemError(description: string)

  function CaseIndex(c: NfcErrorCode): (n: nat)
    ensures n < 3
  {
    match c
    case InvalidatedSession => 0
    case ReaderNotAvailable => 1
    case RecordTypeNotSupported => 2
  }

  /** `error.localizedDescription`. The app's own enumeration does not
      supply a description, so the platform's generic bridged text naming
      the type and the case index is shown. */
  function LocalizedDescription(e: Error): string {
    match e
    case SystemError(d) => d
    case NfcError(c) =>
      "The operation couldn’t be completed. (JecWeek.customNFCError error "
      + [('0' as int + CaseIndex(c)) as char] + ".)"
  }

  datatype Coordinates = Coordinates(latitude: real, longitude: real)

  /** One catalog entry (the current tag payload has the same shape). The
      ISO-8601 date is kept as an opaque instant. */
  datatype Place = Place(
    id: string,
    buildingNo: int,
    images: seq<string>,
    buildingName: string,
    adress: string,
    date: int,
    coordinates: Coordinates)

  /** The payload of a tag in the earlier version of the app. Its
      identifier is generated on the device at decoding time, not read from
      the tag, so it is not part of the decoded value here. */
  datatype TagPayload = TagPayload(buildingNo: int, buildingName: string, date: int)

  /** The signed-in identity as the identity service reports it. */
  datatype AuthUser = AuthUser(uid: string, email: Option<string>, photoUrl: Option<string>)

  /** The per-user document of the document store. */
  datatype DBUser = DBUser(
    uid: string,
    photoUrl: Option<string>,
    email: Option<string>,
    cardPossessed: Option<seq<string>>)

  /** What the document store's completion handler receives when a user
      document is fetched. */
  datatype DocResponse = DocResponse(document: Option<DBUser>, error: Option<Error>)

  const UserNotFound: string := "User not found"
  const NoDataFound: string := "No data found"

  function Last<T>(s: seq<T>): T
    requires |s| > 0
  {
    s[|s| - 1]
  }

  /** The title an alert shows after `showAlertTitle` was called with each of
      the requested titles in turn, each call overwriting the title. The
      result is the last title requested, or the old one when none was. */
  function TitleAfter(title: string, requested: seq<string>): (t: string)
    ensures requested == [] ==> t == title
    ensures requested != [] ==> t == Last(requested)
    decreases |requested|
  {
    if requested == [] then title else TitleAfter(requested[0], requested[1..])
  }

  /** Whether the alert is presented after `showAlertTitle` was called with
      each requested title in turn: presented exactly when it already was or
      at least one title was requested. */
  function ShownAfter(shown: bool, requested: seq<string>): (s: bool)
    ensures s <==> shown || |requested| > 0
    decreases |requested|
  {
    if requested == [] then shown else ShownAfter(true, requested[1..])
  }

  /** Requesting two runs of titles one after the other has the effect of
      requesting them together, so a handler's alerts and those of a fetch
      it starts can be accounted for in one list. */
  lemma {:induction false} AlertsCompose(shown: bool, title: string, a: seq<string>, b: seq<string>)
    ensures TitleAfter(title, a + b) == TitleAfter(TitleAfter(title, a), b)
    ensures ShownAfter(shown, a + b) == ShownAfter(ShownAfter(shown, a), b)
    decreases |a|
  {
    if a != [] {
      assert (a + b)[0] == a[0] && (a + b)[1..] == a[1..] + b;
      AlertsCompose(true, a[0], a[1..], b);
    }
  }
}

# JecWeek stamp rally — a Dafny model of its core

JecWeek is an iOS campus stamp-rally app. Students sign in with Google and
scan NFC tags posted at campus buildings. Each scan unlocks the matching
card of the building catalog and records it in the user's document in the
cloud store. The map marks the buildings not visited yet and guides the
user to a selected one, recomputing the walking route at most once every
five seconds.

This project models the app's logic as Dafny:

- the NDEF record loop shared by both versions of the NFC manager, with the
  current version's decoder (which swallows malformed payloads) and the
  earlier one's (which reports them), and the managers' callbacks and scan
  sessions (`Ndef`, `NfcManager`, `LegacyNfcManager`);
- the current and the earlier home screen's view models: the scan callback,
  the possession fetch and how an owned or locked card is drawn
  (`HomeScreen`, `LegacyHomeScreen`, `Ownership`);
- the map screen: the route throttle and direction mode, and the card
  manager that selects the buildings to mark (`MapScreen`);
- the root screen's view model, tab switch, menu buttons and sign-out
  (`MainScreen`); the menu's display name (`DisplayName`);
- Google sign-in with its compensating account delete (`LoginPage`,
  `Identity`);
- the branch selection of `formatRelativeTime` (`RelativeTime`);
- end-to-end lemmas from a detected NDEF message to what the user's
  possessions become (`ScanToUnlock`).

View-model methods are classes whose methods change their fields under
`modifies` frames. Each is proved against a pure decision function
(`ReactToCardData`, `ReactToTagFetch`, `ReactToUserData`, `Throttle`,
`RunSteps`). The properties are proved about those functions.

The identity service, the document store, the JSON decoder, the clock and
the NFC hardware are inputs:

- the current user, as the identity service reports it;
- each store answer;
- the decoder, as a function from payload bytes to a value or an error;
- the clock reading of each event;
- whether the device can read tags.

Asynchronous tasks and completion handlers are modelled as events that
run in the order the source issues them. Alerts are tracked through the
list of titles a reaction requests: the flag is set when any title is
requested, and the last title wins.

## Model

| member | source | states |
|---|---|---|
| Ndef.ProcessNdefMessage | JecWeek/NFC/NFCManager.swift:33-44 | the record loop returns exactly the specified outcome `Processed` of the message |
| Ndef.ProcessedCharacterization | JecWeek/NFC/NFCManager.swift:33-44 | a message succeeds iff no record is non-media or fails to decode; its value is then the last record's decoding (none when empty); otherwise the first such record's error |
| Ndef.ProcessWithoutStop | JecWeek/NFC/NFCManager.swift:36-43 | with no stopping record, earlier decodings are overwritten and the last record's decoding is the result |
| Ndef.ProcessStopsAtFirst | JecWeek/NFC/NFCManager.swift:37-41 | the first non-media or undecodable record decides the error, whatever follows |
| Ndef.Report | JecWeek/NFC/NFCManager.swift:24-29 | a success is delivered as `(data, nil)`, a failure as `(nil, error)` |
| Ndef.Deliveries | JecWeek/NFC/NFCManager.swift:22-31 | one callback per detected message, in message order |
| NfcManager.DecodeRecordToNfcData | JecWeek/NFC/NFCManager.swift:46-67 | never throws; yields a place iff the JSON decodes, and that place |
| NfcManager.MessageOutcome | JecWeek/NFC/NFCManager.swift:33-67 | a message fails, with the error case `RecordTypeNotSupported`, iff some record is not a media record; otherwise its value is the last payload's place, or none when that payload is malformed or there are no records |
| NfcManager.NfcManager.constructor | JecWeek/NFC/NFCManager.swift:11-13 | no callback, no session, nothing delivered |
| NfcManager.NfcManager.SetCallback | JecWeek/Views/HomeView.swift:48 | the view model installs its handler |
| NfcManager.NfcManager.DidInvalidateWithError | JecWeek/NFC/NFCManager.swift:16-18 | invalidation changes nothing and calls no callback |
| NfcManager.NfcManager.DidDetectNdefs | JecWeek/NFC/NFCManager.swift:22-31 | appends exactly `Deliveries` of the messages when a callback is set, nothing otherwise |
| NfcManager.NfcManager.Scan | JecWeek/NFC/NFCManager.swift:69-78 | without NFC reading nothing happens; otherwise a new session that ends after the first read, prompting "Scan your NFC Card", replaces the old one and begins |
| LegacyNfcManager.DecodeRecordToNfcData | JecWeek/NFCManager.swift:47-51 | succeeds iff the JSON decodes; otherwise throws the decoder's error |
| LegacyNfcManager.MessageOutcome | JecWeek/NFCManager.swift:34-51 | a message succeeds iff every record is a readable media record, with the last payload as value; otherwise the first unreadable record decides the error |
| LegacyNfcManager.NfcManager.constructor | JecWeek/NFCManager.swift:11-13 | no callback, no session, nothing delivered |
| LegacyNfcManager.NfcManager.SetCallback | JecWeek/HomeView.swift:18 | the view model installs its handler |
| LegacyNfcManager.NfcManager.DidInvalidateWithError | JecWeek/NFCManager.swift:16-19 | invalidation is forwarded to the callback as `(nil, error)` |
| LegacyNfcManager.NfcManager.DidDetectNdefs | JecWeek/NFCManager.swift:23-32 | appends exactly `Deliveries` of the messages when a callback is set |
| LegacyNfcManager.NfcManager.Scan | JecWeek/NFCManager.swift:53-62 | as in the current version |
| Ownership.Owned | JecWeek/Views/HomeView.swift:432-436 | a catalog card is in the owned view iff its id is possessed |
| Ownership.Unowned | JecWeek/Views/Map/MapView.swift:125-129 | a catalog card is in the not-owned view iff its id is not possessed |
| Ownership.OwnershipPartitionsCatalog | JecWeek/Views/Map/MapView.swift:119-129 | the owned and not-owned views split the catalog as a multiset, nothing lost or repeated |
| Ownership.RepossessingChangesNothing | JecWeek/Views/HomeView.swift:67-68 | recording an already possessed card again changes neither view |
| MapScreen.Throttle | JecWeek/Views/Map/MapView.swift:315-331 | the first update always recomputes; a later one iff strictly more than 5 s after the last recomputation, which is then moved to now |
| MapScreen.FiresAreSpaced | JecWeek/Views/Map/MapView.swift:315-331 | over any stream of updates, successive recomputations are more than 5 s apart, and the first update with no earlier recomputation recomputes |
| MapScreen.SpacedIsPairwise | JecWeek/Views/Map/MapView.swift:322-324 | any two recomputations, not only neighbours, are more than 5 s apart |
| MapScreen.MapViewState.constructor | JecWeek/Views/Map/MapView.swift:104-110 | no last update, not in direction mode, no route, nothing selected |
| MapScreen.MapViewState.SelectPlace | JecWeek/Views/Map/MapView.swift:235-240 | tapping a marker selects its place and opens the detail sheet |
| MapScreen.MapViewState.GetDirections | JecWeek/Views/Map/MapView.swift:271-286 | a walking request from the user's position to the selected place is issued; the forced unwrap is safe under the state invariant |
| MapScreen.MapViewState.DirectionsCalculated | JecWeek/Views/Map/MapView.swift:287-296 | on success the first route (if any) is drawn and direction mode turns on; a failure changes nothing |
| MapScreen.MapViewState.CheckAndUpdateRoute | JecWeek/Views/Map/MapView.swift:315-331 | requests a route exactly when `Throttle` fires; keeps direction mode tied to a selected place and the recomputations spaced |
| MapScreen.MapViewState.OnUserLocationUpdated | JecWeek/Views/Map/MapView.swift:300-312 | outside direction mode a location update changes nothing; inside, it runs the throttle |
| MapScreen.CardsManager.constructor | JecWeek/Views/Map/MapView.swift:12-14 | empty catalog and possession list |
| MapScreen.CardsManager.GetCardsFromJson | JecWeek/Views/Map/MapView.swift:17-19 | the loaded catalog, or empty when loading fails |
| MapScreen.CardsManager.GetCardsFromFirestore | JecWeek/Views/Map/MapView.swift:21-35 | no user: no fetch; the possession list is replaced only by a delivered document without error, a missing list reading as empty |
| MapScreen.CardsManager.AnnotatedCards | JecWeek/Views/Map/MapView.swift:119-129 | a card gets a marker iff it is in the catalog and not owned |
| HomeScreen.ReactToCardData | JecWeek/Views/HomeView.swift:48-73 | a possession write happens iff there is data and a signed-in user, and it is (uid, card id); an error is alerted first and is the only alert when data and a user are present; no data alerts "No data found", no user "User not found" |
| HomeScreen.ReactToTagFetch | JecWeek/Views/HomeView.swift:88-103 | no user: "User not found" and no fetch; otherwise the fetched list replaces the held one even when an error is also alerted |
| HomeScreen.CardLookFor | JecWeek/Views/HomeView.swift:363-383 | an owned card is black, enabled and shows its first photo; a card not owned is grey, disabled and shows the lock (tint and disabling at lines 143-144) |
| HomeScreen.HomeViewModel.constructor | JecWeek/Views/HomeView.swift:43-74 | the catalog is the loaded one or empty |
| HomeScreen.HomeViewModel.ShowAlertTitle | JecWeek/Views/HomeView.swift:82-86 | the alert shows with the given title |
| HomeScreen.HomeViewModel.GetUserData | JecWeek/Views/HomeView.swift:77-80 | the identity snapshot is stored |
| HomeScreen.HomeViewModel.GetUserTagFromFirestore | JecWeek/Views/HomeView.swift:88-103 | the new state is what `ReactToTagFetch` decides |
| HomeScreen.HomeViewModel.OnCardDataUpdate | JecWeek/Views/HomeView.swift:48-73 | the new state is what `ReactToCardData` decides, followed by the refetch it triggers |
| HomeScreen.HomeViewModel.CheckUserHasTag | JecWeek/Views/HomeView.swift:432-436 | a deck card passes iff it is among the deck's owned cards (`Owned`), and passing is what enables the card and replaces its lock |
| LegacyHomeScreen.ReactToCardData | JecWeek/HomeView.swift:18-31 | data replaces the card shown; the alerts are the error's description, if any, then "No data found" exactly when data is missing, which keeps the card shown |
| LegacyHomeScreen.ReadThenInvalidationAlerts | JecWeek/NFCManager.swift:16-19 | after a successful read and the session's invalidation, the card is shown under a "No data found" alert |
| LegacyHomeScreen.HomeViewModel.constructor | JecWeek/HomeView.swift:10-13 | nothing shown, no alert |
| LegacyHomeScreen.HomeViewModel.ShowAlertTitle | JecWeek/HomeView.swift:34-38 | the alert shows with the given title |
| LegacyHomeScreen.HomeViewModel.OnCardDataUpdate | JecWeek/HomeView.swift:18-31 | the new state is what `ReactToCardData` decides |
| DisplayName.MenuName | JecWeek/Views/HomeView.swift:211-215 | no email shows "Guest"; for every email the name shown contains no "@jec.ac.jp" |
| DisplayName.NoDomainLeft | MainView.swift:154-157 | for every text, the replacement leaves no occurrence of "@jec.ac.jp", including ones the honorific could form with its neighbours |
| DisplayName.NoOccurrenceUnchanged | MainView.swift:154-157 | replacing a text that never occurs leaves the string unchanged |
| DisplayName.PrefixThenDomain | MainView.swift:154-157 | "<local>@jec.ac.jp", with no at-sign in the local part, becomes "<local>さん" |
| DisplayName.StudentAddressName | JecWeek/Views/HomeView.swift:211-215 | a student address is shown as the student number followed by "さん" |
| DisplayName.OtherNames | MainView.swift:154-158 | an email without an at-sign is shown unchanged; no email shows "Guest" |
| RelativeTime.FormatRelativeTime | JecWeek/Utilities.swift:45-65 | day difference 0 (or absent) gives "HH:mm", 1 gives "Yesterday", other values below 7 give the weekday name, 7 and more give "dd/MM/yy", each iff |
| RelativeTime.ExactlyOneRendering | JecWeek/Utilities.swift:47-65 | exactly one rendering is chosen; a future date gets the weekday name |
| Common.TitleAfter | JecWeek/Views/HomeView.swift:82-86 | after `showAlertTitle` is called with titles in turn, the alert shows the last one, or keeps its title when none was requested |
| Common.ShownAfter | JecWeek/Views/HomeView.swift:82-86 | after `showAlertTitle` is called with titles in turn, the alert is presented iff it was or some title was requested |
| Common.AlertsCompose | JecWeek/Views/HomeView.swift:70-72 | requesting two runs of titles in turn equals requesting them together, so a handler's alerts and those of the fetch it starts add up |
| MainScreen.ReactToUserData | MainView.swift:23-42 | no user: "User not found"; an error or a missing document alerts once and keeps the held document; only a delivered document replaces it, with no alert |
| MainScreen.MainViewModel.constructor | MainView.swift:10-14 | menu closed, no document, no alert |
| MainScreen.MainViewModel.ShowAlertTitle | MainView.swift:18-21 | the alert shows with the given title |
| MainScreen.MainViewModel.GetUserData | MainView.swift:23-42 | the new state is what `ReactToUserData` decides |
| MainScreen.ScreenFor | MainView.swift:54-73 | tab 0 shows home, tab 1 the map, any other value nothing |
| MainScreen.TagsSelectTheirPages | JecWeek/Views/MainView.swift:50-55 | selecting a page's tag shows that page |
| MainScreen.DisabledButtonIsShownPage | MainView.swift:237-256 | a menu button is disabled exactly when its tab's page is the one the switch shows: one disabled button while a page is shown, none otherwise |
| MainScreen.MainViewState.constructor | MainView.swift:47-51 | login cover up, home tab, menu closed |
| MainScreen.MainViewState.MenuButtonTapped | MainView.swift:110-114 | the menu opens |
| MainScreen.MainViewState.NavButtonTapped | MainView.swift:237-256 | an enabled button closes the menu and selects its tab; a disabled one changes nothing; afterwards the tapped button is disabled |
| MainScreen.MainViewState.OnAppear | MainView.swift:84-88 | the login cover is up iff no user is signed in |
| MainScreen.MainViewState.SignOutTapped | MainView.swift:180-188 | the menu closes; a successful sign-out shows the login cover; a failing one keeps the user |
| Identity.AuthSession.SignInWithCredential | JecWeek/FirebaseAuth/AuthenticationManager.swift:39-47 | the provider's user becomes current on success; a failure changes nothing |
| Identity.AuthSession.DeleteUser | JecWeek/FirebaseAuth/AuthenticationManager.swift:60-62 | no current user: nothing; otherwise the account is deleted and the session ends, or the failure is thrown |
| Identity.AuthSession.LogOut | JecWeek/FirebaseAuth/AuthenticationManager.swift:64-66 | the session ends unless signing out throws |
| LoginPage.RunSteps | JecWeek/Views/LoginPage.swift:19-26 | the steps run in order and stop at the first failure, whose error is reported; no failure iff every step succeeds |
| LoginPage.SignedInAfterSteps | JecWeek/Views/LoginPage.swift:20-21 | the credential's user is current iff Google sign-in and the credential sign-in succeed |
| LoginPage.LoginPageViewModel.constructor | JecWeek/Views/LoginPage.swift:12-13 | no alert |
| LoginPage.LoginPageViewModel.ShowAlertTitle | JecWeek/Views/LoginPage.swift:39-43 | the alert shows with the given title |
| LoginPage.LoginPageViewModel.SignInWithGoogle | JecWeek/Views/LoginPage.swift:15-32 | success stores the document and keeps the user signed in, with no alert and no delete; any failure alerts its description and deletes the signed-in account unless the delete itself fails |
| LoginPage.LoginTapped | JecWeek/Views/LoginPage.swift:75-80 | after the attempt the login cover is up iff no user is signed in: a complete sign-in dismisses it with the user signed in and the alert untouched; a failure alerts its description and keeps the cover up, unless the compensating delete fails while a user is signed in |
| ScanToUnlock.ScanUnlocksLastPlace | JecWeek/Views/HomeView.swift:48-73 | a scan records a possession iff a user is signed in and the message is non-empty, all media, with a decodable last payload; the card recorded is that payload's place, then the list is refetched |
| ScanToUnlock.MalformedPayloadOnlyNoData | JecWeek/NFC/NFCManager.swift:46-67 | a well-formed message with a malformed last payload only alerts "No data found" and records nothing |
| ScanToUnlock.ForeignRecordRaisesTwoAlerts | JecWeek/NFC/NFCManager.swift:37-40 | a non-media record alerts the platform's bridged description of `RecordTypeNotSupported` ("The operation couldn’t be completed. (JecWeek.customNFCError error 2.)"), then "No data found", and records nothing |
| ScanToUnlock.LegacyScanOutcomes | JecWeek/HomeView.swift:18-31 | earlier version: a readable message shows its last payload with no alert; a malformed payload alerts the decoder's error, then "No data found" |

## Left out

- The Google, identity-service and document-store SDKs, and the JSON decoder: their answers are inputs. `updateUserCardPossession`, `getUserTagData`, `getDBUser` and `storeUserDataInFirestore` are recorded as calls, or given as answers; the store's own behaviour is not part of this model.
- Concurrency: tasks, `@MainActor` hops and completion handlers run as ordered events. Interleavings of a late completion with a later event are not modelled, and neither are `[weak self]` releases.
- Location tracking (`LocationManager`), camera moves, the motion manager, drag gestures, animations and all view layout.
- `formatRelativeTime`: only the choice of rendering; the date formatter's output text and the calendar's day arithmetic are the platform's.
- `LocalizedDescription`: the text the platform bridges for an error is modelled for the app's own NFC errors only; other errors carry their description as given.
- MapScreen.MapViewState.CheckAndUpdateRoute: the source reads the clock twice, once for the difference and once to store; the model uses one reading per event.
- MapScreen.MapViewState.OnUserLocationUpdated: `updateRoute` registers a new observer on every appearance of the map, so repeated appearances run the handler once per registration; the model runs it once.
- HomeScreen.CardLookFor: an owned card whose image list is empty crashes at `images[0]`; the model names that outcome `MissingPhoto` rather than trapping.
- Time and coordinates: Swift `TimeInterval` and `CLLocationDegrees` are `Double`; the model uses exact `real` arithmetic, so rounding at the five-second boundary is not modelled.
- DisplayName.ReplacingOccurrences: Swift compares strings by extended grapheme clusters and canonical equivalence; the model compares sequences of `char`, which agree for the ASCII school domain only when the address holds no combining marks next to it.
- The earlier home screen draws the card only when a payload is held (JecWeek/HomeView.swift:57-59); the model's `nfcData` field is that payload and the view's layout is not modelled.
- Scanning from the view (`scan` on the view models) only forwards to the manager's `Scan`; it has no member of its own.

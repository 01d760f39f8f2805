# PostcardApp address collection, modelled in Dafny

PostcardApp lets a phone user compose a postcard: a photo on the front, a message on the back and
a recipient picked from the address book. The recipient does not have to know anything in
advance. The system texts them through the Sendblue messaging gateway and asks for a postal
address. Their reply reaches a Firebase Cloud Function webhook. The webhook finds the postcard
waiting for that phone number and records the address.

This project models the logic of that loop and proves properties of it:

- **`PhoneFormat`** (`phone_format.dfy`): the backend normaliser `formatPhoneNumber`.
  - It is identical in `index.ts` and the compiled `index.js`, so one function models both.
  - It keeps the digits. It prefixes `+` to eleven digits led by `1`, and `+1` to anything else.
  - Its output is the only key that links stored postcards to inbound senders.
  - Proved: the key's shape, the two documented cases, and exactly when normalising is
    idempotent (with a counterexample where it is not). Also proved: when two raw numbers get the
    same key, and the key of the test contact.
- **`Sendblue`** (`sendblue.dfy`): the client's gateway wrapper.
  - Its own normaliser, built from `components(separatedBy:)` and `joined()`, is proved equal to
    the backend's on every input.
  - The credential guard.
  - `sendInitialMessage`: the request it builds and how it classifies the outcome. The `catch`
    re-wraps every failure as `networkError`, including the `apiError` raised for a non-2xx
    status, so `apiError` never reaches the caller.
- **`Backend`** (`backend.dfy`): the `postcards` collection as a class holding a sequence of
  documents, and the two endpoints.
  - `handleSendblueWebhook` in both builds. The newer one stamps `addressReceivedAt` and sends a
    best-effort thank-you text.
  - Each step's status code is proved: 405, 400, 500 for a store fault, 404, and 200.
  - Proved: exactly the newest awaiting document changes, and the number of awaiting documents
    for that phone falls by one.
  - `createAndSendPostcard`: validation, the optional phone number, and the stored `created`
    document.
  - The search for the newest awaiting document is a loop method proved against its
    specification.
- **`Contacts`** (`contacts.dfy`): the contact picker.
  - The case-insensitive search filter, proved to be an order-preserving, idempotent selection.
  - One row per phone number.
  - `loadContacts`: keeps contacts that have a phone number, as a loop method. It then sorts
    them by lower-cased given name, proved to be a permutation that is sorted.
- **`Compose`** (`compose.dfy`): the compose screen's form as a class with its state fields.
  - The send guard.
  - The swipe-to-flip rule.
  - Reset and delete.
  - The `PostcardData` that a send builds.
  - Each handler is proved against a pure transition on a `FormState` value. The transitions
    carry the lemmas, including the invariant that the back is only ever shown with a photo.
- **`PostcardModel`** and **`Wrappers`**: the client's value types and the `Option`/`Outcome`
  datatypes.

Calls into Firestore, PostGrid, the PDF builder, `fetch` and `URLSession` are not modelled. Each
becomes a parameter that supplies its outcome: a fault, a thrown call, a status code or a
returned identifier. Timestamps are `nat` parameters.

Two facts about the code shape the model:

- `sendInitialMessage` wraps every failure as `networkError`; there is no finer classification.
- `createAndSendPostcard` stores status `created` with no top-level `recipientPhone`, and no
  shown code moves a document to `addressRequested`, so the model seeds the collection with
  awaiting documents. `Backend.AppendingOrderKeepsAwaiting` proves that an order never creates
  one.

The client's `sendPostcard` builds a `PostcardData`, waits, and shows a confirmation. It does not
call the backend or the gateway, and the model keeps it that way.

## Model

| member | source | states |
|---|---|---|
| PhoneFormat.Digits | firebase-functions/functions/src/index.ts:125 | `replace(/\D/g, '')`: keeps exactly the ASCII digits, in order; its contract is carried by `DigitsAreDigits`, `DigitsAppend`, `DigitsOfDigits` and `DigitsCounts` |
| PhoneFormat.FormatPhoneNumber | firebase-functions/functions/src/index.ts:123-132 | the backend key; its contract is carried by `KeyShape`, `TenDigits`, `ElevenDigitsLedByOne`, `IdempotentIff` and `SameKeyIff` |
| PhoneFormat.DigitsAreDigits | firebase-functions/functions/src/index.ts:125 | stripping non-digits leaves only digits and never lengthens the string |
| PhoneFormat.DigitsAppend | firebase-functions/functions/src/index.ts:125 | stripping a concatenation is the concatenation of the stripped parts, so nothing is reordered |
| PhoneFormat.DigitsOfDigits | firebase-functions/functions/src/index.ts:125 | a string of digits only is left unchanged by the stripping |
| PhoneFormat.DigitsCounts | firebase-functions/functions/src/index.ts:125 | each digit character keeps its number of occurrences; no non-digit character survives |
| PhoneFormat.KeyShape | firebase-functions/functions/src/index.ts:123-132 | every key starts with `+1`, everything after `+` is a digit, and that tail is the stripped digits (eleven led by `1`) or `1` followed by them |
| PhoneFormat.DigitsOfKey | firebase-functions/functions/src/index.ts:123-132 | the digits of a key are the key without its `+` |
| PhoneFormat.TenDigits | firebase-functions/functions/src/index.ts:128-131 | ten bare digits become `+1` followed by them |
| PhoneFormat.ElevenDigitsLedByOne | firebase-functions/functions/src/index.ts:128-130 | eleven digits led by `1` only gain a `+` |
| PhoneFormat.KeyOfKey | firebase-functions/functions/src/index.ts:123-132 | `+` followed by its digits is its own key if and only if the digits are eleven led by `1`; otherwise normalising it again gives `+1` followed by them, one character longer |
| PhoneFormat.IdempotentIff | firebase-functions/functions/src/index.ts:123-132 | normalising a key again gives the same key if and only if the input had ten digits, or eleven led by `1` |
| PhoneFormat.NotIdempotentExample | firebase-functions/functions/src/index.ts:123-132 | `12345` becomes `+112345`, which becomes `+1112345`: normalising this key again changes it |
| PhoneFormat.SameKeyIff | firebase-functions/functions/src/index.js:97-105 | two inputs share a key if and only if their digits are equal, or one is the other ten digits with a leading `1` (the `index.js` copy is this same function) |
| PhoneFormat.DashedTen | firebase-functions/functions/src/index.ts:125-131 | a number written as dash-separated digit groups of ten digits in all becomes `+1` followed by the digits |
| PhoneFormat.TestContactKey | Postcard/ContactSelectionView.swift:42-45 | the test contact's `917-477-9901` is keyed `+19174779901` |
| Sendblue.FormatPhoneNumberSwift | Postcard/SendblueManager.swift:68-78 | the client key; its contract, equality with the backend key, is carried by `SwiftAgreesWithBackend` |
| Sendblue.Components | Postcard/SendblueManager.swift:70 | splitting at non-digits yields at least one run, and every run consists of digits |
| Sendblue.JoinedComponentsAreDigits | Postcard/SendblueManager.swift:70 | joining the runs gives exactly the input's digits in order, the same string as the backend's stripping |
| Sendblue.SwiftAgreesWithBackend | Postcard/SendblueManager.swift:68-78 | the client's `formatPhoneNumber` equals the backend's on every input |
| Sendblue.TestContactKeySwift | Postcard/SendblueManager.swift:27 | the client also keys the test contact as `+19174779901` |
| Sendblue.Init | Postcard/SendblueManager.swift:18-23 | a manager exists if and only if the API key and the secret are both non-empty, and it holds them |
| Sendblue.SendInitialMessage | Postcard/SendblueManager.swift:25-66 | POST to `/send-message` with the JSON and credential headers; body `from_number` `+14152005823`, `number` the normalised phone, `content` the address request; success if and only if an HTTP status in 200 to 299; every failure, `apiError` and `invalidResponse` included, leaves as `networkError` wrapping it |
| PostcardModel.RawValue | Postcard/PostcardModel.swift:11-15 | the raw strings of the three statuses; their contract is carried by `RawValueRoundTrip` and `RawValueInjective` |
| PostcardModel.FromRawValue | Postcard/PostcardModel.swift:11-15 | decoding succeeds only on a raw value of some status, and then yields a status with that raw value; any other string decodes to nothing |
| PostcardModel.RawValueRoundTrip | Postcard/PostcardModel.swift:11 | decoding a status's raw value gives the status back |
| PostcardModel.RawValueInjective | Postcard/PostcardModel.swift:11-15 | distinct statuses have distinct raw values |
| PostcardModel.BackendStatusesDoNotDecode | Postcard/PostcardModel.swift:11-15 | the backend's `addressRequested`, `addressReceived` and `created` are not client statuses |
| Backend.Accepted | firebase-functions/functions/src/index.ts:36-55 | the request is a POST with truthy `from_number` and `content`; its role is stated by the 405, 400 and 200 clauses of `HandleSendblueWebhook` |
| Backend.HasRequiredFields | firebase-functions/functions/src/index.ts:314-315 | the eight required fields are all truthy; its role is stated by the 400 clause of `CreateAndSendPostcard` and by `DetailsOf` |
| Backend.Answered | firebase-functions/functions/src/index.ts:77-81 | the update stores the reply verbatim as `address`, sets `addressReceived`, sets `addressReceivedAt` only when given, and keeps phone, creation time and order data |
| Backend.FindNewestAwaiting | firebase-functions/functions/src/index.ts:61-73 | finds nothing if and only if no document for the key is `addressRequested`; otherwise an awaiting document created no earlier than any other awaiting one for the key |
| Backend.CountZeroIffNoneAwaiting | firebase-functions/functions/src/index.ts:69-73 | the number of awaiting documents for a key is zero if and only if the query finds none |
| Backend.AnsweringRemovesOne | firebase-functions/functions/src/index.ts:75-81 | answering an awaiting document lowers the awaiting count for its key by one and leaves every other key's count unchanged |
| Backend.RepeatedReplyAnswersOlder | firebase-functions/functions/src/index.ts:61-81 | if the same reply is delivered again, it answers a different document created no later than the first, which exists only if at least two were awaiting |
| Backend.Utf8FourBytes | firebase-functions/functions/src/index.ts:95 | the four-byte UTF-8 encoding has a lead byte 0xF0 to 0xF4 and three continuation bytes, and decodes back to the code point |
| Backend.ThankYouTextMisencoded | firebase-functions/functions/src/index.ts:95 | the thank-you text as written is the intended one with U+1F4EC encoded as UTF-8 and decoded as Windows-1252, and does not contain the emoji |
| Backend.ThankYouTextEndsWithMailbox | firebase-functions/functions/src/index.ts:95 | the corrected text is the message followed by the single mailbox character |
| Backend.DetailsOf | firebase-functions/functions/src/index.ts:321-331 | the contact details passed on have every required field non-empty and the phone number defaulted to the empty string |
| Backend.CreatedDoc | firebase-functions/functions/src/index.ts:337-354 | the stored order has status `created`, no `recipientPhone` and no address, so it awaits nobody |
| Backend.AppendingOrderKeepsAwaiting | firebase-functions/functions/src/index.ts:338-354 | storing an order changes for no phone whether a postcard awaits its address |
| Backend.PostcardCollection.HandleSendblueWebhook | firebase-functions/functions/src/index.ts:34-120 | 405 for a verb other than POST; 400 when `from_number` or `content` is missing or empty; 500 when the query or the update throws; 404 when nothing awaits the key; otherwise 200. Only on 200 does the store change: exactly the newest awaiting document is answered with `addressReceivedAt` stamped. The thank-you text as written, with its misspelt ending, then goes to the normalised number, and its failure changes neither the update nor the 200 |
| Backend.PostcardCollection.HandleSendblueWebhookLegacy | firebase-functions/functions/src/index.js:49-95 | the same status codes and the same single update, without `addressReceivedAt` and without a thank-you |
| Backend.PostcardCollection.CreateAndSendPostcard | firebase-functions/functions/src/index.ts:291-365 | 405 for a verb other than POST; 500 when `recipientDetails` is missing; 400 when any of the eight required fields is missing or empty; then PostGrid is called with the details. 200 exactly when the contact, the PDF and the store write all succeed, and 500 when any of them throws; only on 200 is one `created` document appended and the ids returned, and a throwing call leaves the store unchanged |
| Contacts.FilterContacts | Postcard/ContactSelectionView.swift:48-56 | `filteredContacts`; its contract is carried by `FilterIsSubsequence`, `FilterCounts`, `FilterMembership` and `FilterIdempotent` |
| Contacts.Rows | Postcard/ContactSelectionView.swift:96-109 | the contact rows, one per phone number; its contract is carried by `RowsAreContactNumbers` |
| Contacts.WithPhones | Postcard/ContactSelectionView.swift:200-204 | the enumerated contacts with a phone number; its contract is carried by `WithPhonesMembership` and `CollectContactsWithPhones` |
| Contacts.SortByGivenName | Postcard/ContactSelectionView.swift:207-211 | the sort by lower-cased given name; its contract is carried by `SortByGivenNameSpec` |
| Contacts.MatchingIsSubsequence | Postcard/ContactSelectionView.swift:52-55 | the matching contacts are an order-preserving subsequence of the input, no longer than it |
| Contacts.FilterIsSubsequence | Postcard/ContactSelectionView.swift:48-56 | the filtered list is an order-preserving subsequence of the contacts, no longer than them; for an empty search it is the input itself |
| Contacts.FilterCounts | Postcard/ContactSelectionView.swift:48-56 | each contact whose lower-cased `given family` contains the lower-cased search appears as often as in the input; every other contact is absent |
| Contacts.FilterMembership | Postcard/ContactSelectionView.swift:48-56 | a contact is listed if and only if it is in the input and the search is empty or matches its name |
| Contacts.FilterIdempotent | Postcard/ContactSelectionView.swift:48-56 | filtering the filtered list with the same search changes nothing |
| Contacts.RowsAreContactNumbers | Postcard/ContactSelectionView.swift:96-109 | there is one row per phone number, and a row exists for exactly each listed contact paired with one of its own numbers |
| Contacts.SelectRow | Postcard/ContactSelectionView.swift:11-15 | the recipient is named by the same `given family` string the search matches, and carries the number's raw, unnormalised spelling |
| Contacts.WithPhonesMembership | Postcard/ContactSelectionView.swift:200-204 | the loaded contacts are exactly the enumerated contacts with at least one phone number |
| Contacts.CollectContactsWithPhones | Postcard/ContactSelectionView.swift:197-205 | the enumeration loop collects the contacts with a phone number, in enumeration order |
| Contacts.TestContactKeys | Postcard/ContactSelectionView.swift:42-45 | the test row's number `917-477-9901` is keyed `+19174779901` by both the backend and the client |
| Contacts.LessIrreflexive | Postcard/ContactSelectionView.swift:208-210 | no name sorts before itself |
| Contacts.LessTransitive | Postcard/ContactSelectionView.swift:208-210 | the name order is transitive |
| Contacts.LessTotal | Postcard/ContactSelectionView.swift:208-210 | of two different names one sorts before the other |
| Contacts.SortByGivenNameSpec | Postcard/ContactSelectionView.swift:207-211 | the sorted list is a permutation of its input, non-decreasing by lower-cased given name |
| Contacts.ContactPicker.constructor | Postcard/ContactSelectionView.swift:38-40 | the picker starts with an empty search, no loaded contacts and the permission alert hidden |
| Contacts.ContactPicker.FilteredContacts | Postcard/ContactSelectionView.swift:58-61 | the `filteredContacts` property: the filter applied to the loaded contacts and the search text; its contract is carried by `FilterContacts`'s lemmas and `FilteredContactsAreLoaded` |
| Contacts.ContactPicker.FilteredContactsAreLoaded | Postcard/ContactSelectionView.swift:58-61 | every contact on display was loaded and matches the search text, and every such contact is displayed |
| Contacts.ContactPicker.LoadContacts | Postcard/ContactSelectionView.swift:192-215 | after a successful enumeration the list holds exactly the contacts with a phone number, rearranged into given-name order; a failed enumeration leaves it as it was |
| Contacts.ContactPicker.RequestContactsAccess | Postcard/ContactSelectionView.swift:174-190 | granted access loads the contacts; refusal raises the settings alert; a failing request changes nothing |
| Compose.CanSendPostcard | Postcard/ContentView.swift:71-73 | the send guard: a photo, a non-empty message and a recipient; its contract is carried by `BuildPostcard`, `InitialState` and `ClearedSpec` |
| Compose.AfterDrag | Postcard/ContentView.swift:222-234 | the swipe transition; its contract is carried by `FlipRule`, `FlipKeepsConsistent` and `FlipTwice` |
| Compose.Cleared | Postcard/ContentView.swift:417-427 | the reset transition; its contract is carried by `ClearedSpec` |
| Compose.BuildPostcard | Postcard/ContentView.swift:370-388 | a postcard is built if and only if the form can send and the photo encodes as JPEG; it is `pending` and carries the JPEG, the non-empty message, the recipient's name and raw phone, and the time |
| Compose.InitialState | Postcard/ContentView.swift:25-58 | a fresh form shows the front and cannot send |
| Compose.FlipRule | Postcard/ContentView.swift:222-234 | the side changes if and only if the swipe exceeds 50 points and a photo is chosen or the back shows; turning to the back focuses the message; nothing else changes |
| Compose.FlipKeepsConsistent | Postcard/ContentView.swift:222-234 | a swipe keeps the back shown only with a photo, and without a photo changes nothing |
| Compose.FlipTwice | Postcard/ContentView.swift:222-234 | two long swipes after an allowed flip return the card to its starting side |
| Compose.ClearedSpec | Postcard/ContentView.swift:417-427 | after a reset the front shows, photo, item, message and recipient are cleared, nothing can be sent, a second reset changes nothing, and the alert and progress flags are kept |
| Compose.ComposeForm.constructor | Postcard/ContentView.swift:25-58 | the form starts in the initial state |
| Compose.ComposeForm.OnDragEnded | Postcard/ContentView.swift:222-234 | the gesture handler performs exactly the flip transition and keeps the form consistent |
| Compose.ComposeForm.ResetForm | Postcard/ContentView.swift:417-427 | `resetForm` performs exactly the reset transition |
| Compose.ComposeForm.DeleteTapped | Postcard/ContentView.swift:117-123 | the trash icon only raises the confirmation alert |
| Compose.ComposeForm.ConfirmDelete | Postcard/ContentView.swift:318-330 | "Yes" performs the reset transition and closes the alert, after which nothing can be sent |
| Compose.ComposeForm.PhotoPicked | Postcard/ContentView.swift:334-341 | a newly picked item replaces the photo when it decodes; otherwise the photo stays; nothing else changes |
| Compose.ComposeForm.EditMessage | Postcard/ContentView.swift:185 | typing changes only the message |
| Compose.ComposeForm.SelectRecipient | Postcard/ContentView.swift:344-346 | choosing a contact changes only the recipient |
| Compose.ComposeForm.SendPostcard | Postcard/ContentView.swift:370-388 | returns the built postcard and sets `isSaving`, or changes nothing when the guard fails |
| Compose.ComposeForm.SendButtonTapped | Postcard/ContentView.swift:278-282 | the button's own `canSendPostcard` check is redundant: the outcome equals that of `sendPostcard` alone |
| Compose.ComposeForm.SendCompleted | Postcard/ContentView.swift:403-407 | completion shows the confirmation and clears `isSaving`, changing nothing else |

## Left out

- Network and database I/O are parameters: the Firestore query, update and add; PostGrid `createContact`; `fetch`; `URLSession`; Firebase Storage. So are their logs and the HTTP response bodies.
- `createPostcardAsset` (index.ts:196-265) is not part of this model: PDF layout in floating point, the file system and image downloads. Its outcome is a parameter. `functionsToAdd.js` duplicates it.
- Configuration is not modelled: reading credentials from the environment at module load (index.ts:20-32) and from `Config.plist`. The thank-you call's URL and headers are not modelled either.
- UI rendering, animation, haptics, sheets and pickers are not modelled, nor the button press flags (`isSendPressed` and the others). Also left out: `SentPostcardsView`, `FirebaseManager`, `Image+UIImage` and the app entry point.
- Timers are not modelled. The 0.1-second focus on showing the back is out. The 2-second reset after a send is the caller's separate `ResetForm` call. Late photo loads racing a reset are out.
- Concurrency is not modelled: duplicate or concurrent webhook deliveries can race between the query and the update. Each invocation is modelled as one sequential call. `Backend.RepeatedReplyAnswersOlder` covers only a sequential redelivery.
- `serverTimestamp()` and `Date()` become `nat` parameters.
- Backend.PostcardCollection.HandleSendblueWebhook: among documents created at the same instant it answers the first in sequence order. Firestore leaves that order open, so the contract names one of the newest documents, not a particular one.
- Backend.PostcardCollection.HandleSendblueWebhook: the request fields are strings or absent. A non-string `from_number` makes `formatPhoneNumber` throw, which the source turns into 500. The model does not cover it.
- Backend.PostcardCollection.CreateAndSendPostcard: request fields are strings or absent. JavaScript truthiness of other JSON values is not modelled.
- Sendblue.SendInitialMessage: the JSON encoding of the payload is treated as infallible. A throw there would escape without being wrapped.
- Sendblue.SwiftAgreesWithBackend: holds for ASCII digits. `CharacterSet.decimalDigits` also accepts other Unicode digits, which JavaScript's `\D` strips.
- Contacts.Lower: folds ASCII letters only. Swift's `lowercased()` is Unicode-aware.
- Contacts.Less: orders strings by character code. Swift compares strings by Unicode canonical equivalence.
- Contacts.ContactPicker.LoadContacts: fixes one order among contacts with equal sort keys. Swift's `sorted(by:)` does not promise that order. The permutation and sortedness hold for any order.
- Backend.Windows1252: maps the five unassigned bytes to the control character of the same number. Decoders differ there, and the mailbox bytes do not use them.

## Findings

| source | as written | input that shows it | evidently intended | confidence | as-written member | corrected member |
|---|---|---|---|---|---|---|
| firebase-functions/functions/src/index.ts:95 | the thank-you literal ends in U+00F0 U+0178 U+201C U+00AC (`ðŸ“¬`): the UTF-8 bytes F0 9F 93 AC of the mailbox emoji read back as Windows-1252 | any successful webhook call: the recipient's thank-you text ends in those four characters | the text ends with the emoji U+1F4EC | high, not executed | Backend.ThankYouTextMisencoded | Backend.ThankYouTextEndsWithMailbox |

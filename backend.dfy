/** The backend Cloud Functions (firebase-functions/functions/src/index.ts, and the older compiled
    build index.js): the inbound-reply webhook that records a recipient's address on the newest
    postcard awaiting one, and the order endpoint that validates a request and stores a
    `created` postcard. The `postcards` collection is an in-memory sequence of documents; the
    outcomes of Firestore, PostGrid, PDF and network calls are parameters. */
module Backend {
  import opened Wrappers
  import PhoneFormat

  const AddressRequested := "addressRequested"
  const AddressReceived := "addressReceived"
  const Created := "created"

  /** `SENDBLUE_CONFIG.fromNumber` */
  const FromNumber := "+14152005823"

  const ThankYouPrefix := "Thank you! Your postcard will be on its way soon! "

  /** U+1F4EC, the open mailbox emoji. */
  const Mailbox: char := '\U{1F4EC}'

  /** The thank-you text as index.ts spells it, which the webhook below sends: it ends in four
      Latin characters, not in the emoji. */
  const ThankYouTextAsWritten := ThankYouPrefix + "\U{F0}\U{178}\U{201C}\U{AC}"

  /** The thank-you text evidently intended: the same message ending in the emoji. */
  const ThankYouText := ThankYouPrefix + [Mailbox]

  // ---------------------------------------------------------------------------------------------
  // How the thank-you text came to be misspelt

  /** UTF-8 encoding of a code point outside the Basic Multilingual Plane: four bytes. */
  function Utf8FourBytes(cp: int): (bytes: seq<int>)
    requires 0x10000 <= cp <= 0x10FFFF
    ensures |bytes| == 4 && 0xF0 <= bytes[0] <= 0xF4
    ensures forall k :: 1 <= k < 4 ==> 0x80 <= bytes[k] <= 0xBF
    ensures (bytes[0] - 0xF0) * 0x40000 + (bytes[1] - 0x80) * 0x1000 + (bytes[2] - 0x80) * 0x40 + (bytes[3] - 0x80) == cp
  {
    [0xF0 + cp / 0x40000, 0x80 + cp / 0x1000 % 0x40, 0x80 + cp / 0x40 % 0x40, 0x80 + cp % 0x40]
  }

  /** The Windows-1252 characters of the bytes 0x80 to 0x9F; its five unassigned bytes stand
      for the control character of the same number. */
  const Windows1252High: seq<char> := [
    '\U{20AC}', '\U{81}', '\U{201A}', '\U{192}', '\U{201E}', '\U{2026}', '\U{2020}', '\U{2021}',
    '\U{2C6}', '\U{2030}', '\U{160}', '\U{2039}', '\U{152}', '\U{8D}', '\U{17D}', '\U{8F}',
    '\U{90}', '\U{2018}', '\U{2019}', '\U{201C}', '\U{201D}', '\U{2022}', '\U{2013}', '\U{2014}',
    '\U{2DC}', '\U{2122}', '\U{161}', '\U{203A}', '\U{153}', '\U{9D}', '\U{17E}', '\U{178}']

  /** The character a byte denotes in Windows-1252; every other byte is the Latin-1 character. */
  function Windows1252(b: int): char
    requires 0 <= b < 0x100
  {
    if 0x80 <= b < 0xA0 then Windows1252High[b - 0x80] else b as char
  }

  /** A character beyond the Basic Multilingual Plane, encoded as UTF-8 and read back as Windows-1252. */
  function Misdecoded(c: char): string
    requires 0x10000 <= c as int
  {
    var bytes := Utf8FourBytes(c as int);
    [Windows1252(bytes[0]), Windows1252(bytes[1]), Windows1252(bytes[2]), Windows1252(bytes[3])]
  }

  /** The text index.ts sends is the intended one with its emoji encoded as UTF-8 and decoded as
      Windows-1252, so the recipient reads four stray characters instead of the mailbox. */
  lemma ThankYouTextMisencoded()
    ensures ThankYouTextAsWritten == ThankYouPrefix + Misdecoded(Mailbox)
    ensures ThankYouTextAsWritten != ThankYouText
    ensures Mailbox !in ThankYouTextAsWritten[|ThankYouPrefix|..]
  {
    assert Utf8FourBytes(Mailbox as int) == [0xF0, 0x9F, 0x93, 0xAC];
    assert |ThankYouTextAsWritten| == |ThankYouText| + 3;
    assert ThankYouTextAsWritten[|ThankYouPrefix|..] == "\U{F0}\U{178}\U{201C}\U{AC}";
  }

  /** The corrected text is the prefix followed by the mailbox emoji, as a single character. */
  lemma ThankYouTextEndsWithMailbox()
    ensures ThankYouText[..|ThankYouText| - 1] == ThankYouPrefix
    ensures ThankYouText[|ThankYouText| - 1] == Mailbox
    ensures |ThankYouText| == |ThankYouPrefix| + 1
  {
  }

  // ---------------------------------------------------------------------------------------------
  // Documents of the `postcards` collection

  /** The `recipientDetails` map that `createAndSendPostcard` stores. */
  datatype RecipientDetails = RecipientDetails(
    addressLine1: string,
    provinceOrState: string,
    postalOrZip: string,
    countryCode: string,
    firstName: string,
    lastName: string,
    phoneNumber: string)

  /** The fields that only `createAndSendPostcard` writes. */
  datatype Order = Order(
    contactId: string,
    pdfPath: string,
    message: string,
    imageUrl: string,
    recipientDetails: RecipientDetails)

  /** One document. Firestore documents are schemaless: a field that a writer never set is `None`,
      and a query on `recipientPhone` never matches a document without that field. */
  datatype PostcardDoc = PostcardDoc(
    recipientPhone: Option<string>,
    status: string,
    dateCreated: nat,
    address: Option<string>,
    addressReceivedAt: Option<nat>,
    order: Option<Order>)

  /** The document is waiting for the address of the recipient with key `phone`. */
  predicate Awaiting(d: PostcardDoc, phone: string)
  {
    d.recipientPhone == Some(phone) && d.status == AddressRequested
  }

  predicate AnyAwaiting(docs: seq<PostcardDoc>, phone: string)
  {
    exists i :: 0 <= i < |docs| && Awaiting(docs[i], phone)
  }

  /** Document `i` is one that `.where(recipientPhone == phone).where(status == addressRequested)
      .orderBy('dateCreated', 'desc').limit(1)` may return: awaiting, and created no earlier than
      any other awaiting document for the same key. */
  predicate IsNewestAwaiting(docs: seq<PostcardDoc>, i: int, phone: string)
  {
    && 0 <= i < |docs|
    && Awaiting(docs[i], phone)
    && forall j :: 0 <= j < |docs| && Awaiting(docs[j], phone) ==> docs[j].dateCreated <= docs[i].dateCreated
  }

  /** The number of documents awaiting an address for `phone`. */
  function CountAwaiting(docs: seq<PostcardDoc>, phone: string): nat
  {
    if docs == [] then 0
    else (if Awaiting(docs[0], phone) then 1 else 0) + CountAwaiting(docs[1..], phone)
  }

  /** The document after `postcard.ref.update({address, status: 'addressReceived'[, addressReceivedAt]})`:
      the reply text is stored verbatim, and `receivedAt` is written only when given. */
  function Answered(d: PostcardDoc, content: string, receivedAt: Option<nat>): (r: PostcardDoc)
    ensures r.address == Some(content) && r.status == AddressReceived
    ensures r.recipientPhone == d.recipientPhone && r.dateCreated == d.dateCreated && r.order == d.order
    ensures r.addressReceivedAt == (if receivedAt.Some? then receivedAt else d.addressReceivedAt)
  {
    var updated := d.(address := Some(content), status := AddressReceived);
    if receivedAt.Some? then updated.(addressReceivedAt := receivedAt) else updated
  }

  /** `after` is `before` with exactly the newest awaiting document for `phone` answered. */
  ghost predicate AnsweredNewest(before: seq<PostcardDoc>, after: seq<PostcardDoc>, phone: string,
                                 content: string, receivedAt: Option<nat>)
  {
    exists i :: IsNewestAwaiting(before, i, phone) && after == before[i := Answered(before[i], content, receivedAt)]
  }

  /** The Firestore query of the webhook: the index of a newest awaiting document, if any. Among
      documents created at the same instant the first one is returned; Firestore leaves that
      order open. */
  method FindNewestAwaiting(docs: seq<PostcardDoc>, phone: string) returns (found: Option<nat>)
    ensures found.None? <==> !AnyAwaiting(docs, phone)
    ensures found.Some? ==> IsNewestAwaiting(docs, found.value, phone)
  {
    found := None;
    var i := 0;
    while i < |docs|
      invariant 0 <= i <= |docs|
      invariant found.None? <==> forall j :: 0 <= j < i ==> !Awaiting(docs[j], phone)
      invariant found.Some? ==> found.value < i && Awaiting(docs[found.value], phone)
      invariant found.Some? ==> forall j :: 0 <= j < i && Awaiting(docs[j], phone) ==>
                                  docs[j].dateCreated <= docs[found.value].dateCreated
    {
      if Awaiting(docs[i], phone) && (found.None? || docs[found.value].dateCreated < docs[i].dateCreated) {
        found := Some(i);
      }
      i := i + 1;
    }
  }

  // ---------------------------------------------------------------------------------------------
  // Counting awaiting documents: what a second delivery of the same reply finds

  lemma {:induction false} CountZeroIffNoneAwaiting(docs: seq<PostcardDoc>, phone: string)
    ensures CountAwaiting(docs, phone) == 0 <==> !AnyAwaiting(docs, phone)
  {
    if docs != [] {
      CountZeroIffNoneAwaiting(docs[1..], phone);
      if AnyAwaiting(docs[1..], phone) {
        var j :| 0 <= j < |docs[1..]| && Awaiting(docs[1..][j], phone);
        assert Awaiting(docs[j + 1], phone);
      }
      if AnyAwaiting(docs, phone) && !Awaiting(docs[0], phone) {
        var j :| 0 <= j < |docs| && Awaiting(docs[j], phone);
        assert Awaiting(docs[1..][j - 1], phone);
      }
    }
  }

  /** Answering one awaiting document for `phone` lowers the number awaiting for `phone` by one
      and leaves the number awaiting for every other key as it was. */
  lemma {:induction false} AnsweringRemovesOne(docs: seq<PostcardDoc>, i: nat, phone: string, content: string,
                                               receivedAt: Option<nat>, other: string)
    requires i < |docs| && Awaiting(docs[i], phone)
    ensures CountAwaiting(docs[i := Answered(docs[i], content, receivedAt)], phone) == CountAwaiting(docs, phone) - 1
    ensures other != phone ==>
              CountAwaiting(docs[i := Answered(docs[i], content, receivedAt)], other) == CountAwaiting(docs, other)
  {
    var after := docs[i := Answered(docs[i], content, receivedAt)];
    if i == 0 {
      assert after[1..] == docs[1..];
    } else {
      assert after[1..] == docs[1..][i - 1 := Answered(docs[i], content, receivedAt)];
      AnsweringRemovesOne(docs[1..], i - 1, phone, content, receivedAt, other);
    }
  }

  /** A reply delivered twice answers a second, older postcard for the same number, or finds none. */
  lemma RepeatedReplyAnswersOlder(docs: seq<PostcardDoc>, i: nat, j: nat, phone: string, content: string,
                                  receivedAt: Option<nat>)
    requires IsNewestAwaiting(docs, i, phone)
    requires IsNewestAwaiting(docs[i := Answered(docs[i], content, receivedAt)], j, phone)
    ensures j != i && docs[j].dateCreated <= docs[i].dateCreated
    ensures CountAwaiting(docs, phone) >= 2
  {
    var after := docs[i := Answered(docs[i], content, receivedAt)];
    AnsweringRemovesOne(docs, i, phone, content, receivedAt, phone);
    CountZeroIffNoneAwaiting(after, phone);
  }

  // ---------------------------------------------------------------------------------------------
  // Requests and collaborators

  /** The parts of an inbound webhook call the handler reads. */
  datatype WebhookRequest = WebhookRequest(httpMethod: string, fromNumber: Option<string>, content: Option<string>)

  /** A Firestore call that throws: the query, or the update of the matched document. */
  datatype StoreFault = NoFault | QueryFails | UpdateFails

  /** The thank-you `fetch`: it throws, or answers with an HTTP status. */
  datatype FetchResult = FetchThrew | FetchResponded(statusCode: int)

  /** An outbound Sendblue message. */
  datatype Message = Message(fromNumber: string, number: string, content: string)

  /** The webhook gets past the verb and field checks. */
  predicate Accepted(request: WebhookRequest)
  {
    request.httpMethod == "POST" && Truthy(request.fromNumber) && Truthy(request.content)
  }

  /** The key under which the sender is looked up. */
  function SenderKey(request: WebhookRequest): string
    requires Accepted(request)
  {
    PhoneFormat.FormatPhoneNumber(request.fromNumber.value)
  }

  /** The fields of the order request body, each possibly missing. */
  datatype DetailsFields = DetailsFields(
    addressLine1: Option<string>,
    provinceOrState: Option<string>,
    postalOrZip: Option<string>,
    countryCode: Option<string>,
    firstName: Option<string>,
    lastName: Option<string>,
    phoneNumber: Option<string>)

  datatype CreateRequest = CreateRequest(
    httpMethod: string,
    message: Option<string>,
    imageUrl: Option<string>,
    recipientDetails: Option<DetailsFields>)

  /** An awaited call into code outside the model (PostGrid, the PDF builder): its result or a throw. */
  datatype CallResult = Returned(value: string) | CallThrew

  /** The JSON body of a successful order response. */
  datatype CreateReply = CreateReply(success: bool, contactId: string, pdfPath: string)

  /** The eight required fields are all present and non-empty. */
  predicate HasRequiredFields(request: CreateRequest)
    requires request.recipientDetails.Some?
  {
    var d := request.recipientDetails.value;
    && Truthy(request.message) && Truthy(request.imageUrl)
    && Truthy(d.addressLine1) && Truthy(d.provinceOrState) && Truthy(d.postalOrZip)
    && Truthy(d.countryCode) && Truthy(d.firstName) && Truthy(d.lastName)
  }

  /** The recipient details passed to `createContact` and stored: the phone number is optional
      and defaults to the empty string. */
  function DetailsOf(request: CreateRequest): (r: RecipientDetails)
    requires request.recipientDetails.Some? && HasRequiredFields(request)
    ensures r.phoneNumber == OrEmpty(request.recipientDetails.value.phoneNumber)
    ensures r.firstName != "" && r.lastName != "" && r.addressLine1 != "" && r.provinceOrState != ""
    ensures r.postalOrZip != "" && r.countryCode != ""
  {
    var d := request.recipientDetails.value;
    RecipientDetails(d.addressLine1.value, d.provinceOrState.value, d.postalOrZip.value,
                     d.countryCode.value, d.firstName.value, d.lastName.value, OrEmpty(d.phoneNumber))
  }

  /** The order document written by a successful `createAndSendPostcard`. */
  function CreatedDoc(request: CreateRequest, contactId: string, pdfPath: string, now: nat): (d: PostcardDoc)
    requires request.recipientDetails.Some? && HasRequiredFields(request)
    ensures d.status == Created && d.recipientPhone.None? && d.address.None?
    ensures forall phone :: !Awaiting(d, phone)
  {
    PostcardDoc(None, Created, now, None, None,
                Some(Order(contactId, pdfPath, request.message.value, request.imageUrl.value, DetailsOf(request))))
  }

  /** Storing an order never gives anyone a postcard to answer. */
  lemma AppendingOrderKeepsAwaiting(docs: seq<PostcardDoc>, d: PostcardDoc, phone: string)
    requires d.status == Created
    ensures AnyAwaiting(docs + [d], phone) <==> AnyAwaiting(docs, phone)
  {
    if AnyAwaiting(docs + [d], phone) {
      var j :| 0 <= j < |docs + [d]| && Awaiting((docs + [d])[j], phone);
      assert j < |docs| && Awaiting(docs[j], phone);
    }
    if AnyAwaiting(docs, phone) {
      var j :| 0 <= j < |docs| && Awaiting(docs[j], phone);
      assert Awaiting((docs + [d])[j], phone);
    }
  }

  // ---------------------------------------------------------------------------------------------
  // The collection and the two endpoints

  class PostcardCollection {
    var docs: seq<PostcardDoc>

    /** A collection seeded with documents, among them those already awaiting an address (the
        code that moves a postcard to `addressRequested` is not part of this model). */
    constructor (seed: seq<PostcardDoc>)
      ensures docs == seed
    {
      docs := seed;
    }

    /** `handleSendblueWebhook` (index.ts): answers the newest postcard awaiting the sender's
        address, then thanks the sender, best-effort. Returns the HTTP status, the thank-you
        message if one was sent and whether the gateway accepted it. */
    method HandleSendblueWebhook(request: WebhookRequest, fault: StoreFault, thankYouResult: FetchResult, now: nat)
      returns (status: int, thankYou: Option<Message>, thankYouAccepted: bool)
      modifies this
      ensures status in {200, 400, 404, 405, 500}
      ensures request.httpMethod != "POST" ==> status == 405
      ensures request.httpMethod == "POST" && !Accepted(request) ==> status == 400
      ensures Accepted(request) && fault == QueryFails ==> status == 500
      ensures Accepted(request) && fault != QueryFails && !AnyAwaiting(old(docs), SenderKey(request)) ==> status == 404
      ensures Accepted(request) && fault == UpdateFails && AnyAwaiting(old(docs), SenderKey(request)) ==> status == 500
      ensures status != 200 ==> docs == old(docs) && thankYou.None?
      ensures status == 200 <==>
                Accepted(request) && fault == NoFault && AnyAwaiting(old(docs), SenderKey(request))
      ensures status == 200 ==>
                && AnsweredNewest(old(docs), docs, SenderKey(request), request.content.value, Some(now))
                && thankYou == Some(Message(FromNumber, SenderKey(request), ThankYouTextAsWritten))
      ensures thankYouAccepted <==>
                thankYou.Some? && thankYouResult.FetchResponded? && 200 <= thankYouResult.statusCode <= 299
    {
      thankYou, thankYouAccepted := None, false;
      if request.httpMethod != "POST" {
        return 405, thankYou, thankYouAccepted;
      }
      if !Truthy(request.fromNumber) || !Truthy(request.content) {
        return 400, thankYou, thankYouAccepted;
      }
      var formattedPhone := PhoneFormat.FormatPhoneNumber(request.fromNumber.value);
      if fault == QueryFails {
        return 500, thankYou, thankYouAccepted;
      }
      var found := FindNewestAwaiting(docs, formattedPhone);
      if found.None? {
        return 404, thankYou, thankYouAccepted;
      }
      if fault == UpdateFails {
        return 500, thankYou, thankYouAccepted;
      }
      var i := found.value;
      docs := docs[i := Answered(docs[i], request.content.value, Some(now))];

      // The thank-you: a throw or a non-OK answer is logged and swallowed.
      thankYou := Some(Message(FromNumber, formattedPhone, ThankYouTextAsWritten));
      thankYouAccepted := thankYouResult.FetchResponded? && 200 <= thankYouResult.statusCode <= 299;
      status := 200;
    }

    /** `handleSendblueWebhook` as built in index.js: the same matching and update, without
        `addressReceivedAt` and without a thank-you message. */
    method HandleSendblueWebhookLegacy(request: WebhookRequest, fault: StoreFault) returns (status: int)
      modifies this
      ensures status in {200, 400, 404, 405, 500}
      ensures request.httpMethod != "POST" ==> status == 405
      ensures request.httpMethod == "POST" && !Accepted(request) ==> status == 400
      ensures Accepted(request) && fault == QueryFails ==> status == 500
      ensures Accepted(request) && fault != QueryFails && !AnyAwaiting(old(docs), SenderKey(request)) ==> status == 404
      ensures Accepted(request) && fault == UpdateFails && AnyAwaiting(old(docs), SenderKey(request)) ==> status == 500
      ensures status != 200 ==> docs == old(docs)
      ensures status == 200 <==>
                Accepted(request) && fault == NoFault && AnyAwaiting(old(docs), SenderKey(request))
      ensures status == 200 ==> AnsweredNewest(old(docs), docs, SenderKey(request), request.content.value, None)
    {
      if request.httpMethod != "POST" {
        return 405;
      }
      if !Truthy(request.fromNumber) || !Truthy(request.content) {
        return 400;
      }
      var formattedPhone := PhoneFormat.FormatPhoneNumber(request.fromNumber.value);
      if fault == QueryFails {
        return 500;
      }
      var found := FindNewestAwaiting(docs, formattedPhone);
      if found.None? {
        return 404;
      }
      if fault == UpdateFails {
        return 500;
      }
      var i := found.value;
      docs := docs[i := Answered(docs[i], request.content.value, None)];
      status := 200;
    }

    /** `createAndSendPostcard` (index.ts): validates the order, creates the PostGrid contact,
        builds the PDF and stores a `created` document. `contact`, `asset` and `addFails` are the
        outcomes of those three calls; `contactRequest` is what `createContact` was called with. */
    method CreateAndSendPostcard(request: CreateRequest, contact: CallResult, asset: CallResult, addFails: bool, now: nat)
      returns (status: int, reply: Option<CreateReply>, contactRequest: Option<RecipientDetails>)
      modifies this
      ensures status in {200, 400, 405, 500}
      ensures request.httpMethod != "POST" ==> status == 405 && contactRequest.None?
      ensures request.httpMethod == "POST" && request.recipientDetails.None? ==> status == 500 && contactRequest.None?
      ensures request.httpMethod == "POST" && request.recipientDetails.Some? && !HasRequiredFields(request) ==>
                status == 400 && contactRequest.None?
      ensures request.httpMethod == "POST" && request.recipientDetails.Some? && HasRequiredFields(request) ==>
                && contactRequest == Some(DetailsOf(request))
                && (status == 200 <==> contact.Returned? && asset.Returned? && !addFails)
                && (status != 200 ==> status == 500)
      ensures !(contact.Returned? && asset.Returned? && !addFails) ==> docs == old(docs) && reply.None?
      ensures status != 200 ==> docs == old(docs) && reply.None?
      ensures status == 200 ==>
                && request.recipientDetails.Some? && HasRequiredFields(request)
                && contact.Returned? && asset.Returned?
                && docs == old(docs) + [CreatedDoc(request, contact.value, asset.value, now)]
                && reply == Some(CreateReply(true, contact.value, asset.value))
    {
      reply, contactRequest := None, None;
      if request.httpMethod != "POST" {
        return 405, reply, contactRequest;
      }
      // Destructuring a missing `recipientDetails` throws inside the `try`.
      if request.recipientDetails.None? {
        return 500, reply, contactRequest;
      }
      if !HasRequiredFields(request) {
        return 400, reply, contactRequest;
      }
      contactRequest := Some(DetailsOf(request));
      if contact.CallThrew? {
        return 500, reply, contactRequest;
      }
      if asset.CallThrew? {
        return 500, reply, contactRequest;
      }
      if addFails {
        return 500, reply, contactRequest;
      }
      docs := docs + [CreatedDoc(request, contact.value, asset.value, now)];
      reply := Some(CreateReply(true, contact.value, asset.value));
      status := 200;
    }
  }
}

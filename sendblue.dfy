/** The client's messaging gateway wrapper (Postcard/SendblueManager.swift): its own copy of the phone
    normaliser, the credential guard of its initialiser, and the address-request send with its
    error classification. The network exchange itself is a parameter. */
module Sendblue {
  import opened Wrappers
  import PhoneFormat

  // ---------------------------------------------------------------------------------------------
  // The Swift phone normaliser

  /** `phone.components(separatedBy: CharacterSet.decimalDigits.inverted)`: the runs of digits
      between the non-digit characters, one more run than there are separators (runs may be
      empty). */
  function Components(s: string): (parts: seq<string>)
    ensures |parts| >= 1
    ensures forall k :: 0 <= k < |parts| ==> PhoneFormat.AllDigits(parts[k])
  {
    if s == [] then [""]
    else
      var rest := Components(s[1..]);
      if PhoneFormat.IsDigit(s[0]) then [[s[0]] + rest[0]] + rest[1..] else [""] + rest
  }

  /** `.joined()`: the parts concatenated with no separator. */
  function Joined(parts: seq<string>): string
  {
    if parts == [] then "" else parts[0] + Joined(parts[1..])
  }

  /** `SendblueManager.formatPhoneNumber`. */
  function FormatPhoneNumberSwift(phone: string): string
  {
    var numbers := Joined(Components(phone));
    if "1" <= numbers && |numbers| == 11 then "+" + numbers else "+1" + numbers
  }

  /** Splitting at non-digits and joining the pieces keeps exactly the digits, in order. */
  lemma {:induction false} JoinedComponentsAreDigits(s: string)
    ensures Joined(Components(s)) == PhoneFormat.Digits(s)
  {
    if s != [] {
      JoinedComponentsAreDigits(s[1..]);
      var rest := Components(s[1..]);
      assert rest == [rest[0]] + rest[1..];
      if PhoneFormat.IsDigit(s[0]) {
        var parts := [[s[0]] + rest[0]] + rest[1..];
        assert parts[1..] == rest[1..];
        assert Joined(parts) == [s[0]] + rest[0] + Joined(rest[1..]);
      } else {
        var parts := [""] + rest;
        assert parts[1..] == rest;
      }
    }
  }

  /** The client's key and the backend's key are the same string for every input, so for ten-digit
      numbers and eleven-digit numbers led by `1` (`PhoneFormat.IdempotentIff`) the number the
      client texts is the key the webhook looks up when the recipient replies. */
  lemma SwiftAgreesWithBackend(phone: string)
    ensures FormatPhoneNumberSwift(phone) == PhoneFormat.FormatPhoneNumber(phone)
  {
    JoinedComponentsAreDigits(phone);
  }

  /** The test contact's number `917-477-9901` becomes `+19174779901` on the client as well. */
  lemma TestContactKeySwift()
    ensures FormatPhoneNumberSwift("917" + "-" + "477" + "-" + "9901") == "+19174779901"
  {
    SwiftAgreesWithBackend("917" + "-" + "477" + "-" + "9901");
    PhoneFormat.TestContactKey();
  }

  // ---------------------------------------------------------------------------------------------
  // The manager

  const BaseUrl := "https://api.sendblue.co/api"
  const FromNumber := "+14152005823"
  const AddressRequestText :=
    "Hi! Annabel Strauss is trying to send you a postcard \U{1F48C} What address should we send it to?"

  /** `SendblueError`. `networkError` wraps any Swift `Error`: a transport failure or one of these. */
  datatype SendblueError =
    | InvalidResponse
    | ApiError(message: string, statusCode: int)
    | NetworkError(cause: Cause)
    | InvalidPhoneNumber
    | InvalidConfiguration

  datatype Cause = TransportFailure | Thrown(error: SendblueError)

  /** The shared instance, with the credentials read at start-up. */
  datatype Manager = Manager(apiKey: string, apiSecret: string)

  /** The private initialiser: it refuses to build a manager (a fatal error in the app) unless
      both credentials are non-empty. */
  function Init(apiKey: string, apiSecret: string): (m: Option<Manager>)
    ensures m.Some? <==> apiKey != "" && apiSecret != ""
    ensures m.Some? ==> m.value.apiKey == apiKey && m.value.apiSecret == apiSecret
  {
    if apiKey == "" || apiSecret == "" then None else Some(Manager(apiKey, apiSecret))
  }

  /** The JSON body of a send-message call. */
  datatype Payload = Payload(fromNumber: string, number: string, content: string)

  /** The fields of a `URLRequest` that the send sets. */
  datatype Request = Request(url: string, httpMethod: string, headers: map<string, string>, body: Option<Payload>)

  /** What `URLSession.shared.data(for:)` yields: it throws, or answers with a response that is
      not HTTP, or with an HTTP status code. */
  datatype Exchange = TransportFailed | NonHttpResponse | HttpResponse(statusCode: int)

  /** `sendInitialMessage(to:)`: builds the request, performs the exchange and classifies it. */
  method SendInitialMessage(manager: Manager, phoneNumber: string, exchange: Exchange)
    returns (request: Request, result: Outcome<SendblueError>)
    ensures request.url == BaseUrl + "/send-message" && request.httpMethod == "POST"
    ensures request.headers == map["Content-Type" := "application/json",
                                   "SB-API-KEY-ID" := manager.apiKey,
                                   "SB-API-SECRET-KEY" := manager.apiSecret]
    ensures request.body == Some(Payload(FromNumber, PhoneFormat.FormatPhoneNumber(phoneNumber), AddressRequestText))
    ensures result.Pass? <==> exchange.HttpResponse? && 200 <= exchange.statusCode <= 299
    ensures result.Fail? ==> result.error.NetworkError?
    ensures exchange.TransportFailed? ==> result == Fail(NetworkError(TransportFailure))
    ensures exchange.NonHttpResponse? ==> result == Fail(NetworkError(Thrown(InvalidResponse)))
    ensures exchange.HttpResponse? && !(200 <= exchange.statusCode <= 299) ==>
              result == Fail(NetworkError(Thrown(ApiError("Failed to send initial message", exchange.statusCode))))
  {
    var formattedPhone := FormatPhoneNumberSwift(phoneNumber);
    SwiftAgreesWithBackend(phoneNumber);
    var endpoint := BaseUrl + "/send-message";
    var parameters := Payload(FromNumber, formattedPhone, AddressRequestText);

    request := Request(endpoint, "GET", map[], None);
    request := request.(httpMethod := "POST");
    request := request.(headers := request.headers["Content-Type" := "application/json"]);
    request := request.(headers := request.headers["SB-API-KEY-ID" := manager.apiKey]);
    request := request.(headers := request.headers["SB-API-SECRET-KEY" := manager.apiSecret]);
    request := request.(body := Some(parameters));

    // The `do` block: the error it throws, if any.
    var thrown: Option<Cause> := None;
    match exchange {
      case TransportFailed =>
        thrown := Some(TransportFailure);
      case NonHttpResponse =>
        thrown := Some(Thrown(InvalidResponse));
      case HttpResponse(statusCode) =>
        if !(200 <= statusCode <= 299) {
          thrown := Some(Thrown(ApiError("Failed to send initial message", statusCode)));
        }
    }

    // The `catch`: whatever was thrown leaves as `networkError`.
    result := if thrown.None? then Pass else Fail(NetworkError(thrown.value));
  }
}

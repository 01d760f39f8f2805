/** The client's value types (Postcard/PostcardModel.swift). Every field of these Swift structs is
    a `let`, so a value never changes after construction; Dafny datatypes are immutable values in
    the same way. */
module PostcardModel {
  import opened Wrappers

  /** `PostcardData.PostcardStatus`, a `String`-backed enum. */
  datatype PostcardStatus = Pending | Sent | Failed

  /** `rawValue`: the case name, as Swift derives it for a `String` enum without explicit values. */
  function RawValue(s: PostcardStatus): string
  {
    match s
    case Pending => "pending"
    case Sent => "sent"
    case Failed => "failed"
  }

  /** `PostcardStatus(rawValue:)`, the failable initialiser that `Codable` decoding uses. */
  function FromRawValue(raw: string): (r: Option<PostcardStatus>)
    ensures r.Some? ==> RawValue(r.value) == raw
    ensures r.None? ==> forall s: PostcardStatus :: RawValue(s) != raw
  {
    if raw == "pending" then Some(Pending)
    else if raw == "sent" then Some(Sent)
    else if raw == "failed" then Some(Failed)
    else None
  }

  /** Decoding an encoded status gives the status back. */
  lemma RawValueRoundTrip(s: PostcardStatus)
    ensures FromRawValue(RawValue(s)) == Some(s)
  {
  }

  /** Distinct statuses encode to distinct strings. */
  lemma RawValueInjective(s: PostcardStatus, t: PostcardStatus)
    ensures RawValue(s) == RawValue(t) ==> s == t
  {
  }

  /** The backend's own status strings are not statuses the client can decode. */
  lemma BackendStatusesDoNotDecode()
    ensures FromRawValue("addressRequested") == None
    ensures FromRawValue("addressReceived") == None
    ensures FromRawValue("created") == None
  {
  }

  /** The bytes of an encoded image (`Data`). */
  type Bytes = seq<bv8>

  /** `PostcardData`; `Date` becomes a number of time units. */
  datatype PostcardData = PostcardData(
    imageData: Bytes,
    message: string,
    recipientName: string,
    recipientPhone: string,
    dateCreated: nat,
    status: PostcardStatus)

  /** `Recipient`: a display name and a phone number exactly as the address book spells it. */
  datatype Recipient = Recipient(name: string, phone: string)
}

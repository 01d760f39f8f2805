/** The contact picker (Postcard/ContactSelectionView.swift): the search filter over
    `"given family"`, one selectable row per phone number, and `loadContacts`, which keeps the
    contacts that have a phone number and sorts them by lower-cased given name. Letters are
    folded to lower case in ASCII only. */
module Contacts {
  import opened Wrappers
  import opened PostcardModel
  import PhoneFormat
  import Sendblue

  /** `CNLabeledValue<CNPhoneNumber>`: an identifier and the number as the address book spells it. */
  datatype LabeledPhone = LabeledPhone(identifier: string, stringValue: string)

  /** The three keys `loadContacts` fetches, and the identifier rows are keyed by. */
  datatype Contact = Contact(identifier: string, givenName: string, familyName: string,
                             phoneNumbers: seq<LabeledPhone>)

  /** `"\(contact.givenName) \(contact.familyName)"` */
  function FullName(c: Contact): string
  {
    c.givenName + " " + c.familyName
  }

  function LowerChar(c: char): char
  {
    if 'A' <= c <= 'Z' then (c as int + 32) as char else c
  }

  /** `lowercased()`, ASCII letters only. */
  function Lower(s: string): string
  {
    seq(|s|, i requires 0 <= i < |s| => LowerChar(s[i]))
  }

  /** `s.contains(sub)`: `sub` occurs in `s` as a contiguous run. */
  predicate Contains(s: string, sub: string)
  {
    exists i :: 0 <= i <= |s| && sub <= s[i..]
  }

  // ---------------------------------------------------------------------------------------------
  // filterContacts

  /** The contact's lower-cased full name contains the (already lower-cased) query. */
  predicate Matches(c: Contact, query: string)
  {
    Contains(Lower(FullName(c)), query)
  }

  /** `contacts.filter { ... }` with the query already lower-cased. */
  function MatchingContacts(contacts: seq<Contact>, query: string): seq<Contact>
  {
    if contacts == [] then []
    else (if Matches(contacts[0], query) then [contacts[0]] else []) + MatchingContacts(contacts[1..], query)
  }

  /** `filterContacts`: everything for an empty search, else the contacts whose full name
      contains the search text, both sides lower-cased. */
  function FilterContacts(contacts: seq<Contact>, searchText: string): seq<Contact>
  {
    if searchText == "" then contacts else MatchingContacts(contacts, Lower(searchText))
  }

  /** The contacts `FilterContacts` is meant to keep. */
  predicate Kept(c: Contact, searchText: string)
  {
    searchText == "" || Matches(c, Lower(searchText))
  }

  /** `sub` is `s` with some elements left out, the rest in their original order. */
  predicate IsSubsequence<T(==)>(sub: seq<T>, s: seq<T>)
  {
    if sub == [] then true
    else if s == [] then false
    else (sub[0] == s[0] && IsSubsequence(sub[1..], s[1..])) || IsSubsequence(sub, s[1..])
  }

  lemma {:induction false} SubsequenceReflexive<T>(s: seq<T>)
    ensures IsSubsequence(s, s)
  {
    if s != [] {
      SubsequenceReflexive(s[1..]);
    }
  }

  lemma {:induction false} MatchingIsSubsequence(contacts: seq<Contact>, query: string)
    ensures IsSubsequence(MatchingContacts(contacts, query), contacts)
    ensures |MatchingContacts(contacts, query)| <= |contacts|
  {
    if contacts != [] {
      var rest := MatchingContacts(contacts[1..], query);
      MatchingIsSubsequence(contacts[1..], query);
      if Matches(contacts[0], query) {
        assert MatchingContacts(contacts, query) == [contacts[0]] + rest;
        assert ([contacts[0]] + rest)[1..] == rest;
      } else {
        assert MatchingContacts(contacts, query) == rest;
      }
    }
  }

  /** The filter keeps the input order, drops elements only, and never grows the list; an empty
      search lists every contact. */
  lemma FilterIsSubsequence(contacts: seq<Contact>, searchText: string)
    ensures IsSubsequence(FilterContacts(contacts, searchText), contacts)
    ensures |FilterContacts(contacts, searchText)| <= |contacts|
    ensures searchText == "" ==> FilterContacts(contacts, searchText) == contacts
  {
    if searchText == "" {
      SubsequenceReflexive(contacts);
    } else {
      MatchingIsSubsequence(contacts, Lower(searchText));
    }
  }

  lemma {:induction false} MatchingCounts(contacts: seq<Contact>, query: string, c: Contact)
    ensures multiset(MatchingContacts(contacts, query))[c] == if Matches(c, query) then multiset(contacts)[c] else 0
  {
    if contacts != [] {
      MatchingCounts(contacts[1..], query, c);
      assert contacts == [contacts[0]] + contacts[1..];
      assert multiset(contacts) == multiset{contacts[0]} + multiset(contacts[1..]);
    }
  }

  /** Every kept contact appears as often as in the input; every other contact not at all. */
  lemma FilterCounts(contacts: seq<Contact>, searchText: string, c: Contact)
    ensures multiset(FilterContacts(contacts, searchText))[c] == if Kept(c, searchText) then multiset(contacts)[c] else 0
  {
    if searchText != "" {
      MatchingCounts(contacts, Lower(searchText), c);
    }
  }

  /** A contact is listed exactly when it is in the input and its name matches the search. */
  lemma FilterMembership(contacts: seq<Contact>, searchText: string, c: Contact)
    ensures c in FilterContacts(contacts, searchText) <==> c in contacts && Kept(c, searchText)
  {
    FilterCounts(contacts, searchText, c);
    assert c in FilterContacts(contacts, searchText) <==> multiset(FilterContacts(contacts, searchText))[c] > 0;
    assert c in contacts <==> multiset(contacts)[c] > 0;
  }

  lemma {:induction false} MatchingIdempotent(contacts: seq<Contact>, query: string)
    ensures MatchingContacts(MatchingContacts(contacts, query), query) == MatchingContacts(contacts, query)
  {
    if contacts != [] {
      var rest := MatchingContacts(contacts[1..], query);
      MatchingIdempotent(contacts[1..], query);
      if Matches(contacts[0], query) {
        assert MatchingContacts(contacts, query) == [contacts[0]] + rest;
        assert ([contacts[0]] + rest)[0] == contacts[0];
        assert ([contacts[0]] + rest)[1..] == rest;
        assert MatchingContacts([contacts[0]] + rest, query) == [contacts[0]] + MatchingContacts(rest, query);
      } else {
        assert MatchingContacts(contacts, query) == rest;
      }
    }
  }

  /** Filtering the filtered list with the same search changes nothing. */
  lemma FilterIdempotent(contacts: seq<Contact>, searchText: string)
    ensures FilterContacts(FilterContacts(contacts, searchText), searchText) == FilterContacts(contacts, searchText)
  {
    if searchText != "" {
      MatchingIdempotent(contacts, Lower(searchText));
    }
  }

  // ---------------------------------------------------------------------------------------------
  // Rows and selection

  /** One row of the contacts section: a contact and one of its numbers. */
  datatype Row = Row(contact: Contact, phone: LabeledPhone)

  function RowsOf(c: Contact): seq<Row>
  {
    seq(|c.phoneNumbers|, i requires 0 <= i < |c.phoneNumbers| => Row(c, c.phoneNumbers[i]))
  }

  /** The nested `ForEach`: per contact, one row per phone number. */
  function Rows(contacts: seq<Contact>): seq<Row>
  {
    if contacts == [] then [] else RowsOf(contacts[0]) + Rows(contacts[1..])
  }

  function PhoneCount(contacts: seq<Contact>): nat
  {
    if contacts == [] then 0 else |contacts[0].phoneNumbers| + PhoneCount(contacts[1..])
  }

  /** There are as many rows as phone numbers, and a row exists for exactly the pairs of a
      listed contact and one of its own numbers. */
  lemma {:induction false} RowsAreContactNumbers(contacts: seq<Contact>, r: Row)
    ensures |Rows(contacts)| == PhoneCount(contacts)
    ensures r in Rows(contacts) <==> r.contact in contacts && r.phone in r.contact.phoneNumbers
  {
    if contacts != [] {
      RowsAreContactNumbers(contacts[1..], r);
      var c := contacts[0];
      assert r in RowsOf(c) <==> r.contact == c && r.phone in c.phoneNumbers by {
        if r.contact == c && r.phone in c.phoneNumbers {
          var k :| 0 <= k < |c.phoneNumbers| && c.phoneNumbers[k] == r.phone;
          assert RowsOf(c)[k] == r;
        }
      }
      assert contacts == [c] + contacts[1..];
    }
  }

  /** `ContactRow`'s action: the recipient is named by the same `"given family"` string the
      search matches and keeps the number's raw spelling; normalisation happens only when the
      address request is sent. */
  function SelectRow(row: Row): (r: Recipient)
    ensures r.name == FullName(row.contact) && r.phone == row.phone.stringValue
  {
    Recipient(row.contact.givenName + " " + row.contact.familyName, row.phone.stringValue)
  }

  /** The fixed test row above the contacts. */
  const TestContact := Recipient("Annabel Strauss", "917-477-9901")

  /** The test row's number is keyed `+19174779901` by the backend and by the client alike, so a
      reply from that phone finds a postcard addressed through this row. */
  lemma TestContactKeys()
    ensures PhoneFormat.FormatPhoneNumber(TestContact.phone) == "+19174779901"
    ensures Sendblue.FormatPhoneNumberSwift(TestContact.phone) == "+19174779901"
  {
    assert TestContact.phone == "917" + "-" + "477" + "-" + "9901";
    PhoneFormat.TestContactKey();
    Sendblue.TestContactKeySwift();
  }

  // ---------------------------------------------------------------------------------------------
  // loadContacts: keep contacts with a phone number

  /** The enumerated contacts that have at least one phone number, in enumeration order. */
  function WithPhones(contacts: seq<Contact>): seq<Contact>
  {
    if contacts == [] then []
    else
      var last := contacts[|contacts| - 1];
      WithPhones(contacts[..|contacts| - 1]) + (if last.phoneNumbers != [] then [last] else [])
  }

  lemma {:induction false} WithPhonesCounts(contacts: seq<Contact>, c: Contact)
    ensures multiset(WithPhones(contacts))[c] == if c.phoneNumbers != [] then multiset(contacts)[c] else 0
  {
    if contacts != [] {
      var init := contacts[..|contacts| - 1];
      WithPhonesCounts(init, c);
      assert contacts == init + [contacts[|contacts| - 1]];
    }
  }

  /** Loaded contacts are exactly the enumerated contacts with a phone number. */
  lemma WithPhonesMembership(contacts: seq<Contact>, c: Contact)
    ensures c in WithPhones(contacts) <==> c in contacts && c.phoneNumbers != []
  {
    WithPhonesCounts(contacts, c);
    assert c in WithPhones(contacts) <==> multiset(WithPhones(contacts))[c] > 0;
    assert c in contacts <==> multiset(contacts)[c] > 0;
  }

  /** The enumeration callback: appends each contact that has a phone number. */
  method CollectContactsWithPhones(enumerated: seq<Contact>) returns (allContacts: seq<Contact>)
    ensures allContacts == WithPhones(enumerated)
  {
    allContacts := [];
    var i := 0;
    while i < |enumerated|
      invariant 0 <= i <= |enumerated|
      invariant allContacts == WithPhones(enumerated[..i])
    {
      var contact := enumerated[i];
      assert enumerated[..i + 1][..i] == enumerated[..i];
      if contact.phoneNumbers != [] {
        allContacts := allContacts + [contact];
      }
      i := i + 1;
    }
    assert enumerated[..i] == enumerated;
  }

  // ---------------------------------------------------------------------------------------------
  // loadContacts: sort by lower-cased given name

  /** Swift's `<` on strings, as lexicographic order on characters. */
  predicate Less(a: string, b: string)
  {
    if a == [] then b != []
    else if b == [] then false
    else a[0] < b[0] || (a[0] == b[0] && Less(a[1..], b[1..]))
  }

  lemma {:induction false} LessIrreflexive(a: string)
    ensures !Less(a, a)
  {
    if a != [] {
      LessIrreflexive(a[1..]);
    }
  }

  lemma {:induction false} LessTransitive(a: string, b: string, c: string)
    requires Less(a, b) && Less(b, c)
    ensures Less(a, c)
  {
    if a != [] && b != [] && c != [] && a[0] == b[0] == c[0] {
      LessTransitive(a[1..], b[1..], c[1..]);
    }
  }

  lemma {:induction false} LessTotal(a: string, b: string)
    ensures a == b || Less(a, b) || Less(b, a)
  {
    if a != [] && b != [] && a[0] == b[0] {
      LessTotal(a[1..], b[1..]);
      if a[1..] == b[1..] {
        assert a == [a[0]] + a[1..] && b == [b[0]] + b[1..];
      }
    }
  }

  /** The sort key. */
  function Key(c: Contact): string
  {
    Lower(c.givenName)
  }

  /** `x` may stand before `y`: `y`'s key is not smaller. */
  predicate InOrder(x: Contact, y: Contact)
  {
    !Less(Key(y), Key(x))
  }

  lemma InOrderTransitive(x: Contact, y: Contact, z: Contact)
    requires InOrder(x, y) && InOrder(y, z)
    ensures InOrder(x, z)
  {
    LessTotal(Key(x), Key(y));
    LessTotal(Key(y), Key(z));
    if Less(Key(z), Key(x)) {
      if Key(x) == Key(y) {
      } else if Key(y) == Key(z) {
      } else {
        LessTransitive(Key(x), Key(y), Key(z));
        LessTransitive(Key(z), Key(x), Key(y));
        LessIrreflexive(Key(y));
      }
    }
  }

  predicate SortedByGivenName(contacts: seq<Contact>)
  {
    forall i, j :: 0 <= i < j < |contacts| ==> InOrder(contacts[i], contacts[j])
  }

  /** Inserts `x` before the first contact whose key is not smaller. */
  function Insert(x: Contact, sorted: seq<Contact>): seq<Contact>
  {
    if sorted == [] || InOrder(x, sorted[0]) then [x] + sorted
    else [sorted[0]] + Insert(x, sorted[1..])
  }

  /** `allContacts.sorted { $0.givenName.lowercased() < $1.givenName.lowercased() }` */
  function SortByGivenName(contacts: seq<Contact>): seq<Contact>
  {
    if contacts == [] then [] else Insert(contacts[0], SortByGivenName(contacts[1..]))
  }

  lemma {:induction false} InsertPermutes(x: Contact, sorted: seq<Contact>)
    ensures multiset(Insert(x, sorted)) == multiset{x} + multiset(sorted)
  {
    if sorted != [] && !InOrder(x, sorted[0]) {
      InsertPermutes(x, sorted[1..]);
      assert sorted == [sorted[0]] + sorted[1..];
    }
  }

  /** A contact placed before a sorted list that it may precede keeps the list sorted. */
  lemma ConsSorted(head: Contact, rest: seq<Contact>)
    requires SortedByGivenName(rest)
    requires forall k :: 0 <= k < |rest| ==> InOrder(head, rest[k])
    ensures SortedByGivenName([head] + rest)
  {
    var r := [head] + rest;
    forall i, j | 0 <= i < j < |r| ensures InOrder(r[i], r[j]) {
      assert r[j] == rest[j - 1];
      if i > 0 {
        assert r[i] == rest[i - 1];
      }
    }
  }

  /** `x` may precede a sorted list when it may precede the list's first contact. */
  lemma BeforeFirst(x: Contact, sorted: seq<Contact>)
    requires SortedByGivenName(sorted) && sorted != [] && InOrder(x, sorted[0])
    ensures forall k :: 0 <= k < |sorted| ==> InOrder(x, sorted[k])
  {
    forall k | 0 < k < |sorted| ensures InOrder(x, sorted[k]) {
      InOrderTransitive(x, sorted[0], sorted[k]);
    }
  }

  /** Inserting keeps a lower bound of the list and the inserted contact a lower bound of the result. */
  lemma InsertBounded(head: Contact, x: Contact, tail: seq<Contact>)
    requires InOrder(head, x)
    requires forall k :: 0 <= k < |tail| ==> InOrder(head, tail[k])
    ensures forall k :: 0 <= k < |Insert(x, tail)| ==> InOrder(head, Insert(x, tail)[k])
  {
    var rest := Insert(x, tail);
    InsertPermutes(x, tail);
    forall k | 0 <= k < |rest| ensures InOrder(head, rest[k]) {
      assert rest[k] in multiset(rest);
      if rest[k] != x {
        assert rest[k] in multiset(tail);
        var m :| 0 <= m < |tail| && tail[m] == rest[k];
      }
    }
  }

  lemma {:induction false} InsertSorted(x: Contact, sorted: seq<Contact>)
    requires SortedByGivenName(sorted)
    ensures SortedByGivenName(Insert(x, sorted))
  {
    if sorted == [] {
    } else if InOrder(x, sorted[0]) {
      BeforeFirst(x, sorted);
      ConsSorted(x, sorted);
    } else {
      var head, tail := sorted[0], sorted[1..];
      assert InOrder(head, x) by {
        if Less(Key(x), Key(head)) {
          LessTransitive(Key(head), Key(x), Key(head));
          LessIrreflexive(Key(head));
        }
      }
      assert forall k :: 0 <= k < |tail| ==> InOrder(head, tail[k]) by {
        forall k | 0 <= k < |tail| ensures InOrder(head, tail[k]) {
          assert tail[k] == sorted[k + 1];
        }
      }
      assert SortedByGivenName(tail) by {
        forall i, j | 0 <= i < j < |tail| ensures InOrder(tail[i], tail[j]) {
          assert tail[i] == sorted[i + 1] && tail[j] == sorted[j + 1];
        }
      }
      InsertSorted(x, tail);
      InsertBounded(head, x, tail);
      ConsSorted(head, Insert(x, tail));
    }
  }

  /** The stored list is a rearrangement of the loaded contacts, ordered by lower-cased given name. */
  lemma {:induction false} SortByGivenNameSpec(contacts: seq<Contact>)
    ensures multiset(SortByGivenName(contacts)) == multiset(contacts)
    ensures SortedByGivenName(SortByGivenName(contacts))
  {
    if contacts != [] {
      SortByGivenNameSpec(contacts[1..]);
      InsertPermutes(contacts[0], SortByGivenName(contacts[1..]));
      InsertSorted(contacts[0], SortByGivenName(contacts[1..]));
      assert contacts == [contacts[0]] + contacts[1..];
    }
  }

  // ---------------------------------------------------------------------------------------------
  // The view's state

  class ContactPicker {
    var searchText: string
    var contacts: seq<Contact>
    var isShowingPermissionAlert: bool

    constructor ()
      ensures searchText == "" && contacts == [] && !isShowingPermissionAlert
    {
      searchText := "";
      contacts := [];
      isShowingPermissionAlert := false;
    }

    /** `filteredContacts` */
    function FilteredContacts(): seq<Contact>
      reads this
    {
      FilterContacts(contacts, searchText)
    }

    /** Every contact on display was loaded and matches the search text. */
    lemma FilteredContactsAreLoaded(c: Contact)
      ensures c in FilteredContacts() <==> c in contacts && Kept(c, searchText)
    {
      FilterMembership(contacts, searchText, c);
    }

    /** `loadContacts`: `enumeration` is what the contact store enumerates, or `None` when the
        enumeration throws, which is logged and leaves the list as it was. */
    method LoadContacts(enumeration: Option<seq<Contact>>)
      modifies this
      ensures searchText == old(searchText) && isShowingPermissionAlert == old(isShowingPermissionAlert)
      ensures enumeration.None? ==> contacts == old(contacts)
      ensures enumeration.Some? ==>
                && contacts == SortByGivenName(WithPhones(enumeration.value))
                && multiset(contacts) == multiset(WithPhones(enumeration.value))
                && SortedByGivenName(contacts)
                && forall c :: c in contacts ==> c.phoneNumbers != []
    {
      if enumeration.Some? {
        var allContacts := CollectContactsWithPhones(enumeration.value);
        contacts := SortByGivenName(allContacts);
        SortByGivenNameSpec(allContacts);
        forall c | c in contacts ensures c.phoneNumbers != [] {
          assert c in multiset(allContacts);
          WithPhonesMembership(enumeration.value, c);
        }
      }
    }

    /** `requestContactsAccess`: `granted` is the answer of the permission request, `None` when
        it throws (logged). A refusal raises the settings alert. */
    method RequestContactsAccess(granted: Option<bool>, enumeration: Option<seq<Contact>>)
      modifies this
      ensures searchText == old(searchText)
      ensures granted == Some(true) && enumeration.Some? ==> contacts == SortByGivenName(WithPhones(enumeration.value))
      ensures granted != Some(true) || enumeration.None? ==> contacts == old(contacts)
      ensures isShowingPermissionAlert == (old(isShowingPermissionAlert) || granted == Some(false))
    {
      if granted == Some(true) {
        LoadContacts(enumeration);
      } else if granted == Some(false) {
        isShowingPermissionAlert := true;
      }
    }
  }
}

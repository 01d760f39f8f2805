/** The backend phone normaliser `formatPhoneNumber` (firebase-functions/functions/src/index.ts and
    its compiled twin index.js, which is the same algorithm line for line). Its result is the only
    key under which postcards are stored and under which inbound senders are looked up. */
module PhoneFormat {

  /** A decimal digit. JavaScript's `\d` is exactly the ASCII digits. */
  predicate IsDigit(c: char)
  {
    '0' <= c <= '9'
  }

  predicate AllDigits(s: string)
  {
    forall i :: 0 <= i < |s| ==> IsDigit(s[i])
  }

  /** `phone.replace(/\D/g, '')`: the digits of `s`, in order. */
  function Digits(s: string): string
  {
    if s == [] then []
    else (if IsDigit(s[0]) then [s[0]] else []) + Digits(s[1..])
  }

  /** `numbers.startsWith('1') && numbers.length === 11` */
  predicate HasCountryCode(numbers: string)
  {
    |numbers| == 11 && numbers[0] == '1'
  }

  /** The normalised key: `'+' + numbers` for eleven digits led by `1`, else `'+1' + numbers`. */
  function FormatPhoneNumber(phone: string): string
  {
    var numbers := Digits(phone);
    if HasCountryCode(numbers) then "+" + numbers else "+1" + numbers
  }

  // ---------------------------------------------------------------------------------------------
  // What `Digits` keeps

  /** Only digits survive, and the result is never longer than the input. */
  lemma {:induction false} DigitsAreDigits(s: string)
    ensures AllDigits(Digits(s)) && |Digits(s)| <= |s|
  {
    if s != [] {
      DigitsAreDigits(s[1..]);
    }
  }

  /** Stripping distributes over concatenation: nothing is reordered or merged. */
  lemma {:induction false} DigitsAppend(a: string, b: string)
    ensures Digits(a + b) == Digits(a) + Digits(b)
  {
    if a == [] {
      assert a + b == b;
    } else {
      var first := if IsDigit(a[0]) then [a[0]] else [];
      calc {
        Digits(a + b);
      == { assert (a + b)[0] == a[0]; assert (a + b)[1..] == a[1..] + b; }
        first + Digits(a[1..] + b);
      == { DigitsAppend(a[1..], b); }
        first + (Digits(a[1..]) + Digits(b));
      ==
        (first + Digits(a[1..])) + Digits(b);
      }
    }
  }

  /** A string made only of digits is left as it is. */
  lemma {:induction false} DigitsOfDigits(s: string)
    requires AllDigits(s)
    ensures Digits(s) == s
  {
    if s != [] {
      DigitsOfDigits(s[1..]);
    }
  }

  /** Every digit character occurs in the result as often as in the input, and no other
      character occurs at all. */
  lemma {:induction false} DigitsCounts(s: string, c: char)
    ensures multiset(Digits(s))[c] == if IsDigit(c) then multiset(s)[c] else 0
  {
    if s != [] {
      DigitsCounts(s[1..], c);
      assert s == [s[0]] + s[1..];
      assert multiset(s) == multiset{s[0]} + multiset(s[1..]);
    }
  }

  lemma PrependDigit(c: char, s: string)
    requires IsDigit(c) && AllDigits(s)
    ensures AllDigits([c] + s)
  {
    forall i | 0 <= i < |[c] + s| ensures IsDigit(([c] + s)[i]) {
      if i > 0 {
        assert ([c] + s)[i] == s[i - 1];
      }
    }
  }

  /** Whatever the input, the key is `+1` followed by digits only, and it carries every digit
      of the input after the country code. */
  lemma KeyShape(phone: string)
    ensures var r := FormatPhoneNumber(phone);
      |r| >= 2 && r[0] == '+' && r[1] == '1' && AllDigits(r[1..])
      && r[1..] == (if HasCountryCode(Digits(phone)) then Digits(phone) else "1" + Digits(phone))
  {
    var d := Digits(phone);
    DigitsAreDigits(phone);
    if HasCountryCode(d) {
      assert FormatPhoneNumber(phone) == ['+'] + d;
      assert (['+'] + d)[1..] == d;
    } else {
      var tail := ['1'] + d;
      PrependDigit('1', d);
      assert FormatPhoneNumber(phone) == ['+'] + tail;
      assert (['+'] + tail)[1..] == tail;
    }
  }

  /** The digits of a key are the key without its `+`. */
  lemma DigitsOfKey(phone: string)
    ensures Digits(FormatPhoneNumber(phone)) == FormatPhoneNumber(phone)[1..]
  {
    var r := FormatPhoneNumber(phone);
    KeyShape(phone);
    assert r == [r[0]] + r[1..];
    DigitsAppend([r[0]], r[1..]);
    DigitsOfDigits(r[1..]);
  }

  // ---------------------------------------------------------------------------------------------
  // The two documented cases

  /** Ten bare digits gain the North American country code. */
  lemma TenDigits(s: string)
    requires AllDigits(s) && |s| == 10
    ensures FormatPhoneNumber(s) == "+1" + s
  {
    DigitsOfDigits(s);
  }

  /** Eleven digits led by `1` already carry the country code and only gain the `+`. */
  lemma ElevenDigitsLedByOne(s: string)
    requires AllDigits(s) && |s| == 11 && s[0] == '1'
    ensures FormatPhoneNumber(s) == "+" + s
  {
    DigitsOfDigits(s);
  }

  // ---------------------------------------------------------------------------------------------
  // Idempotence holds exactly for numbers of ten digits or eleven digits led by `1`

  predicate Canonical(numbers: string)
  {
    |numbers| == 10 || HasCountryCode(numbers)
  }

  /** The key is `+` before the digits it carries. */
  lemma KeySplit(phone: string)
    ensures var d := Digits(phone);
      var tail := if HasCountryCode(d) then d else "1" + d;
      FormatPhoneNumber(phone) == "+" + tail && Digits(FormatPhoneNumber(phone)) == tail
  {
    var r := FormatPhoneNumber(phone);
    KeyShape(phone);
    DigitsOfKey(phone);
    assert r == [r[0]] + r[1..];
  }

  /** A key is its own key exactly when the digits it carries have a country code; otherwise
      normalising it again adds one more `1`. */
  lemma KeyOfKey(r: string, tail: string)
    requires r == "+" + tail && Digits(r) == tail
    ensures FormatPhoneNumber(r) == r <==> HasCountryCode(tail)
    ensures !HasCountryCode(tail) ==> FormatPhoneNumber(r) == "+1" + tail
    ensures !HasCountryCode(tail) ==> |FormatPhoneNumber(r)| == |r| + 1
  {
    if !HasCountryCode(tail) {
      assert |FormatPhoneNumber(r)| == |r| + 1;
    }
  }

  lemma IdempotentIff(phone: string)
    ensures FormatPhoneNumber(FormatPhoneNumber(phone)) == FormatPhoneNumber(phone)
            <==> Canonical(Digits(phone))
  {
    var d := Digits(phone);
    var tail := if HasCountryCode(d) then d else "1" + d;
    KeySplit(phone);
    KeyOfKey(FormatPhoneNumber(phone), tail);
    if !HasCountryCode(d) {
      assert |tail| == |d| + 1 && tail[0] == '1';
    }
  }

  /** The limit of idempotence: `12345` is not canonical, so normalising its key again adds
      another `1`. */
  lemma NotIdempotentExample()
    ensures FormatPhoneNumber("12345") == "+112345"
    ensures FormatPhoneNumber("+112345") == "+1112345"
  {
  }

  // ---------------------------------------------------------------------------------------------
  // When two raw numbers meet under the same key

  /** Two digit strings denote the same subscriber when they are equal or one is the other
      with the leading country code `1` in front of ten digits. */
  predicate SameSubscriber(x: string, y: string)
  {
    x == y || (|x| == 10 && y == "1" + x) || (|y| == 10 && x == "1" + y)
  }

  lemma SameKeyIff(a: string, b: string)
    ensures FormatPhoneNumber(a) == FormatPhoneNumber(b) <==> SameSubscriber(Digits(a), Digits(b))
  {
    var da, db := Digits(a), Digits(b);
    var ra, rb := FormatPhoneNumber(a), FormatPhoneNumber(b);
    KeyShape(a);
    KeyShape(b);
    assert ra == ['+'] + ra[1..] && rb == ['+'] + rb[1..];
    assert ra[1..] == (if HasCountryCode(da) then da else "1" + da);
    assert rb[1..] == (if HasCountryCode(db) then db else "1" + db);
    if ra == rb {
      assert ra[1..] == rb[1..];
      if HasCountryCode(da) && !HasCountryCode(db) {
        assert da == "1" + db;
        assert da[1..] == db;
      } else if !HasCountryCode(da) && HasCountryCode(db) {
        assert db == "1" + da;
        assert db[1..] == da;
      } else if !HasCountryCode(da) && !HasCountryCode(db) {
        assert da == ("1" + da)[1..] == ("1" + db)[1..] == db;
      }
    }
  }

  /** A number written as three dash-separated groups of ten digits in all gains `+1` and
      loses its dashes. */
  lemma DashedTen(area: string, exchange: string, line: string)
    requires AllDigits(area) && AllDigits(exchange) && AllDigits(line)
    requires |area| + |exchange| + |line| == 10
    ensures FormatPhoneNumber(area + "-" + exchange + "-" + line) == "+1" + area + exchange + line
  {
    var dash := "-";
    var s1 := area + dash;
    var s2 := s1 + exchange;
    var s3 := s2 + dash;
    var numbers := area + exchange + line;
    assert Digits(dash) == [];
    DigitsOfDigits(area);
    DigitsOfDigits(exchange);
    DigitsOfDigits(line);
    DigitsAppend(area, dash);
    assert Digits(s1) == area;
    DigitsAppend(s1, exchange);
    assert Digits(s2) == area + exchange;
    DigitsAppend(s2, dash);
    assert Digits(s3) == area + exchange;
    DigitsAppend(s3, line);
    assert Digits(s3 + line) == numbers;
    assert |numbers| == 10;
    assert "+1" + numbers == "+1" + area + exchange + line;
  }

  /** The contact used for manual testing, `917-477-9901`, is stored and looked up under
      `+19174779901`. */
  lemma TestContactKey()
    ensures FormatPhoneNumber("917" + "-" + "477" + "-" + "9901") == "+19174779901"
  {
    DashedTen("917", "477", "9901");
  }
}

/** The phone normaliser `WhatsAppBulkSender._format_phone_number`. */
module Phone {

  /** The default country calling code (India). */
  const CountryCode: string := "+91"

  /** `str.isdigit`, restricted to the ASCII digits. */
  predicate IsDigit(c: char) { '0' <= c <= '9' }

  predicate AllDigits(s: string) {
    forall i :: 0 <= i < |s| ==> IsDigit(s[i])
  }

  /** Python's `s.startswith(p)`. */
  predicate StartsWith(s: string, p: string) {
    |p| <= |s| && s[..|p|] == p
  }

  /** `''.join(filter(str.isdigit, s))`: the digits of `s`, in their order. */
  function Digits(s: string): (d: string)
    ensures AllDigits(d)
    ensures |d| <= |s|
  {
    if s == [] then [] else (if IsDigit(s[0]) then [s[0]] else []) + Digits(s[1..])
  }

  /** `_format_phone_number`: drop every non-digit, then put a country prefix in front. */
  function FormatPhoneNumber(phone: string): (r: string)
    ensures |r| >= 1 && r[0] == '+' && AllDigits(r[1..])
    ensures r == "+" <==> Digits(phone) == []
  {
    var digits := Digits(phone);
    if |digits| == 10 then CountryCode + digits
    else if |digits| == 11 && StartsWith(digits, "0") then CountryCode + digits[1..]
    else if !StartsWith(digits, "+") then "+" + digits
    else digits
  }

  lemma {:induction false} DigitsAppend(a: string, b: string)
    ensures Digits(a + b) == Digits(a) + Digits(b)
  {
    if a == [] {
      assert a + b == b;
    } else {
      assert (a + b)[0] == a[0];
      assert (a + b)[1..] == a[1..] + b;
      DigitsAppend(a[1..], b);
    }
  }

  /** Filtering keeps a string exactly when it is made of digits only. */
  lemma {:induction false} DigitsIdentity(s: string)
    ensures Digits(s) == s <==> AllDigits(s)
  {
    if s != [] {
      DigitsIdentity(s[1..]);
      if AllDigits(s) {
        assert AllDigits(s[1..]) by {
          forall i | 0 <= i < |s[1..]| ensures IsDigit(s[1..][i]) { assert s[1..][i] == s[i + 1]; }
        }
      } else if IsDigit(s[0]) {
        assert !AllDigits(s[1..]) by {
          var j :| 0 <= j < |s| && !IsDigit(s[j]);
          assert j > 0 && s[1..][j - 1] == s[j];
        }
      }
    }
  }

  /** Separators between digit groups are dropped: only the digits of the two sides remain. */
  lemma DigitsAround(a: string, sep: string, b: string)
    requires Digits(sep) == []
    ensures Digits(a + sep + b) == Digits(a) + Digits(b)
  {
    DigitsAppend(a + sep, b);
    DigitsAppend(a, sep);
  }

  /** The `'+'` test of the third branch can never fail: a digit string never starts with `'+'`. */
  lemma PlusTestAlwaysTrue(s: string)
    ensures !StartsWith(Digits(s), "+")
  {
    var d := Digits(s);
    if |d| >= 1 {
      assert IsDigit(d[0]);
    }
  }

  /** The three reachable outcomes of the normaliser, stated on the digits of the input. */
  lemma FormatCases(phone: string)
    ensures var d := Digits(phone);
      && (|d| == 10 ==> FormatPhoneNumber(phone) == "+91" + d)
      && (|d| == 11 && d[0] == '0' ==> FormatPhoneNumber(phone) == "+91" + d[1..])
      && (|d| != 10 && !(|d| == 11 && d[0] == '0') ==> FormatPhoneNumber(phone) == "+" + d)
  {
    PlusTestAlwaysTrue(phone);
  }

  /** A leading trunk `0` in front of a ten-digit number is dropped: both give the same identifier. */
  lemma LeadingZeroDropped(d: string)
    requires |d| == 10 && AllDigits(d)
    ensures FormatPhoneNumber("0" + d) == FormatPhoneNumber(d) == "+91" + d
  {
    DigitsAppend("0", d);
    DigitsIdentity(d);
    assert Digits("0") == "0";
  }

  /** Normalising an already normalised identifier changes nothing, for every input. */
  lemma FormatIdempotent(phone: string)
    ensures FormatPhoneNumber(FormatPhoneNumber(phone)) == FormatPhoneNumber(phone)
  {
    var d := Digits(phone);
    var r := FormatPhoneNumber(phone);
    FormatCases(phone);
    DigitsIdentity(r[1..]);
    assert r == "+" + r[1..];
    DigitsAppend("+", r[1..]);
    assert Digits("+") == "";
    assert Digits(r) == r[1..];
    FormatCases(r);
    if |d| == 10 {
      assert r[1..] == "91" + d;
    } else if |d| == 11 && d[0] == '0' {
      assert r[1..] == "91" + d[1..];
    } else {
      assert r[1..] == d;
    }
  }
}

/**
 * The pieces of the system test script that compute something: its own copy of the phone
 * normaliser with the numbers it is tried on, the contact rows it reads, and its
 * personalisation rule.
 */
module TestSystem {
  import opened Wrappers
  import Phone
  import Template
  import Sender

  /** The nested `format_phone_number` of `test_phone_formatting`; each reassignment of `phone` is a new binding. */
  function FormatPhoneNumber(phone: string): string {
    var digits := Phone.Digits(phone);
    var formatted :=
      if |digits| == 10 then "+91" + digits
      else if |digits| == 11 && Phone.StartsWith(digits, "0") then "+91" + digits[1..]
      else if !Phone.StartsWith(digits, "+") then "+" + digits
      else digits;
    formatted
  }

  /** The copy computes the engine's normaliser on every input. */
  lemma FormatMatchesEngine(phone: string)
    ensures FormatPhoneNumber(phone) == Phone.FormatPhoneNumber(phone)
  {
  }

  /** On a string of digits the copy takes the branch its length selects. */
  lemma DigitStringCases(d: string)
    requires Phone.AllDigits(d)
    ensures |d| == 10 ==> FormatPhoneNumber(d) == "+91" + d
    ensures |d| == 11 && d[0] == '0' ==> FormatPhoneNumber(d) == "+91" + d[1..]
    ensures |d| != 10 && !(|d| == 11 && d[0] == '0') ==> FormatPhoneNumber(d) == "+" + d
  {
    Phone.DigitsIdentity(d);
    Phone.FormatCases(d);
  }

  /** A separator without digits between two parts does not change the result. */
  lemma SeparatorIgnored(a: string, sep: string, b: string)
    requires Phone.Digits(sep) == []
    ensures FormatPhoneNumber(a + sep + b) == FormatPhoneNumber(a + b)
  {
    Phone.DigitsAround(a, sep, b);
    Phone.DigitsAppend(a, b);
  }

  // The vector lemmas below state each number of the test as a join of short pieces, which keeps
  // the solver from evaluating the digit filter on a long literal; `Spellings` shows that the
  // pieces spell the test's numbers, and `TestNumbers` puts the two together.

  lemma Spellings()
    ensures "98765" + "43210" == "9876543210"
    ensures "0" + "98765" + "43210" == "09876543210"
    ensures "91" + "98765" + "43210" == "919876543210"
    ensures "+" + "91" + "98765" + "43210" == "+919876543210"
    ensures "91" + "-" + "9876" + "-" + "543210" == "91-9876-543210"
  {
  }

  /** "9876543210" takes the ten-digit branch. */
  lemma TenDigitVector()
    ensures FormatPhoneNumber("98765" + "43210") == "+919876543210"
  {
    DigitStringCases("98765" + "43210");
  }

  /** "09876543210" takes the leading-zero branch. */
  lemma LeadingZeroVector()
    ensures FormatPhoneNumber("0" + "98765" + "43210") == "+919876543210"
  {
    DigitStringCases("0" + "98765" + "43210");
  }

  /** "919876543210" has twelve digits: the final branch only adds the `'+'`. */
  lemma TwelveDigitVector()
    ensures FormatPhoneNumber("91" + "98765" + "43210") == "+919876543210"
  {
    DigitStringCases("91" + "98765" + "43210");
  }

  /** The filter removes the `'+'` of "+919876543210" and the final branch puts it back. */
  lemma PlusPrefixedVector()
    ensures FormatPhoneNumber("+" + "91" + "98765" + "43210") == "+919876543210"
  {
    SeparatorIgnored("", "+", "91" + "98765" + "43210");
    assert "" + "+" + ("91" + "98765" + "43210") == "+" + "91" + "98765" + "43210";
    assert "" + ("91" + "98765" + "43210") == "91" + "98765" + "43210";
    TwelveDigitVector();
  }

  /** The dashes of "91-9876-543210" are dropped, leaving the twelve digits. */
  lemma DashedVector()
    ensures FormatPhoneNumber("91" + "-" + "9876" + "-" + "543210") == "+919876543210"
  {
    SeparatorIgnored("91" + "-" + "9876", "-", "543210");
    assert "91" + "-" + "9876" + "543210" == "91" + "-" + ("9876" + "543210");
    SeparatorIgnored("91", "-", "9876" + "543210");
    assert "91" + ("9876" + "543210") == "91" + "98765" + "43210";
    TwelveDigitVector();
  }

  /** The five numbers of `test_phone_formatting`, as written there, all give "+919876543210". */
  lemma TestNumbers()
    ensures FormatPhoneNumber("9876543210") == "+919876543210"
    ensures FormatPhoneNumber("09876543210") == "+919876543210"
    ensures FormatPhoneNumber("919876543210") == "+919876543210"
    ensures FormatPhoneNumber("+919876543210") == "+919876543210"
    ensures FormatPhoneNumber("91-9876-543210") == "+919876543210"
  {
    Spellings();
    TenDigitVector();
    LeadingZeroVector();
    TwelveDigitVector();
    PlusPrefixedVector();
    DashedVector();
  }

  /**
   * The row loop of `test_csv_operations`: `row['phone']`, `row['name']` and `row['message']`
   * are copied as they are; a row missing any of the three raises, which ends the test.
   */
  method ReadContacts(rows: seq<Sender.Row>) returns (contacts: Option<seq<Sender.Contact>>)
    ensures contacts.Some? <==> forall i :: 0 <= i < |rows| ==> HasColumns(rows[i])
    ensures contacts.Some? ==>
      && |contacts.value| == |rows|
      && forall i :: 0 <= i < |rows| ==>
           contacts.value[i] == Sender.Contact(rows[i]["phone"], Some(rows[i]["name"]), Some(rows[i]["message"]))
  {
    var acc: seq<Sender.Contact> := [];
    var i := 0;
    while i < |rows|
      invariant 0 <= i <= |rows|
      invariant |acc| == i
      invariant forall j :: 0 <= j < i ==>
        HasColumns(rows[j]) && acc[j] == Sender.Contact(rows[j]["phone"], Some(rows[j]["name"]), Some(rows[j]["message"]))
    {
      if !HasColumns(rows[i]) {
        return None;
      }
      acc := acc + [Sender.Contact(rows[i]["phone"], Some(rows[i]["name"]), Some(rows[i]["message"]))];
      i := i + 1;
    }
    return Some(acc);
  }

  predicate HasColumns(row: Sender.Row) {
    "phone" in row && "name" in row && "message" in row
  }

  /** The test's rule: replace every `{name}` whenever the token occurs, even by an empty name. */
  function Personalize(message: string, name: string): string {
    if Template.ContainsToken(message) then Template.ReplaceToken(message, name) else message
  }

  /**
   * The test's rule and the engine's agree on a contact exactly when its name is non-empty or
   * its message has no `{name}`: with an empty name the test deletes the tokens, the engine keeps them.
   */
  lemma PersonalizeAgreesWithEngine(phone: string, name: string, message: string, defaultMessage: string)
    ensures Personalize(message, name) == Sender.MessageFor(Sender.Contact(phone, Some(name), Some(message)), defaultMessage)
        <==> name != "" || !Template.ContainsToken(message)
  {
    if name == "" && Template.ContainsToken(message) {
      Template.ContainsIffCount(message);
      Template.ReplaceLength(message, name);
    }
  }
}

/**
 * The pieces of the demo script that compute something: its own copy of the phone normaliser
 * with the numbers it shows, its `{name}` replacement and its estimate of a run's duration.
 */
module Demo {
  import opened Wrappers
  import Phone
  import Template
  import Sender
  import TestSystem

  /** The nested `format_phone_number` of `demo_phone_formatting`. */
  function FormatPhoneNumber(phone: string): string {
    var digits := Phone.Digits(phone);
    if |digits| == 10 then "+91" + digits
    else if |digits| == 11 && Phone.StartsWith(digits, "0") then "+91" + digits[1..]
    else if !Phone.StartsWith(digits, "+") then "+" + digits
    else digits
  }

  /** The copy computes the engine's normaliser on every input. */
  lemma FormatMatchesEngine(phone: string)
    ensures FormatPhoneNumber(phone) == Phone.FormatPhoneNumber(phone)
  {
  }

  /** The two nested copies are the same function. */
  lemma SameAsTestCopy(phone: string)
    ensures FormatPhoneNumber(phone) == TestSystem.FormatPhoneNumber(phone)
  {
  }

  // As in the test script, `SpacedVector` and `OtherDemoVectors` state the numbers as joins of
  // short pieces; `Spelling` and `TestSystem.Spellings` show what they spell, and `DemoNumbers`
  // states the result on the numbers as the demo writes them.

  /** "+91 9876 543210" (its pieces joined below) spells the number the demo shows. */
  lemma Spelling()
    ensures "+91" + " " + "9876" + " " + "543210" == "+91 9876 543210"
  {
  }

  /** The spaces of "+91 9876 543210" are dropped with the `'+'`, leaving the twelve digits. */
  lemma SpacedVector()
    ensures FormatPhoneNumber("+91" + " " + "9876" + " " + "543210") == "+919876543210"
  {
    SameAsTestCopy("+91" + " " + "9876" + " " + "543210");
    TestSystem.SeparatorIgnored("+91" + " " + "9876", " ", "543210");
    assert "+91" + " " + "9876" + "543210" == "+91" + " " + ("9876" + "543210");
    TestSystem.SeparatorIgnored("+91", " ", "9876" + "543210");
    assert "+91" + ("9876" + "543210") == "+" + "91" + "98765" + "43210";
    TestSystem.PlusPrefixedVector();
  }

  /** The demo's other four numbers are the test's and give the same identifier. */
  lemma OtherDemoVectors()
    ensures FormatPhoneNumber("98765" + "43210") == "+919876543210"
    ensures FormatPhoneNumber("0" + "98765" + "43210") == "+919876543210"
    ensures FormatPhoneNumber("91" + "-" + "9876" + "-" + "543210") == "+919876543210"
    ensures FormatPhoneNumber("91" + "98765" + "43210") == "+919876543210"
  {
    SameAsTestCopy("98765" + "43210");
    SameAsTestCopy("0" + "98765" + "43210");
    SameAsTestCopy("91" + "-" + "9876" + "-" + "543210");
    SameAsTestCopy("91" + "98765" + "43210");
    TestSystem.TenDigitVector();
    TestSystem.LeadingZeroVector();
    TestSystem.DashedVector();
    TestSystem.TwelveDigitVector();
  }

  /** The five numbers of `demo_phone_formatting`, as written there, all give "+919876543210". */
  lemma DemoNumbers()
    ensures FormatPhoneNumber("9876543210") == "+919876543210"
    ensures FormatPhoneNumber("09876543210") == "+919876543210"
    ensures FormatPhoneNumber("91-9876-543210") == "+919876543210"
    ensures FormatPhoneNumber("+91 9876 543210") == "+919876543210"
    ensures FormatPhoneNumber("919876543210") == "+919876543210"
  {
    Spelling();
    TestSystem.Spellings();
    SpacedVector();
    OtherDemoVectors();
  }

  /** The demo's rule, `template.replace("{name}", name)`, applied whatever the name. */
  function Personalize(template: string, name: string): string {
    Template.ReplaceToken(template, name)
  }

  /** Testing for the token first changes nothing, so the demo's and the test's rules are one. */
  lemma SameAsTestRule(template: string, name: string)
    ensures Personalize(template, name) == TestSystem.Personalize(template, name)
  {
    if !Template.ContainsToken(template) {
      Template.NoTokenUnchanged(template, name);
    }
  }

  /**
   * With an empty name the demo deletes every `{name}`, shortening the message by six characters
   * each time, where the engine sends the template as it is.
   */
  lemma EmptyNameDeletesTokens(phone: string, template: string, defaultMessage: string)
    ensures Personalize(template, "") == Template.Join(Template.Split(template), "")
    ensures |Personalize(template, "")| == |template| - |Template.Token| * Template.CountTokens(template)
    ensures Sender.MessageFor(Sender.Contact(phone, Some(""), Some(template)), defaultMessage) == template
    ensures Template.ContainsToken(template) ==> Personalize(template, "") != template
  {
    var n := Template.CountTokens(template);
    assert Personalize(template, "") == Template.Join(Template.Split(template), "") by {
      Template.ReplaceIsJoin(template, "");
    }
    assert |Personalize(template, "")| == |template| - |Template.Token| * n by {
      Template.ReplaceLength(template, "");
      assert n * (|""| - |Template.Token|) == -(|Template.Token| * n);
    }
    assert Template.ContainsToken(template) ==> n > 0 by {
      Template.ContainsIffCount(template);
    }
    assert Sender.MessageFor(Sender.Contact(phone, Some(""), Some(template)), defaultMessage) == template;
  }

  /** The demo's estimate of a run: fifteen seconds per contact. */
  function EstimatedSeconds(contacts: nat): nat {
    contacts * 15
  }

  /**
   * The estimate is the time a run with the default delay sleeps when every send succeeds.
   */
  lemma EstimateIsSleepOfSuccessfulRun(contacts: seq<Sender.Contact>, message: string, wait: int,
                                       deliver: Sender.Transport, clock: Sender.Clock)
    requires var b := Sender.Batch(contacts, message, Sender.DefaultMessageDelay, wait);
      forall i :: 0 <= i < |contacts| ==> Sender.OutcomeOf(b, deliver, clock, i).Sent?
    ensures var b := Sender.Batch(contacts, message, Sender.DefaultMessageDelay, wait);
      Sender.TotalSleep(Sender.Run(b, deliver, clock, |contacts|).trace) == EstimatedSeconds(|contacts|)
  {
    var b := Sender.Batch(contacts, message, Sender.DefaultMessageDelay, wait);
    Sender.RunAllSent(b, deliver, clock, |contacts|);
  }
}

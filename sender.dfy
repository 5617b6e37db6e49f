/**
 * The bulk-send engine `WhatsAppBulkSender`: contacts built from parsed rows, the per-contact
 * message, the target send time, and the bulk and single send loops.
 *
 * The outside world is passed in. The transport `kit.sendwhatmsg` is a `Transport`: given the
 * number of the call within the run and the request, it answers `Sent` or `Failed(error text)`.
 * `datetime.now()` is a reading in seconds (counted from some midnight). What the engine does to
 * the world is returned as a trace: every transport call with its outcome, and every `time.sleep`.
 */
module Sender {
  import opened Wrappers
  import Phone
  import Template
  import Arith

  /** `MESSAGE_DELAY` when the environment does not set it: seconds between messages. */
  const DefaultMessageDelay: int := 15
  /** `TAB_CLOSE_DELAY` when the environment does not set it: seconds before the tab closes. */
  const DefaultTabCloseDelay: int := 3
  /** The text of the `ValueError` that `time.sleep` raises for a negative length. */
  const NegativeSleepError: string := "sleep length must be non-negative"
  /** The text of the `OverflowError` that `time.sleep` raises for a length beyond 64-bit nanoseconds. */
  const SleepOverflowError: string := "timestamp too large to convert to C _PyTime_t"
  /** The largest whole number of seconds whose nanoseconds fit in a signed 64-bit integer. */
  const MaxSleepSeconds: int := 9223372036

  /** `time.sleep(delay)` returns normally: the length fits in 64-bit nanoseconds and is not negative. */
  predicate Sleeps(delay: int) {
    0 <= delay <= MaxSleepSeconds
  }

  /** The text of the error `time.sleep(delay)` raises; the conversion is checked before the sign. */
  function SleepErrorOf(delay: int): string
    requires !Sleeps(delay)
  {
    if delay < -MaxSleepSeconds || delay > MaxSleepSeconds then SleepOverflowError else NegativeSleepError
  }

  /** One parsed row of a contacts table: column name to cell text. */
  type Row = map<string, string>

  /**
   * A contact dictionary. `phone` is always present; `name` and `message` may be missing keys,
   * which the engine tells apart from keys holding the empty string.
   */
  datatype Contact = Contact(phone: string, name: Option<string>, message: Option<string>)

  /** The arguments of one `kit.sendwhatmsg` call. */
  datatype Request = Request(phone: string, message: string, hour: int, minute: int, waitTime: int)

  datatype Outcome = Sent | Failed(error: string)

  /** The transport: call number within the run and request, to the outcome of that call. */
  type Transport = (nat, Request) -> Outcome

  /** `datetime.now()` as read on each iteration of the bulk loop, in seconds. */
  type Clock = nat -> int

  /** What a run does to the world, in order. */
  datatype Event = Call(request: Request, outcome: Outcome) | Slept(seconds: int)

  datatype FailedContact = FailedContact(phone: string, name: string, error: string)

  /** The `results` dictionary of `send_bulk_messages`. */
  datatype Results = Results(success: nat, failed: nat, failedContacts: seq<FailedContact>)

  // ---------------------------------------------------------------- contact loading

  /** `row.get(key, default)`. */
  function Lookup(row: Row, key: string, default: string): string {
    if key in row then row[key] else default
  }

  predicate AllHavePhone(rows: seq<Row>) {
    forall i :: 0 <= i < |rows| ==> "phone" in rows[i]
  }

  /** The contact dictionary built for one row; `row['phone']` raises when the column is missing. */
  function ContactOfRow(row: Row): (c: Contact)
    requires "phone" in row
  {
    Contact(Phone.FormatPhoneNumber(row["phone"]),
            Some(Lookup(row, "name", "")),
            Some(Lookup(row, "message", "")))
  }

  // ---------------------------------------------------------------- personalisation

  /**
   * The message sent to `c`: `contact.get('message', default_message)`, with every `{name}`
   * replaced by the name when the name is non-empty and the message holds the token.
   */
  function MessageFor(c: Contact, defaultMessage: string): string {
    var message := c.message.GetOr(defaultMessage);
    var name := c.name.GetOr("");
    if name != "" && Template.ContainsToken(message) then Template.ReplaceToken(message, name)
    else message
  }

  // ---------------------------------------------------------------- send times

  /** `datetime.hour` of an instant given in seconds. */
  function HourOf(t: int): (hour: int)
    ensures 0 <= hour < 24
  {
    (t / 3600) % 24
  }

  /** `datetime.minute` of an instant given in seconds. */
  function MinuteOf(t: int): (minute: int)
    ensures 0 <= minute < 60
  {
    (t / 60) % 60
  }

  /** The (hour, minute) of contact `i`: `now + i * message_delay` seconds. */
  function TargetTime(reading: int, i: nat, delay: int): (hm: (int, int))
    ensures 0 <= hm.0 < 24 && 0 <= hm.1 < 60
  {
    var t := reading + i * delay;
    (HourOf(t), MinuteOf(t))
  }

  /** The start time of a run: both given, or else `(now.hour, now.minute + 1)`. */
  function StartTime(hour: Option<int>, minute: Option<int>, reading: int): (int, int) {
    if hour.None? || minute.None? then (HourOf(reading), MinuteOf(reading) + 1)
    else (hour.value, minute.value)
  }

  // ---------------------------------------------------------------- the bulk run

  /** The inputs of one bulk run: the contacts, the default message and the sender's two delays. */
  datatype Batch = Batch(contacts: seq<Contact>, defaultMessage: string, messageDelay: int, tabCloseDelay: int)

  /** The transport request for contact `i`; the phone is used as stored, without normalising. */
  function RequestOf(b: Batch, clock: Clock, i: nat): Request
    requires i < |b.contacts|
  {
    var c := b.contacts[i];
    var (hour, minute) := TargetTime(clock(i), i, b.messageDelay);
    Request(c.phone, MessageFor(c, b.defaultMessage), hour, minute, b.tabCloseDelay)
  }

  function OutcomeOf(b: Batch, deliver: Transport, clock: Clock, i: nat): Outcome
    requires i < |b.contacts|
  {
    deliver(i, RequestOf(b, clock, i))
  }

  /**
   * The entry that contact `i` adds to `failed_contacts`, if any: the transport's error, or the
   * error of `time.sleep` when the delay is negative or too large (raised after `success` was counted).
   */
  function FailureOf(b: Batch, deliver: Transport, clock: Clock, i: nat): Option<FailedContact>
    requires i < |b.contacts|
  {
    var c := b.contacts[i];
    match OutcomeOf(b, deliver, clock, i)
    case Failed(e) => Some(FailedContact(c.phone, c.name.GetOr(""), e))
    case Sent =>
      if !Sleeps(b.messageDelay) then Some(FailedContact(c.phone, c.name.GetOr(""), SleepErrorOf(b.messageDelay))) else None
  }

  /** The events of contact `i`: its transport call, then a sleep if the send succeeded. */
  function Block(b: Batch, deliver: Transport, clock: Clock, i: nat): seq<Event>
    requires i < |b.contacts|
  {
    var o := OutcomeOf(b, deliver, clock, i);
    [Call(RequestOf(b, clock, i), o)] + (if o.Sent? && Sleeps(b.messageDelay) then [Slept(b.messageDelay)] else [])
  }

  datatype State = State(results: Results, trace: seq<Event>)

  /** The results and the trace after the first `k` contacts. */
  function Run(b: Batch, deliver: Transport, clock: Clock, k: nat): State
    requires k <= |b.contacts|
  {
    if k == 0 then State(Results(0, 0, []), [])
    else
      var s := Run(b, deliver, clock, k - 1);
      var o := OutcomeOf(b, deliver, clock, k - 1);
      var f := FailureOf(b, deliver, clock, k - 1);
      var r := s.results;
      State(Results(r.success + (if o.Sent? then 1 else 0),
                    r.failed + (if f.Some? then 1 else 0),
                    r.failedContacts + (if f.Some? then [f.value] else [])),
            s.trace + Block(b, deliver, clock, k - 1))
  }

  // ---------------------------------------------------------------- views of a trace

  /** The transport calls of a trace, in order. */
  function Attempts(trace: seq<Event>): (calls: seq<Event>)
    ensures forall j :: 0 <= j < |calls| ==> calls[j].Call?
  {
    if trace == [] then [] else (if trace[0].Call? then [trace[0]] else []) + Attempts(trace[1..])
  }

  /** The number of calls in a trace that succeeded. */
  function SuccessfulCalls(trace: seq<Event>): nat {
    if trace == [] then 0 else (if trace[0].Call? && trace[0].outcome.Sent? then 1 else 0) + SuccessfulCalls(trace[1..])
  }

  /** The total time slept in a trace, in seconds. */
  function TotalSleep(trace: seq<Event>): int {
    if trace == [] then 0 else (if trace[0].Slept? then trace[0].seconds else 0) + TotalSleep(trace[1..])
  }

  /** The values of the present entries, in order. */
  function Present<T>(s: seq<Option<T>>): seq<T> {
    if s == [] then [] else (if s[0].Some? then [s[0].value] else []) + Present(s[1..])
  }

  lemma {:induction false} TraceViewsAppend(a: seq<Event>, b: seq<Event>)
    ensures Attempts(a + b) == Attempts(a) + Attempts(b)
    ensures SuccessfulCalls(a + b) == SuccessfulCalls(a) + SuccessfulCalls(b)
    ensures TotalSleep(a + b) == TotalSleep(a) + TotalSleep(b)
  {
    if a == [] {
      assert a + b == b;
    } else {
      assert (a + b)[0] == a[0] && (a + b)[1..] == a[1..] + b;
      TraceViewsAppend(a[1..], b);
    }
  }

  lemma {:induction false} PresentAppend<T>(a: seq<Option<T>>, x: Option<T>)
    ensures Present(a + [x]) == Present(a) + (if x.Some? then [x.value] else [])
  {
    if a == [] {
      assert a + [x] == [x];
      assert [x][1..] == [];
    } else {
      var head := if a[0].Some? then [a[0].value] else [];
      assert (a + [x])[0] == a[0];
      assert (a + [x])[1..] == a[1..] + [x];
      PresentAppend(a[1..], x);
      assert Present(a + [x]) == head + Present(a[1..] + [x]);
      assert Present(a) == head + Present(a[1..]);
    }
  }

  lemma BlockViews(b: Batch, deliver: Transport, clock: Clock, i: nat)
    requires i < |b.contacts|
    ensures var bl := Block(b, deliver, clock, i); var o := OutcomeOf(b, deliver, clock, i);
      && Attempts(bl) == [Call(RequestOf(b, clock, i), o)]
      && SuccessfulCalls(bl) == (if o.Sent? then 1 else 0)
      && TotalSleep(bl) == (if o.Sent? && Sleeps(b.messageDelay) then b.messageDelay else 0)
  {
    var o := OutcomeOf(b, deliver, clock, i);
    var c := Call(RequestOf(b, clock, i), o);
    var extra: seq<Event> := if o.Sent? && Sleeps(b.messageDelay) then [Slept(b.messageDelay)] else [];
    assert Block(b, deliver, clock, i) == [c] + extra;
    TraceViewsAppend([c], extra);
    assert [c][1..] == [];
    if extra != [] {
      assert extra[1..] == [];
    }
  }

  // ---------------------------------------------------------------- properties of a run

  /**
   * Every contact is accounted for: one entry of `failed_contacts` per failure, and with a
   * delay that `time.sleep` accepts each contact is a success or a failure, never both and never
   * neither. With a delay it rejects every successful send is counted as a failure as well.
   */
  lemma {:induction false} RunAccounting(b: Batch, deliver: Transport, clock: Clock, k: nat)
    requires k <= |b.contacts|
    ensures var r := Run(b, deliver, clock, k).results;
      && |r.failedContacts| == r.failed
      && r.success <= k
      && (Sleeps(b.messageDelay) ==> r.success + r.failed == k)
      && (!Sleeps(b.messageDelay) ==> r.failed == k)
  {
    if k > 0 {
      RunAccounting(b, deliver, clock, k - 1);
    }
  }

  /**
   * `e` is the transport call made for contact `i`: the phone as stored, the personalised
   * message, the contact's target time and the settle delay, answered by the transport.
   */
  predicate IsCallFor(b: Batch, deliver: Transport, clock: Clock, i: nat, e: Event)
    requires i < |b.contacts|
  {
    && e.Call?
    && e.request.phone == b.contacts[i].phone
    && e.request.message == MessageFor(b.contacts[i], b.defaultMessage)
    && (e.request.hour, e.request.minute) == TargetTime(clock(i), i, b.messageDelay)
    && e.request.waitTime == b.tabCloseDelay
    && e.outcome == deliver(i, e.request)
  }

  /** One transport call per contact, in input order, whatever the earlier outcomes were. */
  lemma {:induction false} RunCalls(b: Batch, deliver: Transport, clock: Clock, k: nat)
    requires k <= |b.contacts|
    ensures var calls := Attempts(Run(b, deliver, clock, k).trace);
      && |calls| == k
      && forall i :: 0 <= i < k ==> IsCallFor(b, deliver, clock, i, calls[i])
  {
    if k > 0 {
      var prev := Attempts(Run(b, deliver, clock, k - 1).trace);
      var calls := Attempts(Run(b, deliver, clock, k).trace);
      RunCalls(b, deliver, clock, k - 1);
      RunStep(b, deliver, clock, k);
      forall i | 0 <= i < k ensures IsCallFor(b, deliver, clock, i, calls[i]) {
        if i < k - 1 {
          assert calls[i] == prev[i];
        } else {
          assert calls[i] == Call(RequestOf(b, clock, k - 1), OutcomeOf(b, deliver, clock, k - 1));
        }
      }
    }
  }

  /** One step of a run, seen through the counters and the views of its trace. */
  lemma RunStep(b: Batch, deliver: Transport, clock: Clock, k: nat)
    requires 0 < k <= |b.contacts|
    ensures var s := Run(b, deliver, clock, k - 1); var s' := Run(b, deliver, clock, k);
      var o := OutcomeOf(b, deliver, clock, k - 1);
      && s'.results.success == s.results.success + (if o.Sent? then 1 else 0)
      && Attempts(s'.trace) == Attempts(s.trace) + [Call(RequestOf(b, clock, k - 1), o)]
      && SuccessfulCalls(s'.trace) == SuccessfulCalls(s.trace) + (if o.Sent? then 1 else 0)
      && TotalSleep(s'.trace) == TotalSleep(s.trace) + (if o.Sent? && Sleeps(b.messageDelay) then b.messageDelay else 0)
  {
    var s := Run(b, deliver, clock, k - 1);
    var bl := Block(b, deliver, clock, k - 1);
    assert Run(b, deliver, clock, k).trace == s.trace + bl;
    TraceViewsAppend(s.trace, bl);
    BlockViews(b, deliver, clock, k - 1);
  }

  /** `success` is the number of calls that succeeded, and the run slept `message_delay` after each. */
  lemma {:induction false} RunSuccessAndSleep(b: Batch, deliver: Transport, clock: Clock, k: nat)
    requires k <= |b.contacts|
    ensures var s := Run(b, deliver, clock, k);
      && s.results.success == SuccessfulCalls(s.trace)
      && TotalSleep(s.trace) == (if Sleeps(b.messageDelay) then s.results.success * b.messageDelay else 0)
  {
    if k > 0 {
      RunSuccessAndSleep(b, deliver, clock, k - 1);
      RunStep(b, deliver, clock, k);
      Arith.MulSucc(Run(b, deliver, clock, k - 1).results.success, b.messageDelay);
    }
  }

  /** `failed_contacts` holds the failure of each failing contact, in input order. */
  lemma {:induction false} RunFailures(b: Batch, deliver: Transport, clock: Clock, k: nat)
    requires k <= |b.contacts|
    ensures Run(b, deliver, clock, k).results.failedContacts
         == Present(seq(k, i requires 0 <= i < k => FailureOf(b, deliver, clock, i)))
  {
    if k > 0 {
      RunFailures(b, deliver, clock, k - 1);
      var prev := seq(k - 1, i requires 0 <= i < k - 1 => FailureOf(b, deliver, clock, i));
      var all := seq(k, i requires 0 <= i < k => FailureOf(b, deliver, clock, i));
      assert all == prev + [FailureOf(b, deliver, clock, k - 1)];
      PresentAppend(prev, FailureOf(b, deliver, clock, k - 1));
    }
  }

  /**
   * Pacing of a trace: a sleep of `delay` comes right after every successful call, and every
   * sleep comes right after a successful call, so none follows a failed one.
   */
  predicate Paced(t: seq<Event>, delay: int) {
    && (forall p :: 0 <= p < |t| && t[p].Slept? ==>
          && t[p].seconds == delay && Sleeps(delay)
          && p > 0 && t[p - 1].Call? && t[p - 1].outcome.Sent?)
    && (forall p :: 0 <= p < |t| && t[p].Call? && t[p].outcome.Sent? && Sleeps(delay) ==>
          p + 1 < |t| && t[p + 1] == Slept(delay))
  }

  /** Every run is paced by the sender's `message_delay`. */
  lemma {:induction false} RunPacing(b: Batch, deliver: Transport, clock: Clock, k: nat)
    requires k <= |b.contacts|
    ensures Paced(Run(b, deliver, clock, k).trace, b.messageDelay)
  {
    if k > 0 {
      RunPacing(b, deliver, clock, k - 1);
      var prev := Run(b, deliver, clock, k - 1).trace;
      var bl := Block(b, deliver, clock, k - 1);
      var o := OutcomeOf(b, deliver, clock, k - 1);
      var d := b.messageDelay;
      var t := prev + bl;
      assert t == Run(b, deliver, clock, k).trace;
      assert bl[0] == Call(RequestOf(b, clock, k - 1), o);
      assert |bl| == (if o.Sent? && Sleeps(d) then 2 else 1);
      assert |bl| == 2 ==> bl[1] == Slept(d);
      forall p | 0 <= p < |t| && t[p].Slept?
        ensures t[p].seconds == d && Sleeps(d) && p > 0 && t[p - 1].Call? && t[p - 1].outcome.Sent?
      {
        if p < |prev| {
          assert t[p] == prev[p];
          assert prev[p].Slept?;
          assert t[p - 1] == prev[p - 1];
        } else {
          assert t[p] == bl[p - |prev|];
          assert p == |prev| + 1 && t[p - 1] == bl[0];
        }
      }
      forall p | 0 <= p < |t| && t[p].Call? && t[p].outcome.Sent? && Sleeps(d)
        ensures p + 1 < |t| && t[p + 1] == Slept(d)
      {
        if p < |prev| {
          assert t[p] == prev[p];
          assert prev[p].Call? && prev[p].outcome.Sent?;
          assert t[p + 1] == prev[p + 1];
        } else {
          assert t[p] == bl[p - |prev|];
          assert p == |prev| && t[p + 1] == bl[1];
        }
      }
    }
  }

  /** When every send succeeds and the delay can be slept, nothing fails and the run sleeps `k * delay`. */
  lemma {:induction false} RunAllSent(b: Batch, deliver: Transport, clock: Clock, k: nat)
    requires k <= |b.contacts| && Sleeps(b.messageDelay)
    requires forall i :: 0 <= i < k ==> OutcomeOf(b, deliver, clock, i).Sent?
    ensures var s := Run(b, deliver, clock, k);
      s.results == Results(k, 0, []) && TotalSleep(s.trace) == k * b.messageDelay
  {
    if k > 0 {
      var s := Run(b, deliver, clock, k - 1);
      var s' := Run(b, deliver, clock, k);
      RunAllSent(b, deliver, clock, k - 1);
      RunStep(b, deliver, clock, k);
      assert OutcomeOf(b, deliver, clock, k - 1).Sent?;
      assert FailureOf(b, deliver, clock, k - 1).None?;
      assert s'.results == Results(s.results.success + 1, s.results.failed, s.results.failedContacts);
      assert TotalSleep(s'.trace) == TotalSleep(s.trace) + b.messageDelay;
      Arith.MulSucc(k - 1, b.messageDelay);
    }
  }

  /**
   * A single contact whose transport call raises "blocked" is the only failed contact, whatever
   * the delay: a failed call never reaches `time.sleep`.
   */
  lemma BlockedScenario(c: Contact, message: string, delay: int, wait: int, deliver: Transport, clock: Clock)
    requires deliver(0, RequestOf(Batch([c], message, delay, wait), clock, 0)) == Failed("blocked")
    ensures Run(Batch([c], message, delay, wait), deliver, clock, 1).results
         == Results(0, 1, [FailedContact(c.phone, c.name.GetOr(""), "blocked")])
  {
  }

  /**
   * A single contact whose send succeeds but whose delay `time.sleep` rejects is counted as a
   * success and as a failure, with the sleep's error, and nothing is slept.
   */
  lemma SleepRejectedScenario(c: Contact, message: string, delay: int, wait: int, deliver: Transport, clock: Clock)
    requires !Sleeps(delay)
    requires deliver(0, RequestOf(Batch([c], message, delay, wait), clock, 0)) == Sent
    ensures var s := Run(Batch([c], message, delay, wait), deliver, clock, 1);
      && s.results == Results(1, 1, [FailedContact(c.phone, c.name.GetOr(""), SleepErrorOf(delay))])
      && s.trace == [Call(RequestOf(Batch([c], message, delay, wait), clock, 0), Sent)]
  {
  }

  /** Lengths beyond 64-bit nanoseconds overflow on either side; other negative lengths are refused as negative. */
  lemma SleepErrorCases()
    ensures Sleeps(0) && Sleeps(MaxSleepSeconds) && !Sleeps(MaxSleepSeconds + 1) && !Sleeps(-1)
    ensures SleepErrorOf(10000000000) == SleepOverflowError
    ensures SleepErrorOf(-10000000000) == SleepOverflowError
    ensures SleepErrorOf(-MaxSleepSeconds) == NegativeSleepError
    ensures SleepErrorOf(-1) == NegativeSleepError
  {
  }

  // ---------------------------------------------------------------- properties of the parts

  /**
   * The message of a contact comes from its own `message` key whenever the key exists, even
   * when it is empty; the default is used only when the key is missing. It is then unchanged
   * unless the name is non-empty and the message holds `{name}`; in that case each occurrence
   * found by the split is replaced by the name, which changes the length by `|name| - 6` each.
   */
  lemma MessageForCases(c: Contact, defaultMessage: string)
    ensures var template := if c.message.Some? then c.message.value else defaultMessage;
      var name := if c.name.Some? then c.name.value else "";
      var m := MessageFor(c, defaultMessage);
      && (name == "" || !Template.ContainsToken(template) ==> m == template)
      && (name != "" && Template.ContainsToken(template) ==>
            && Template.CountTokens(template) >= 1
            && m == Template.Join(Template.Split(template), name)
            && |m| == |template| + Template.CountTokens(template) * (|name| - |Template.Token|))
  {
    var template := c.message.GetOr(defaultMessage);
    var name := c.name.GetOr("");
    Template.ContainsIffCount(template);
    Template.ReplaceIsJoin(template, name);
    Template.ReplaceLength(template, name);
  }

  /** A message key that holds the empty string sends the empty string, whatever the default. */
  lemma EmptyMessageIsSent(c: Contact, defaultMessage: string)
    requires c.message == Some("")
    ensures MessageFor(c, defaultMessage) == ""
  {
    assert !Template.ContainsToken("");
  }

  /**
   * A contact built by the loader always has a `message` key, so the default message of a bulk
   * run never reaches it; a row without a `message` column sends the empty string.
   */
  lemma LoadedContactIgnoresDefault(row: Row, d1: string, d2: string)
    requires "phone" in row
    ensures MessageFor(ContactOfRow(row), d1) == MessageFor(ContactOfRow(row), d2)
    ensures "message" !in row ==> MessageFor(ContactOfRow(row), d1) == ""
  {
    if "message" !in row {
      EmptyMessageIsSent(ContactOfRow(row), d1);
    }
  }

  /** The target (hour, minute) is the minute of the day that holds the instant `now + i * delay`. */
  lemma TargetTimeOfDay(reading: int, i: nat, delay: int)
    ensures var t := reading + i * delay; var hm := TargetTime(reading, i, delay);
      && 0 <= hm.0 < 24 && 0 <= hm.1 < 60
      && hm.0 * 3600 + hm.1 * 60 <= t % 86400 < hm.0 * 3600 + hm.1 * 60 + 60
  {
    var t := reading + i * delay;
    var q, r := t / 60, t % 60;
    var a, m := q / 60, q % 60;
    var d, h := a / 24, a % 24;
    assert t == 3600 * a + (60 * m + r);
    assert t / 3600 == a;
    assert t == 86400 * d + (3600 * h + 60 * m + r);
    assert t % 86400 == 3600 * h + 60 * m + r;
  }

  /** Without an explicit start, the start minute is `now.minute + 1`, which is 60 at minute 59. */
  lemma StartTimeBounds(hour: Option<int>, minute: Option<int>, reading: int)
    ensures var st := StartTime(hour, minute, reading);
      && (hour.Some? && minute.Some? ==> st == (hour.value, minute.value))
      && (hour.None? || minute.None? ==>
            && 0 <= st.0 < 24 && 1 <= st.1 <= 60
            && (st.1 == 60 <==> MinuteOf(reading) == 59))
  {
  }

  lemma StartMinuteCanBeSixty()
    ensures StartTime(None, None, 59 * 60) == (0, 60)
  {
  }

  // ---------------------------------------------------------------- the engine

  class WhatsAppBulkSender {
    var messageDelay: int
    var tabCloseDelay: int

    /** The two delays come from `MESSAGE_DELAY` and `TAB_CLOSE_DELAY`, or default to 15 and 3. */
    constructor (messageDelayEnv: Option<int>, tabCloseDelayEnv: Option<int>)
      ensures messageDelay == messageDelayEnv.GetOr(DefaultMessageDelay)
      ensures tabCloseDelay == tabCloseDelayEnv.GetOr(DefaultTabCloseDelay)
    {
      messageDelay := messageDelayEnv.GetOr(DefaultMessageDelay);
      tabCloseDelay := tabCloseDelayEnv.GetOr(DefaultTabCloseDelay);
    }

    /** The row loop of both loaders; `None` when some row has no `phone` column. */
    method ContactsFromRows(rows: seq<Row>) returns (contacts: Option<seq<Contact>>)
      ensures contacts.Some? <==> AllHavePhone(rows)
      ensures contacts.Some? ==>
        && |contacts.value| == |rows|
        && forall i :: 0 <= i < |rows| ==> contacts.value[i] == ContactOfRow(rows[i])
    {
      var acc: seq<Contact> := [];
      var i := 0;
      while i < |rows|
        invariant 0 <= i <= |rows|
        invariant AllHavePhone(rows[..i])
        invariant |acc| == i
        invariant forall j :: 0 <= j < i ==> "phone" in rows[j] && acc[j] == ContactOfRow(rows[j])
      {
        if "phone" !in rows[i] {
          assert !AllHavePhone(rows);
          return None;
        }
        acc := acc + [ContactOfRow(rows[i])];
        i := i + 1;
      }
      return Some(acc);
    }

    /**
     * `load_contacts_from_csv` over the parsed table (`None` when reading the file failed):
     * one contact per row, in order, with the phone normalised and `name`/`message` defaulting
     * to the empty string; any failure gives the empty list.
     */
    method LoadContactsFromCsv(parsed: Option<seq<Row>>) returns (contacts: seq<Contact>)
      ensures parsed.Some? && AllHavePhone(parsed.value) ==>
        && |contacts| == |parsed.value|
        && forall i :: 0 <= i < |contacts| ==>
             && contacts[i].phone == Phone.FormatPhoneNumber(parsed.value[i]["phone"])
             && contacts[i].name == Some(Lookup(parsed.value[i], "name", ""))
             && contacts[i].message == Some(Lookup(parsed.value[i], "message", ""))
      ensures !(parsed.Some? && AllHavePhone(parsed.value)) ==> contacts == []
    {
      if parsed.None? {
        return [];
      }
      var loaded := ContactsFromRows(parsed.value);
      contacts := loaded.GetOr([]);
    }

    /** `load_contacts_from_excel`: the same row mapping over the parsed sheet. */
    method LoadContactsFromExcel(parsed: Option<seq<Row>>) returns (contacts: seq<Contact>)
      ensures parsed.Some? && AllHavePhone(parsed.value) ==>
        && |contacts| == |parsed.value|
        && forall i :: 0 <= i < |contacts| ==>
             && contacts[i].phone == Phone.FormatPhoneNumber(parsed.value[i]["phone"])
             && contacts[i].name == Some(Lookup(parsed.value[i], "name", ""))
             && contacts[i].message == Some(Lookup(parsed.value[i], "message", ""))
      ensures !(parsed.Some? && AllHavePhone(parsed.value)) ==> contacts == []
    {
      if parsed.None? {
        return [];
      }
      var loaded := ContactsFromRows(parsed.value);
      contacts := loaded.GetOr([]);
    }

    /**
     * `send_bulk_messages`. `startReading` is the clock when the start time is defaulted and
     * `clock(i)` the clock on iteration `i`; `startTime` is the start time the run logs.
     */
    method SendBulkMessages(contacts: seq<Contact>, defaultMessage: string,
                            startHour: Option<int>, startMinute: Option<int>,
                            deliver: Transport, startReading: int, clock: Clock)
      returns (results: Results, trace: seq<Event>, startTime: (int, int))
      ensures State(results, trace) == Run(Batch(contacts, defaultMessage, messageDelay, tabCloseDelay), deliver, clock, |contacts|)
      ensures startTime == StartTime(startHour, startMinute, startReading)
      ensures |results.failedContacts| == results.failed
      ensures Sleeps(messageDelay) ==> results.success + results.failed == |contacts|
      ensures |Attempts(trace)| == |contacts|
      ensures Paced(trace, messageDelay)
      ensures contacts == [] ==> results == Results(0, 0, []) && trace == []
    {
      ghost var b := Batch(contacts, defaultMessage, messageDelay, tabCloseDelay);
      results := Results(0, 0, []);
      trace := [];
      startTime := StartTime(startHour, startMinute, startReading);
      for i := 0 to |contacts|
        invariant State(results, trace) == Run(b, deliver, clock, i)
      {
        var contact := contacts[i];
        var phone := contact.phone;
        var name := contact.name.GetOr("");
        var message := MessageFor(contact, defaultMessage);
        var (hour, minute) := TargetTime(clock(i), i, messageDelay);
        var request := Request(phone, message, hour, minute, tabCloseDelay);
        var outcome := deliver(i, request);
        trace := trace + [Call(request, outcome)];
        match outcome {
          case Sent =>
            results := results.(success := results.success + 1);
            if !Sleeps(messageDelay) {
              results := results.(failed := results.failed + 1,
                                  failedContacts := results.failedContacts + [FailedContact(contact.phone, name, SleepErrorOf(messageDelay))]);
            } else {
              trace := trace + [Slept(messageDelay)];
            }
          case Failed(e) =>
            results := results.(failed := results.failed + 1,
                                failedContacts := results.failedContacts + [FailedContact(contact.phone, name, e)]);
        }
      }
      RunAccounting(b, deliver, clock, |contacts|);
      RunCalls(b, deliver, clock, |contacts|);
      RunPacing(b, deliver, clock, |contacts|);
    }

    /**
     * `send_single_message`: normalise the phone, make exactly one transport call with the given
     * time or `(now.hour, now.minute + 1)`, and report whether it succeeded; nothing is raised.
     */
    method SendSingleMessage(phone: string, message: string, hour: Option<int>, minute: Option<int>,
                             deliver: Transport, reading: int)
      returns (ok: bool, trace: seq<Event>)
      ensures |trace| == 1 && trace[0].Call?
      ensures var request := trace[0].request;
        && request.phone == Phone.FormatPhoneNumber(phone)
        && request.message == message
        && (request.hour, request.minute) == StartTime(hour, minute, reading)
        && request.waitTime == tabCloseDelay
        && trace[0].outcome == deliver(0, request)
      ensures ok <==> trace[0].outcome.Sent?
    {
      var formatted := Phone.FormatPhoneNumber(phone);
      var (h, m) := StartTime(hour, minute, reading);
      var request := Request(formatted, message, h, m, tabCloseDelay);
      var outcome := deliver(0, request);
      trace := [Call(request, outcome)];
      ok := outcome.Sent?;
    }
  }
}

# WhatsApp bulk sender: a Dafny model of the send engine

This project models the engine class `WhatsAppBulkSender` of the WhatsApp bulk sender. It has five parts:

- the phone normaliser `_format_phone_number`: keep the digits, then add the `+91` country code or a bare `+`;
- the contact rows built by the CSV and Excel loaders;
- the `{name}` personalisation of each message;
- the bulk send loop `send_bulk_messages`, with its `success` / `failed` / `failed_contacts` results;
- the one-shot `send_single_message`.

It also models the copies of the normaliser in the system test script and in the demo script, with the numbers those scripts try. It models their variant personalisation rule (replace unconditionally), the test's row-reading loop and the demo's duration estimate. Each copy is related to the engine.

Modules:

- `Wrappers`: `Option`.
- `Phone`: the digit filter and the normaliser.
- `Arith`: one step of multiplication that the counting proofs share.
- `Template`: `str.replace('{name}', value)` as a left-to-right scan, with `count`, `split` and `join` as reference definitions.
- `Sender`: contacts and rows, the message and send-time rules, and a specification function `Run` of the bulk loop. Its class `WhatsAppBulkSender` has the two delay fields and the loader and send methods. Each method is proved against these functions.
- `TestSystem` and `Demo`: the two scripts.

The outside world is passed in:

- The transport `kit.sendwhatmsg` is a `Transport`. It maps the call number within a run and the request (phone, message, hour, minute, wait time) to `Sent` or `Failed(error text)`.
- `datetime.now()` is a reading in whole seconds. A run uses one reading for a defaulted start time and `clock(i)` on iteration `i`.
- The environment variables `MESSAGE_DELAY` and `TAB_CLOSE_DELAY` reach the constructor as already-parsed `Option<int>` values.
- The loaders receive the table already parsed into rows (`map<string, string>`). `None` stands for a file that could not be read.
- What a run does to the world is returned as a trace. Each transport call is recorded with its outcome, and each `time.sleep` with its length.

Behaviours of the code that the model keeps as written:

- A contact's message is its own `message` value whenever that key exists, even when it is empty (`contact.get('message', default_message)`, whatsapp_bulk_sender.py:125). The comment at examples.py:85 (`'message': ''` marked as using the default message) expects an empty message to fall back to the default; the code does not do that. The docstring at whatsapp_bulk_sender.py:102 ("if contact doesn't have specific message") is ambiguous between the two readings; the code honours it only for a missing key. The loaders always set the key (whatsapp_bulk_sender.py:42, 66), so loaded contacts never use the default: `LoadedContactIgnoresDefault`. A contact `{phone: "9876543210", name: "Ann", message: ""}` with template `"Hi {name}!"` therefore sends `""`, not `"Hi Ann!"`: `EmptyMessageIsSent`.
- The `'+'` test of the normaliser's third branch is always true, so its fall-through branch is dead: `PlusTestAlwaysTrue`.
- The start time (`start_hour`, `start_minute`) is only logged. Every target time comes from the clock reading of that iteration plus `i * message_delay` seconds. `SendBulkMessages` equals `Run` of a batch that does not contain the start time.
- The defaulted minute `now.minute + 1` is 60 at minute 59: `StartMinuteCanBeSixty`.
- Bulk sends use `contact['phone']` as stored, without normalising it.
- `time.sleep(message_delay)` raises inside the `try`, after `success` was counted, when the delay is negative (`ValueError`) or when its nanoseconds do not fit in a signed 64-bit integer, beyond ±9223372036 seconds (`OverflowError`; this conversion is checked first, so a huge negative delay gives the overflow text). A contact whose send succeeded is then counted as a success and as a failure, and nothing is slept. `Sleeps` is the range that sleeps normally, `SleepErrorOf` the error text, and `RunAccounting` states both cases.

## Model

| member | source | states |
|---|---|---|
| Phone.Digits | whatsapp_bulk_sender.py:83 | the filtered string holds only digits and is no longer than the input |
| Phone.FormatPhoneNumber | whatsapp_bulk_sender.py:77-93 | the identifier is a `'+'` followed only by digits, and it is `"+"` alone exactly when the input has no digit |
| Phone.DigitsIdentity | whatsapp_bulk_sender.py:83 | filtering leaves a string unchanged if and only if it is made of digits only |
| Phone.DigitsAround | whatsapp_bulk_sender.py:82-83 | a separator without digits between two parts is dropped: the digits of the whole are the digits of the two parts |
| Phone.PlusTestAlwaysTrue | whatsapp_bulk_sender.py:90-91 | a filtered string never starts with `'+'`, so the third branch is always taken when the first two are not |
| Phone.FormatCases | whatsapp_bulk_sender.py:83-93 | with d the digits of the input: ten digits give `"+91" + d`, eleven digits starting with `0` give `"+91" + d[1..]`, anything else gives `"+" + d` |
| Phone.LeadingZeroDropped | whatsapp_bulk_sender.py:86-89 | a ten-digit number with a trunk `0` in front gives the same identifier as without it, `"+91"` followed by the ten digits |
| Phone.FormatIdempotent | whatsapp_bulk_sender.py:77-93 | normalising a normalised identifier changes nothing, for every input including the one without digits |
| Template.Split | whatsapp_bulk_sender.py:129 | splitting at the token gives one piece more than there are occurrences |
| Template.ContainsToken | whatsapp_bulk_sender.py:128 | Python's `'{name}' in message`: some position holds the token; `ContainsIffCount` ties it to `CountTokens` |
| Template.ReplaceToken | whatsapp_bulk_sender.py:129 | `message.replace('{name}', name)` as a left-to-right scan that replaces each non-overlapping occurrence; `ReplaceIsJoin`, `ReplaceLength` and `NoTokenUnchanged` state its result |
| Template.CountTokens | whatsapp_bulk_sender.py:129 | the number of occurrences that the scan of `replace` replaces (Python's `message.count('{name}')`); `ContainsIffCount` and `Split`'s piece count relate it to the other definitions |
| Template.Join | whatsapp_bulk_sender.py:129 | `sep.join(pieces)` (the empty list joins to `""`), the reference for `replace` in `ReplaceIsJoin` and for the split in `SplitJoin` |
| Template.ContainsIffCount | whatsapp_bulk_sender.py:128-129 | the template holds `{name}` if and only if the scan of `replace` finds at least one occurrence |
| Template.NoTokenUnchanged | whatsapp_bulk_sender.py:128-129 | without `{name}` the replacement returns the template unchanged |
| Template.ReplaceLength | whatsapp_bulk_sender.py:129 | replacing changes the length by `count * (|name| - 6)` |
| Template.SplitJoin | whatsapp_bulk_sender.py:129 | joining the pieces of the split with the token gives back the template |
| Template.ReplaceIsJoin | whatsapp_bulk_sender.py:129 | `replace` equals joining the pieces of the split with the name: each non-overlapping left-to-right occurrence is replaced |
| Template.SplitPiecesTokenFree | whatsapp_bulk_sender.py:129 | no piece between replaced occurrences still holds a token, so no occurrence is left unreplaced |
| Sender.MessageForCases | whatsapp_bulk_sender.py:124-129 | the template is the `message` value if the key exists, else the default. With an empty name or no token it is sent unchanged; otherwise it is the join of its pieces with the name, with at least one occurrence and the length changed by `count * (|name| - 6)` |
| Sender.MessageFor | whatsapp_bulk_sender.py:124-129 | the message sent to a contact: `contact.get('message', default_message)`, with every `{name}` replaced when the name is non-empty and the token occurs; `MessageForCases` states its cases |
| Sender.ContactOfRow | whatsapp_bulk_sender.py:39-43 | the contact dictionary of one row: the normalised phone and `row.get('name', '')`, `row.get('message', '')`; `ContactsFromRows` and the loaders state this mapping per row |
| Sender.EmptyMessageIsSent | whatsapp_bulk_sender.py:125-129 | a `message` key holding the empty string sends the empty string, whatever the default |
| Sender.LoadedContactIgnoresDefault | whatsapp_bulk_sender.py:39-43 | a loaded contact's message does not depend on the default message, and a row without a `message` column sends `""` |
| Sender.TargetTimeOfDay | whatsapp_bulk_sender.py:132-134 | the target hour is in 0..23 and the minute in 0..59, and together they name the minute of the day holding `now + i * message_delay` |
| Sender.HourOf | whatsapp_bulk_sender.py:133 | `datetime.hour` of an instant in seconds, always in 0..23 |
| Sender.MinuteOf | whatsapp_bulk_sender.py:134 | `datetime.minute` of an instant in seconds, always in 0..59 |
| Sender.TargetTime | whatsapp_bulk_sender.py:132-134 | the (hour, minute) of `now + i * message_delay`, with the hour in 0..23 and the minute in 0..59; `TargetTimeOfDay` shows it names the minute of the day holding that instant |
| Sender.StartTime | whatsapp_bulk_sender.py:113-116 | both given, or `(now.hour, now.minute + 1)` (also lines 172-175); `StartTimeBounds` states its range |
| Sender.StartTimeBounds | whatsapp_bulk_sender.py:112-116 | a given start time is kept. A defaulted one is the current hour and the current minute plus one, in 1..60, which is 60 exactly at minute 59 |
| Sender.StartMinuteCanBeSixty | whatsapp_bulk_sender.py:116 | at 00:59 the defaulted start time is (0, 60) |
| Sender.RunAccounting | whatsapp_bulk_sender.py:106-160 | `len(failed_contacts) == failed` and `success` is at most the number of contacts. With a delay that `time.sleep` accepts `success + failed` equals the number of contacts; with one it rejects every contact is counted as failed |
| Sender.Run | whatsapp_bulk_sender.py:121-160 | the results and the trace after the first k contacts, built contact by contact from `RequestOf` (the call's arguments), `OutcomeOf`, `FailureOf` (the entry for `failed_contacts`) and `Block` (the call and the sleep); the `Run*` lemmas state its properties and `SendBulkMessages` is proved equal to it |
| Sender.RequestOf | whatsapp_bulk_sender.py:123-145 | the arguments of the call for contact i: the stored phone, the personalised message, the target time and `tab_close_delay`; `RunCalls` states them for every call of a run |
| Sender.Sleeps | whatsapp_bulk_sender.py:151 | `time.sleep(message_delay)` returns normally exactly for 0 to 9223372036 seconds, the lengths whose nanoseconds fit in a signed 64-bit integer and are not negative; `SleepErrorCases` shows both edges |
| Sender.SleepErrorOf | whatsapp_bulk_sender.py:151 | the error text of a rejected sleep: the `OverflowError` text beyond ±9223372036 seconds, else the negative-length `ValueError` text; `SleepErrorCases` gives one example of each on both sides |
| Sender.FailureOf | whatsapp_bulk_sender.py:151-160 | the `failed_contacts` entry of contact i: the transport's error, the error of `time.sleep` for a delay it rejects (negative, or beyond 64-bit nanoseconds), or none; `RunFailures` states that `failed_contacts` lists exactly these |
| Sender.Block | whatsapp_bulk_sender.py:139-151 | the events of contact i: its call, then a sleep of `message_delay` exactly when the call succeeded and `time.sleep` accepts the delay; `RunPacing` states the pacing of the whole trace |
| Sender.RunCalls | whatsapp_bulk_sender.py:121-145 | one transport call per contact in input order, even after failures. Each call has the stored phone, the personalised message, the contact's target time and `tab_close_delay`, and its outcome is the transport's answer |
| Sender.RunSuccessAndSleep | whatsapp_bulk_sender.py:147-151 | `success` is the number of calls that succeeded, and the time slept is `success * message_delay` (none when `time.sleep` rejects the delay) |
| Sender.RunFailures | whatsapp_bulk_sender.py:153-160 | `failed_contacts` lists, in input order, the (phone, name or `''`, error text) of exactly the contacts whose send or sleep raised |
| Sender.RunPacing | whatsapp_bulk_sender.py:147-151 | a sleep of `message_delay` follows every successful call, and every sleep follows a successful call, so none follows a failed one |
| Sender.RunAllSent | whatsapp_bulk_sender.py:121-151 | when every send succeeds and `time.sleep` accepts the delay, the results are `(n, 0, [])` and the run sleeps `n * message_delay` |
| Sender.BlockedScenario | whatsapp_bulk_sender.py:139-160 | one contact whose call fails with "blocked" gives `(0, 1, [(phone, name, "blocked")])`, for every delay, negative ones included |
| Sender.SleepRejectedScenario | whatsapp_bulk_sender.py:147-160 | one contact whose send succeeds with a delay `time.sleep` rejects gives `(1, 1, [(phone, name, sleep error)])` and a trace with the call and no sleep |
| Sender.SleepErrorCases | whatsapp_bulk_sender.py:151 | 0 and 9223372036 seconds sleep, 9223372037 and -1 do not; ±10^10 seconds give the overflow text, -1 and -9223372036 the negative-length text |
| Sender.WhatsAppBulkSender.constructor | whatsapp_bulk_sender.py:26-27 | `message_delay` and `tab_close_delay` are the configured values, or 15 and 3 by default |
| Sender.WhatsAppBulkSender.ContactsFromRows | whatsapp_bulk_sender.py:38-44 | it gives contacts if and only if every row has a `phone` column. Then there is one contact per row in order, with the normalised phone and `name`/`message` defaulting to `''` |
| Sender.WhatsAppBulkSender.LoadContactsFromCsv | whatsapp_bulk_sender.py:34-51 | on a readable table whose rows all have a phone: one contact per row in order, with the normalised phone and `name`/`message` defaulting to `''`; any failure gives `[]` |
| Sender.WhatsAppBulkSender.LoadContactsFromExcel | whatsapp_bulk_sender.py:58-75 | the same row mapping and the same `[]` on any failure, for the parsed sheet |
| Sender.WhatsAppBulkSender.SendBulkMessages | whatsapp_bulk_sender.py:95-163 | the results and trace are those of `Run` for the batch, and the logged start time is the start-time rule. Failures and `failed_contacts` agree, every contact is a success or a failure when `time.sleep` accepts the delay, there is one call per contact, the trace is paced, and an empty list gives `(0, 0, [])` with no call |
| Sender.WhatsAppBulkSender.SendSingleMessage | whatsapp_bulk_sender.py:165-192 | exactly one transport call, with the normalised phone, the message, the given or defaulted time and `tab_close_delay`; it returns true if and only if that call succeeded |
| TestSystem.FormatMatchesEngine | test_system.py:47-60 | the test's nested copy computes the engine's normaliser on every input |
| TestSystem.FormatPhoneNumber | test_system.py:47-60 | the test's nested normaliser, each rebinding of `phone` a new binding; `FormatMatchesEngine` proves it equal to the engine's |
| TestSystem.DigitStringCases | test_system.py:50-58 | on a digit string the copy takes the branch its length selects |
| TestSystem.SeparatorIgnored | test_system.py:50 | a separator without digits does not change the copy's result |
| TestSystem.Spellings | test_system.py:62-67 | the joined pieces used by the vector lemmas spell the test's five numbers |
| TestSystem.TenDigitVector | test_system.py:63 | "9876543210" gives "+919876543210" through the ten-digit branch |
| TestSystem.LeadingZeroVector | test_system.py:64 | "09876543210" gives "+919876543210" through the leading-zero branch |
| TestSystem.TwelveDigitVector | test_system.py:65 | "919876543210" gives "+919876543210" through the final branch |
| TestSystem.PlusPrefixedVector | test_system.py:66 | "+919876543210" gives itself: the `'+'` is filtered and put back |
| TestSystem.DashedVector | test_system.py:67 | "91-9876-543210" gives "+919876543210" |
| TestSystem.TestNumbers | test_system.py:62-68 | the five numbers as the test writes them all give "+919876543210" |
| TestSystem.ReadContacts | test_system.py:84-92 | it gives contacts if and only if every row has `phone`, `name` and `message`. Then there is one contact per row, in order, with the three values copied as they are |
| TestSystem.Personalize | test_system.py:97-100 | the test's rule: replace every `{name}` by the row's name whenever the token occurs, with no check on the name; `PersonalizeAgreesWithEngine` relates it to the engine |
| TestSystem.PersonalizeAgreesWithEngine | test_system.py:97-100 | the test's rule (replace whenever `{name}` occurs) gives the engine's message if and only if the name is non-empty or the message has no token |
| Demo.FormatMatchesEngine | demo.py:16-29 | the demo's nested copy computes the engine's normaliser on every input |
| Demo.FormatPhoneNumber | demo.py:16-29 | the demo's nested normaliser; `FormatMatchesEngine` and `SameAsTestCopy` prove it equal to the engine's and the test's |
| Demo.SameAsTestCopy | demo.py:16-29 | the demo's and the test's copies are the same function |
| Demo.Spelling | demo.py:35 | the joined pieces used by `SpacedVector` spell "+91 9876 543210" |
| Demo.SpacedVector | demo.py:35 | "+91 9876 543210" gives "+919876543210" |
| Demo.OtherDemoVectors | demo.py:31-37 | the demo's other four numbers all give "+919876543210" |
| Demo.DemoNumbers | demo.py:31-37 | the five numbers as the demo writes them all give "+919876543210" |
| Demo.Personalize | demo.py:58 | `template.replace("{name}", name)` whatever the name (also demo.py:79 and 105); `SameAsTestRule` and `EmptyNameDeletesTokens` relate it to the test's and the engine's rules |
| Demo.SameAsTestRule | demo.py:58 | the demo's unconditional replace (also at demo.py:79 and 105) equals the test's rule |
| Demo.EmptyNameDeletesTokens | demo.py:58 | with an empty name the demo deletes every `{name}`, shortening the message by 6 per occurrence and changing it whenever it holds the token, while the engine sends it unchanged |
| Demo.EstimatedSeconds | demo.py:100 | the estimate `len(contacts) * 15` seconds; `EstimateIsSleepOfSuccessfulRun` ties it to a run |
| Demo.EstimateIsSleepOfSuccessfulRun | demo.py:100 | the estimate `n * 15` seconds is the time a run with the default delay sleeps when every send succeeds |

## Left out

- The transport `kit.sendwhatmsg` (browser automation) is a foreign call; it is the `Transport` parameter.
- Reading files with pandas (`read_csv`, `read_excel`, the `sheet_name` argument) is foreign; the loaders take parsed rows. The dtype coercion goes with it: a numeric phone loses its leading `0`, and an empty cell becomes `nan`. The `str(row['phone'])` conversion is the identity on string cells.
- LoadContactsFromCsv and LoadContactsFromExcel: only a missing `phone` column stands for the exceptions a row can raise. Any other failure inside pandas is the unreadable-file case.
- Sender.Block, Sender.RequestOf, Sender.RunCalls and Sender.WhatsAppBulkSender.SendBulkMessages: `datetime.now() + timedelta(...)` at line 132 raises `OverflowError` before the call once the target leaves the years 1 to 9999 of `datetime`. The clock is a reading of seconds without a date, so the model records a call for every contact whatever `i * message_delay` is; the `Run*` contracts assume targets inside that range (for a delay of 10^10 seconds the source stops calling from about the 26th contact).
- Sender.FailureOf: the error entry datetime's `OverflowError` at line 132 would add is not modelled, for the same reason.
- `datetime.now()` is an injected reading in whole seconds, and `time.sleep` is a trace entry. The float `timedelta(minutes=i * (message_delay / 60))` is exact integer seconds; sub-second parts and float rounding are not modelled.
- Phone.Digits: Python's `str.isdigit` also accepts non-ASCII digits; only `'0'`-`'9'` are modelled.
- Sender.WhatsAppBulkSender.constructor: reading `.env` and parsing the environment with `int()` happens before the constructor; a non-numeric value, which makes `int()` raise, is not modelled.
- Logging (whatsapp_bulk_sender.py:14-22 and every `logging` call) writes only to the log; the logged start time is returned instead.
- Sender.WhatsAppBulkSender.SendBulkMessages: every contact carries a `phone`. In the source a contact without one raises again in the handler (line 154) and ends the run. A `name` that is not a string (a pandas `nan`) is not modelled either.
- `KeyboardInterrupt` and other errors that are not an `Exception` escape the loop in the source; they are not modelled.
- `schedule_bulk_messages` only registers a job with the third-party `schedule` library, and `main()` is an interactive `input()` menu; neither is modelled.
- The front ends (`cli.py`, `gui.py`, `web_gui.py`, the browser extension) are UI, threading and browser code, and are not part of this model.
- The print-only parts of the scripts are not modelled: the vector and contact print loops, `test_imports`, `test_cli_interface`, `create_test_contact_file`, `create_sample_contacts_file`, `environment_check.py`, `project_summary.py` and `examples.py`.

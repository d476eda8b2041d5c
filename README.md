# Skland daily attendance: a Dafny model of the check-in core

The program checks in, once a day, every Arknights character bound to one or more Skland
accounts. Then it sends one combined report through the configured notification channels.
This project models three parts of it:

- the combined log of `createCombinePushMessage`;
- the per-account check-in engine `doAttendanceForAccount`: bounded retries with
  exponential backoff, outcome classification, and the per-character and per-account logs;
- the top-level run in `index.ts`: split the tokens, log a header, check in every account and
  forward its entries, log a summary line, push once, exit 1 when an error was logged.

The project has four modules:

- `Text` (`text.dfy`): the JavaScript string operations the code relies on. These are
  `join`, `split` with a one-character separator, and the decimal rendering of numbers in
  template literals. It also has the ASCII case-insensitive substring test that
  `/timeout|Connect Timeout/i` performs.
- `CombinedPush` (`combined_push.dfy`): the closure state of `createCombinePushMessage` as
  the class `CombinedLog`. Its methods are `logger`, `add` and `push`. A ghost log keeps
  each message with its error flag. `push` hands a `Notice` value to each configured
  transport, in the source's order.
- `Attendance` (`attendance.dfy`): the check-in engine, written imperatively:
  - `TryAttendance` is one `try`/`catch` around the upstream call;
  - `RetryLoop` is the `while (retries < maxRetries)` loop;
  - `AttendCharacter` is one character's callback;
  - `DoAttendanceForAccount` loops over the characters.

  Each method is proved against a reference: `CharacterReport`, built on `ReportFrom`
  (where the loop is when it reaches attempt `k`), and `Reports` for an account. The
  properties are proved as lemmas about that reference.
- `DailyRun` (`daily_run.dfy`): `index.ts`, also imperative (`Run`, `LogRun`,
  `CheckInAccounts`, `CheckInAccount`, `Forward`). It is proved against `RunLog`, the
  combined log of a whole run.

The upstream service is modelled as an oracle. `calls(k)` is what the k-th check-in call of
one character returns or throws. The attempt index equals the source's `retries` counter,
since every attempt that does not end the loop increments it. An account's characters are
answered by `calls(i)(k)`. A run's accounts are answered by `Upstream(bindings, attendance)`,
indexed by account position.

A backoff wait is recorded as its length in milliseconds instead of being slept. A
notification is recorded as a `Notice` (channel, endpoint, title, body) instead of being
sent. The exit status is returned as a value.

## Model

| member | source | states |
|---|---|---|
| Text.JoinSplit | apps/node/src/index.ts:13 | joining the pieces of `split(',')` with "," gives back the token string, so splitting loses nothing |
| Text.SplitJoin | apps/node/src/index.ts:13 | splitting the join of comma-free tokens gives back exactly those tokens |
| Text.JoinLength | apps/node/src/attendance.ts:33 | the body `messages.join('\n\n')` holds every message's characters plus one separator per gap |
| Text.NatToString | apps/node/src/index.ts:33 | a count renders as a non-empty run of decimal digits with no leading zero, and 0 renders as "0" |
| Text.NatToStringValue | apps/node/src/index.ts:33 | the decimal rendering of a count in a template literal reads back as that count |
| Text.IntToString | apps/node/src/attendance.ts:86 | an award count renders as a non-empty text with a leading '-' exactly when it is negative, digits after it |
| Text.IntToStringValue | apps/node/src/attendance.ts:86 | the digits after the sign read back as the count's magnitude and have no leading zero; 0 renders as "0" |
| CombinedPush.CombinedLog.constructor | apps/node/src/attendance.ts:20-22 | a fresh combined log holds no message and no error |
| CombinedPush.CombinedLog.Logger | apps/node/src/attendance.ts:23-28 | `logger` appends the message, keeps the messages equal to the log's texts, and raises the flag for good on an error |
| CombinedPush.CombinedLog.Add | apps/node/src/attendance.ts:51-53 | `add` appends the message and leaves the error flag unchanged |
| CombinedPush.CombinedLog.Push | apps/node/src/attendance.ts:29-50 | the body is the log's messages joined by a blank line; the transports called are `Dispatches` of the options; the exit status is 1 exactly when some logged entry was an error, else 0 |
| CombinedPush.HasErrorConcat | apps/node/src/attendance.ts:27 | the sticky flag of two logs in a row is the disjunction of their flags |
| CombinedPush.DispatchesCarry | apps/node/src/attendance.ts:32-46 | every transport call carries the title 【森空岛每日签到】, the joined body and its channel's non-empty endpoint |
| CombinedPush.DispatchesReach | apps/node/src/attendance.ts:34-46 | a channel is called exactly when its option is set (non-empty) |
| CombinedPush.DispatchesOrdered | apps/node/src/attendance.ts:34-46 | the transports are called in the fixed order ServerChan, Bark, MessagePusher, Qmsg, each at most once |
| Attendance.Classify | apps/node/src/attendance.ts:84-117 | success iff a truthy response with `code === 0` and `message === 'OK'`; already checked in iff a falsy response or a thrown error with status 403; a bad response keeps the response's message and dump; any other thrown error is an error keeping the thrown message |
| Attendance.TimeoutIsSubstring | apps/node/src/attendance.ts:110 | the timeout test holds exactly when the message contains "timeout" in any letter case; the second alternative adds nothing |
| Attendance.ServerLabel | apps/node/src/attendance.ts:86 | the label is 官服 exactly when `Number(channelMasterId) - 1` is falsy (the id is 1 or not a number), and B 服 otherwise |
| Attendance.AttemptEntry | apps/node/src/attendance.ts:86-112 | an attempt's entry is flagged as an error exactly when the attempt is retried (bad response or thrown error) |
| Attendance.Backoff | apps/node/src/attendance.ts:120 | a backoff never exceeds ten seconds |
| Attendance.BackoffSchedule | apps/node/src/attendance.ts:119-121 | the delay after failure 1, 2, 3, 4 is 1000, 2000, 4000, 8000 ms, and 10000 ms from the fifth failure on |
| Attendance.BackoffsSchedule | apps/node/src/attendance.ts:119-122 | the waits after m failures are m delays, the j-th being the backoff after failure j+1 |
| Attendance.FirstTerminal | apps/node/src/attendance.ts:78-123 | the attempt that ends the loop lies within the allowed attempts and is a success or an "already checked in" |
| Attendance.FirstTerminalBefore | apps/node/src/attendance.ts:92-116 | every attempt before the one that ends the loop was retried |
| Attendance.ReportFromSkip | apps/node/src/attendance.ts:78-123 | retried attempts do not change where the loop ends: the outcome from attempt k is the outcome from the first terminal attempt after it |
| Attendance.ReportShape | apps/node/src/attendance.ts:78-127 | a character's report is made of the failures' entries followed by the terminal attempt's entry; when every allowed attempt failed, the "gave up" entry follows them instead |
| Attendance.SucceededIff | apps/node/src/attendance.ts:85-90 | a character succeeds exactly when some allowed attempt is a success and every attempt before it was retried |
| Attendance.GaveUpIff | apps/node/src/attendance.ts:125-127 | the final "gave up" entry is logged exactly when every allowed attempt failed, never after a success or an "already checked in" |
| Attendance.AttemptsBounded | apps/node/src/attendance.ts:75-78 | at most max(0, maxRetries) upstream calls; one more call than failures unless it gave up; `retries` ends at `maxRetries` when it gave up with attempts allowed |
| Attendance.ReportEntries | apps/node/src/attendance.ts:86-127 | one error entry per failed attempt, in order, then exactly one closing entry: the success text with the awards, the "already checked in" text, or the "gave up" text with the number of failures and the last error |
| Attendance.ReportWaits | apps/node/src/attendance.ts:118-122 | the waits follow the backoff schedule, one per failure except after the last allowed attempt, and are fewer than the allowed attempts |
| Attendance.ReportHasError | apps/node/src/attendance.ts:94-126 | a character's entries hold an error exactly when an attempt failed or it gave up |
| Attendance.ThreeFailures | apps/node/src/attendance.ts:78-127 | three attempts all answered `{code: 1, message: "fail"}`: three calls, waits of 1000 and 2000 ms, three error entries, then "gave up" naming 3 attempts and "fail" |
| Attendance.Characters | apps/node/src/attendance.ts:70 | the characters checked in are exactly those listed under an `arknights` binding |
| Attendance.CharactersOne | apps/node/src/attendance.ts:70 | one Arknights binding contributes its character list exactly, in its order and with every copy; any other binding contributes nothing |
| Attendance.CharactersConcat | apps/node/src/attendance.ts:70 | the flattening keeps the order of the binding list |
| Attendance.ReportsAt | apps/node/src/attendance.ts:73 | each character of the account gets its own report, under its own calls |
| Attendance.AllEntriesHasError | apps/node/src/attendance.ts:63-67 | an account's entries hold an error exactly when some character's entries do |
| Attendance.SuccessesCount | apps/node/src/attendance.ts:88 | the success count is the number of characters that succeeded, and at most the number of characters |
| Attendance.SuccessesConcat | apps/node/src/attendance.ts:88 | the success count of a run of characters is the sum over its parts |
| Attendance.AllEntriesConcat | apps/node/src/attendance.ts:65 | the entries of a run of characters are those of its parts in a row |
| Attendance.AllEntriesBlock | apps/node/src/attendance.ts:73-128 | in the sequential schedule the model follows, each character's entries form one contiguous block, after the entries of the characters before it |
| Attendance.OneSuccessOneExhausted | apps/node/src/attendance.ts:73-130 | two characters, the first answered "OK" at once and the second failing three times: success count 1, five entries, an error among them, the first entry the success message and the last the give-up message |
| Attendance.TryAttendance | apps/node/src/attendance.ts:79-117 | one attempt's verdict is its classification, and the entry logged is that verdict's entry |
| Attendance.RetryLoop | apps/node/src/attendance.ts:75-123 | the loop either stops at the first terminal attempt, with the failures' entries, that attempt's entry and a wait per failure, or runs out after the allowed attempts with the last failure's message |
| Attendance.AttendCharacter | apps/node/src/attendance.ts:73-128 | one character's entries, success flag, waits and number of calls are those of `CharacterReport` |
| Attendance.DoAttendanceForAccount | apps/node/src/attendance.ts:63-130 | the success count, the entries (character by character, in the sequential schedule the model follows) and the waits are those of the account's `Reports` |
| DailyRun.EnvOptions | apps/node/src/index.ts:15-20 | ServerChan is on when either of its two variables is set, `SERVER_CHAN_TOKEN` first and `SERVERCHAN_SENDKEY` when the token is empty; the other channels take their own variable |
| DailyRun.AllAccountsAt | apps/node/src/index.ts:25-27 | the a-th account's reports are those of its own binding list and calls |
| DailyRun.Forward | apps/node/src/index.ts:29 | every entry of an account is logged into the combined log, in order and with its flag |
| DailyRun.CheckInAccount | apps/node/src/index.ts:25-30 | one account's entries are appended to the combined log and its success count is returned |
| DailyRun.CheckInAccounts | apps/node/src/index.ts:24-30 | the combined log gains every account's entries, account after account, and the total is the sum of the success counts |
| DailyRun.LogRun | apps/node/src/index.ts:22-33 | the combined log of a run is `RunLog`: header, every account's entries, then the summary when the total is not zero |
| DailyRun.Run | apps/node/src/index.ts:13-35 | the body sent, the transports called and the exit status are those of `RunLog` for one account per comma-separated token |
| DailyRun.AccountCount | apps/node/src/index.ts:13 | there is one account per comma in the token list, plus one |
| DailyRun.HeaderFirst | apps/node/src/index.ts:22 | the first line is "## 明日方舟签到", not an error |
| DailyRun.TotalSuccessIff | apps/node/src/index.ts:24-28 | the total is not zero exactly when some character of some account succeeded |
| DailyRun.SummaryIff | apps/node/src/index.ts:32-33 | the summary line is logged exactly when some character succeeded; it is then the last line and names the total, otherwise the log ends with the accounts' entries |
| DailyRun.AccountsLogHasError | apps/node/src/index.ts:29 | the forwarded entries hold an error exactly when some character's entries do |
| DailyRun.ExitStatusIff | apps/node/src/index.ts:22-35 | the run's log holds an error, so the process exits 1, exactly when some character of some account had a failed attempt or gave up |
| DailyRun.AccountsLogPrefix | apps/node/src/index.ts:25-30 | the log of the first m accounts is a prefix of the log of all of them |
| DailyRun.AccountBlock | apps/node/src/index.ts:25-30 | each account's entries form one contiguous block of the run's log (its messages are forwarded in one synchronous pass), after the header and, in the sequential schedule the model follows, after the accounts before it |

## Left out

- Authentication (`auth`, `signIn`, `getBinding`, lines 59-61 of `attendance.ts`) is not
  modelled. The binding list is an input, and a failing authentication is not modelled.
- The notification transports (`serverChan`, `bark`, `messagePusher`, `qmsg`) are foreign
  calls. They are modelled as `Notice` values. Their failures and Qmsg's handling of
  `qmsgQQ` are not modelled.
- Console output, `setTimeout` and `process.exit` are I/O. Each wait is recorded as its
  length, and `process.exit(1)` as the returned exit status.
- The `MAX_RETRIES` setting is a parameter. `Number.parseInt` and its NaN result are not
  modelled. With NaN the loop never runs and no "gave up" entry is logged.
- The `SKLAND_TOKEN` assertion is not modelled. An unset variable is "".
- `Promise.all` runs all accounts, and all characters of an account, concurrently. The model
  runs them one after another in list order. The interleaving of the entries of
  concurrently running characters and accounts is therefore not captured.
- AllEntriesBlock: proved only for the sequential schedule. That each character's own entries
  keep their relative order under an interleaved schedule is not proved.
- A rejection with `undefined` or `null` makes `error.response` (apps/node/src/attendance.ts:105) throw inside
  the `catch`, which rejects `Promise.all` and fails the whole run. The model has no such
  value: every thrown error reaches the 403 test and the retry path.
- A success response without `data.data` throws a TypeError inside the `try`. Its message
  is not modelled. A thrown message that is not a string is modelled as undefined: it is
  never a timeout and renders as "undefined".
- The `|| 0` in `2 ** (retries - 1 || 0)` is dropped. The delay is computed only after a
  failure, when `retries` is at least 1.
- `JSON.stringify(data, null, 2)` is an opaque string carried by the response.
- Number formatting in templates covers whole numbers only. Award counts are integers.
- NatToString: renders every whole number as plain digits, while JavaScript switches to exponent form (`1e+21`) from 10^21 up; counts and retry numbers never get near that.

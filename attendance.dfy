/** The per-account check-in engine `doAttendanceForAccount` (apps/node/src/attendance.ts):
    the bound Arknights characters are checked in one after another; each character's
    attempts are retried with exponential backoff up to `maxRetries` failures, every outcome
    is logged with an error flag, and the number of successful check-ins is returned.

    The upstream `attendance` call is an oracle: `calls(k)` is what the k-th call for a
    character returns or throws. A backoff wait is recorded as its length in milliseconds
    instead of being slept. */
module Attendance {
  import opened Text
  import opened CombinedPush

  datatype Option<T> = None | Some(value: T)

  /** The value of `Number(channelMasterId)`: a finite number, an infinity, or NaN. */
  datatype JsNumber = Num(value: real) | Infinity | NaN

  /** One bound game identity. */
  datatype Character = Character(uid: string, channelMasterId: JsNumber, nickName: string)

  /** One entry of the binding list: the game it belongs to and its characters. */
  datatype Binding = Binding(appCode: string, bindingList: seq<Character>)

  /** One awarded resource of a successful check-in. */
  datatype Award = Award(resourceName: string, count: int)

  /** A structured check-in response. `message` is None when the field is absent
      (`undefined`); `dump` is the text of `JSON.stringify(data, null, 2)`. */
  datatype Response = Response(code: int, message: Option<string>, awards: seq<Award>, dump: string)

  /** What one upstream call gives: a truthy response, a falsy one, or a thrown error with
      the HTTP status of its response (None when it has no response) and its message (None
      when the message is not a string). */
  datatype Attempt =
    | Responded(data: Response)
    | Empty
    | Thrown(status: Option<int>, message: Option<string>)

  /** The meaning of one attempt; a thrown error keeps its message, from which the logged
      reason is made. */
  datatype Verdict =
    | Success(awards: seq<Award>)
    | AlreadyCheckedIn
    | BadResponse(message: Option<string>, dump: string)
    | Error(thrown: Option<string>)
  {
    /** Success and "already checked in" end the character's loop; the others are retried. */
    predicate Terminal()
    {
      Success? || AlreadyCheckedIn?
    }
  }

  /** How a character's check-in ended. */
  datatype Ending = Succeeded | AlreadyDone | GaveUp

  // ---------------------------------------------------------------------------
  // Classification

  /** The text of a possibly undefined string inside a template literal. */
  function Show(s: Option<string>): string
  {
    match s
    case Some(t) => t
    case None => "undefined"
  }

  /** `typeof message === 'string' && /timeout|Connect Timeout/i.test(message)`. */
  predicate IsTimeout(message: Option<string>)
  {
    message.Some? &&
    (ContainsIgnoringCase(message.value, "timeout") || ContainsIgnoringCase(message.value, "connect timeout"))
  }

  /** The second alternative of the timeout expression adds nothing: a message is a timeout
      exactly when it contains "timeout" in any letter case. */
  lemma TimeoutIsSubstring(message: string)
    ensures IsTimeout(Some(message)) <==> ContainsIgnoringCase(message, "timeout")
  {
    if ContainsIgnoringCase(message, "connect timeout") {
      assert "connect timeout"[8..15] == "timeout";
      ContainsInfix(message, "connect timeout", "timeout", 8);
    }
  }

  /** The reason recorded for a thrown error that is not a 403. */
  function Reason(message: Option<string>): string
  {
    (if IsTimeout(message) then "网络超时：" else "未知错误：") + Show(message)
  }

  /** Sorts one upstream result into its verdict, in the priority the source checks:
      a truthy response is a success when `code === 0 && message === 'OK'` and a bad
      response otherwise; a falsy response, or a thrown error whose response status is
      403, means already checked in; any other thrown error is an error. */
  function Classify(a: Attempt): (v: Verdict)
    ensures v.Success? <==> a.Responded? && a.data.code == 0 && a.data.message == Some("OK")
    ensures v.AlreadyCheckedIn? <==> a.Empty? || (a.Thrown? && a.status == Some(403))
    ensures v.BadResponse? ==> a.Responded? && v.message == a.data.message && v.dump == a.data.dump
    ensures v.Error? ==> a.Thrown? && v.thrown == a.message
    ensures v.Success? ==> v.awards == a.data.awards
  {
    match a
    case Responded(data) =>
      if data.code == 0 && data.message == Some("OK") then Success(data.awards)
      else BadResponse(data.message, data.dump)
    case Empty => AlreadyCheckedIn
    case Thrown(status, message) =>
      if status == Some(403) then AlreadyCheckedIn else Error(message)
  }

  /** The `lastErrorMessage` a failed attempt leaves behind: the response's message (which
      may be undefined) or the reason of the thrown error. */
  function FailureMessage(v: Verdict): Option<string>
  {
    match v
    case BadResponse(message, _) => message
    case Error(thrown) => Some(Reason(thrown))
    case _ => None
  }

  // ---------------------------------------------------------------------------
  // Server label and message texts

  /** `Number(channelMasterId) - 1`. */
  function MinusOne(n: JsNumber): JsNumber
  {
    match n
    case Num(v) => Num(v - 1.0)
    case Infinity => Infinity
    case NaN => NaN
  }

  /** JavaScript truthiness of a number: zero and NaN are falsy. */
  predicate Truthy(n: JsNumber)
  {
    match n
    case Num(v) => v != 0.0
    case Infinity => true
    case NaN => false
  }

  /** `(Number(channelMasterId) - 1) ? 'B 服' : '官服'`. */
  function ServerLabel(channelMasterId: JsNumber): (server: string)
    ensures server == "官服" || server == "B 服"
    ensures server == "官服" <==> channelMasterId == Num(1.0) || channelMasterId == NaN
  {
    if Truthy(MinusOne(channelMasterId)) then "B 服" else "官服"
  }

  /** "[nickName] ". */
  function Tag(ch: Character): string
  {
    "[" + ch.nickName + "] "
  }

  /** "[nickName] label". */
  function Labelled(ch: Character): string
  {
    Tag(ch) + ServerLabel(ch.channelMasterId)
  }

  /** "「name」count个". */
  function AwardText(a: Award): string
  {
    "「" + a.resourceName + "」" + IntToString(a.count) + "个"
  }

  /** The award texts joined by ','. */
  function AwardsText(awards: seq<Award>): string
  {
    Join(seq(|awards|, i requires 0 <= i < |awards| => AwardText(awards[i])), ",")
  }

  function SuccessText(ch: Character, awards: seq<Award>): string
  {
    Labelled(ch) + " 签到成功" + ", 获得了" + AwardsText(awards)
  }

  function BadResponseText(ch: Character, message: Option<string>, dump: string): string
  {
    Labelled(ch) + " 签到失败" + ", 错误消息: " + Show(message) + "\n\n```json\n" + dump + "\n```"
  }

  function AlreadyText(ch: Character): string
  {
    Labelled(ch) + " 今天已经签到过了"
  }

  function ErrorText(ch: Character, reason: string): string
  {
    Tag(ch) + "签到过程中出现错误: " + reason
  }

  /** The final entry; `lastErrorMessage ?? '无详细信息'` falls back on undefined. */
  function GiveUpText(ch: Character, retries: nat, lastError: Option<string>): string
  {
    Tag(ch) + "连续尝试 " + NatToString(retries) + " 次仍失败，已跳过。最后错误："
      + (match lastError case Some(m) => m case None => "无详细信息")
  }

  /** The entry one attempt logs; only the two retried verdicts are errors. */
  function AttemptEntry(ch: Character, v: Verdict): (e: Entry)
    ensures e.error <==> !v.Terminal()
  {
    match v
    case Success(awards) => Entry(SuccessText(ch, awards), false)
    case AlreadyCheckedIn => Entry(AlreadyText(ch), false)
    case BadResponse(message, dump) => Entry(BadResponseText(ch, message, dump), true)
    case Error(thrown) => Entry(ErrorText(ch, Reason(thrown)), true)
  }

  // ---------------------------------------------------------------------------
  // Backoff

  /** `2 ** k`. */
  function Pow2(k: nat): nat
  {
    if k == 0 then 1 else 2 * Pow2(k - 1)
  }

  lemma {:induction false} Pow2AtLeast(k: nat)
    requires k >= 4
    ensures Pow2(k) >= 16
  {
    if k > 4 {
      Pow2AtLeast(k - 1);
    }
  }

  /** The wait after the `failures`-th failure:
      `Math.min(10000, 1000 * (2 ** (retries - 1 || 0)))`; `retries` is at least 1 there,
      where `retries - 1 || 0` is just `retries - 1`. */
  function Backoff(failures: nat): (ms: nat)
    requires failures >= 1
    ensures ms <= 10000
  {
    var raw := 1000 * Pow2(failures - 1);
    if raw < 10000 then raw else 10000
  }

  /** The schedule starts at one second, doubles, and is capped at ten seconds from the
      fifth failure on. */
  lemma BackoffSchedule(failures: nat)
    requires failures >= 1
    ensures failures <= 4 ==> Backoff(failures) == [1000, 2000, 4000, 8000][failures - 1]
    ensures failures >= 5 ==> Backoff(failures) == 10000
  {
    if failures >= 5 {
      Pow2AtLeast(failures - 1);
    }
  }

  /** The waits after the first `m` failures, in order. */
  function Backoffs(m: nat): seq<nat>
  {
    if m == 0 then [] else Backoffs(m - 1) + [Backoff(m)]
  }

  /** The m waits follow the schedule, the j-th wait being the one after the (j+1)-th
      failure. */
  lemma {:induction false} BackoffsSchedule(m: nat)
    ensures |Backoffs(m)| == m
    ensures forall j :: 0 <= j < m ==> Backoffs(m)[j] == Backoff(j + 1)
    decreases m
  {
    if m > 0 {
      BackoffsSchedule(m - 1);
    }
  }

  // ---------------------------------------------------------------------------
  // The reference description of one character's check-in

  /** The number of attempts a character may make: `maxRetries`, or none when it is not
      positive. */
  function Limit(maxRetries: int): nat
  {
    if maxRetries > 0 then maxRetries else 0
  }

  /** The first attempt in `[from, n)` that ends the loop, or `n` when every one is retried. */
  function FirstTerminal(calls: nat -> Attempt, from: nat, n: nat): (k: nat)
    requires from <= n
    ensures from <= k <= n
    ensures k < n ==> Classify(calls(k)).Terminal()
    decreases n - from
  {
    if from == n then n
    else if Classify(calls(from)).Terminal() then from
    else FirstTerminal(calls, from + 1, n)
  }

  /** The entries of the first `k` attempts. */
  function AttemptEntries(ch: Character, calls: nat -> Attempt, k: nat): (es: seq<Entry>)
    ensures |es| == k
    ensures forall j :: 0 <= j < k ==> es[j] == AttemptEntry(ch, Classify(calls(j)))
  {
    if k == 0 then [] else AttemptEntries(ch, calls, k - 1) + [AttemptEntry(ch, Classify(calls(k - 1)))]
  }

  /** `lastErrorMessage` after `k` failed attempts: None before any. */
  function LastError(calls: nat -> Attempt, k: nat): Option<string>
  {
    if k == 0 then None else FailureMessage(Classify(calls(k - 1)))
  }

  /** How many waits follow `failures` failures when `n` attempts are allowed: one per
      failure, except that the last allowed attempt is not followed by one. */
  function WaitCount(failures: nat, n: nat): nat
  {
    if failures < n || failures == 0 then failures else failures - 1
  }

  /** Everything one character's check-in produces. `attempts` counts upstream calls and
      `retries` counts failures, the source's counter. */
  datatype Report = Report(ending: Ending, attempts: nat, retries: nat, entries: seq<Entry>, waits: seq<nat>)

  /** The outcome of the loop entered at attempt `k` of the `n` allowed, every earlier
      attempt having been retried: the next terminal attempt ends it with its own entry
      after the failures' entries; when none is left, the final "gave up" entry closes it. */
  function ReportFrom(ch: Character, calls: nat -> Attempt, n: nat, k: nat): Report
    requires k <= n
    decreases n - k
  {
    if k == n then
      Report(GaveUp, n, n,
        AttemptEntries(ch, calls, n) + [Entry(GiveUpText(ch, n, LastError(calls, n)), true)],
        Backoffs(WaitCount(n, n)))
    else if Classify(calls(k)).Terminal() then
      var v := Classify(calls(k));
      Report(if v.Success? then Succeeded else AlreadyDone, k + 1, k,
        AttemptEntries(ch, calls, k) + [AttemptEntry(ch, v)], Backoffs(WaitCount(k, n)))
    else
      ReportFrom(ch, calls, n, k + 1)
  }

  /** The reference outcome of one character: the loop entered at its first attempt. */
  function CharacterReport(ch: Character, maxRetries: int, calls: nat -> Attempt): Report
  {
    ReportFrom(ch, calls, Limit(maxRetries), 0)
  }

  /** The retried attempts from `k` on change nothing: the outcome from `k` is the outcome
      from the first terminal attempt after it. */
  lemma {:induction false} ReportFromSkip(ch: Character, calls: nat -> Attempt, n: nat, k: nat)
    requires k <= n
    ensures ReportFrom(ch, calls, n, k) == ReportFrom(ch, calls, n, FirstTerminal(calls, k, n))
    decreases n - k
  {
    if k < n && !Classify(calls(k)).Terminal() {
      ReportFromSkip(ch, calls, n, k + 1);
    }
  }

  /** Every attempt before the first terminal one is retried. */
  lemma {:induction false} FirstTerminalBefore(calls: nat -> Attempt, from: nat, n: nat)
    requires from <= n
    ensures forall j :: from <= j < FirstTerminal(calls, from, n) ==> !Classify(calls(j)).Terminal()
    decreases n - from
  {
    if from < n && !Classify(calls(from)).Terminal() {
      FirstTerminalBefore(calls, from + 1, n);
    }
  }

  /** The first terminal attempt is the one all earlier attempts lead up to. */
  lemma FirstTerminalAt(calls: nat -> Attempt, n: nat, r: nat)
    requires r <= n
    requires forall j :: 0 <= j < r ==> !Classify(calls(j)).Terminal()
    requires r < n ==> Classify(calls(r)).Terminal()
    ensures FirstTerminal(calls, 0, n) == r
  {
    FirstTerminalBefore(calls, 0, n);
  }

  /** A retried attempt before the first terminal one moves the bound up by one. */
  lemma FirstTerminalStep(calls: nat -> Attempt, n: nat, r: nat)
    requires r < n && r <= FirstTerminal(calls, 0, n)
    requires !Classify(calls(r)).Terminal()
    ensures r + 1 <= FirstTerminal(calls, 0, n)
  {
    FirstTerminalBefore(calls, 0, n);
  }

  /** A terminal attempt reached with no terminal one before it is the first. */
  lemma FirstTerminalStop(calls: nat -> Attempt, n: nat, r: nat)
    requires r < n && r <= FirstTerminal(calls, 0, n)
    requires Classify(calls(r)).Terminal()
    ensures FirstTerminal(calls, 0, n) == r
  {
    FirstTerminalBefore(calls, 0, n);
  }

  /** The report of a character, by its first terminal attempt `t`: when there is one
      among the allowed attempts, its ending and entry close the failures' entries; when
      there is none, the "gave up" entry does. */
  lemma ReportShape(ch: Character, maxRetries: int, calls: nat -> Attempt)
    ensures var n := Limit(maxRetries);
      var t := FirstTerminal(calls, 0, n);
      var r := CharacterReport(ch, maxRetries, calls);
      (t < n ==> r == Report(if Classify(calls(t)).Success? then Succeeded else AlreadyDone, t + 1, t,
        AttemptEntries(ch, calls, t) + [AttemptEntry(ch, Classify(calls(t)))], Backoffs(t))) &&
      (t == n ==> r == Report(GaveUp, n, n,
        AttemptEntries(ch, calls, n) + [Entry(GiveUpText(ch, n, LastError(calls, n)), true)],
        Backoffs(WaitCount(n, n))))
  {
    ReportFromSkip(ch, calls, Limit(maxRetries), 0);
  }

  // ---------------------------------------------------------------------------
  // Properties of the reference description

  /** A character succeeds exactly when some allowed attempt is a success and every attempt
      before it was retried. */
  lemma SucceededIff(ch: Character, maxRetries: int, calls: nat -> Attempt)
    ensures CharacterReport(ch, maxRetries, calls).ending == Succeeded <==>
      exists k :: 0 <= k < Limit(maxRetries) && Classify(calls(k)).Success? &&
        forall j :: 0 <= j < k ==> !Classify(calls(j)).Terminal()
  {
    ReportShape(ch, maxRetries, calls);
    var n := Limit(maxRetries);
    var k0 := FirstTerminal(calls, 0, n);
    FirstTerminalBefore(calls, 0, n);
    if CharacterReport(ch, maxRetries, calls).ending == Succeeded {
      assert 0 <= k0 < n && Classify(calls(k0)).Success?;
    }
    if exists k :: 0 <= k < n && Classify(calls(k)).Success? && forall j :: 0 <= j < k ==> !Classify(calls(j)).Terminal() {
      var k :| 0 <= k < n && Classify(calls(k)).Success? && forall j :: 0 <= j < k ==> !Classify(calls(j)).Terminal();
      FirstTerminalAt(calls, n, k);
    }
  }

  /** The final "gave up" ending happens exactly when every allowed attempt failed, so never
      after a success or an "already checked in". */
  lemma GaveUpIff(ch: Character, maxRetries: int, calls: nat -> Attempt)
    ensures CharacterReport(ch, maxRetries, calls).ending == GaveUp <==>
      forall j :: 0 <= j < Limit(maxRetries) ==> !Classify(calls(j)).Terminal()
  {
    ReportShape(ch, maxRetries, calls);
    var n := Limit(maxRetries);
    FirstTerminalBefore(calls, 0, n);
    if forall j :: 0 <= j < n ==> !Classify(calls(j)).Terminal() {
      FirstTerminalAt(calls, n, n);
    }
  }

  /** No character makes more upstream calls than `maxRetries` allows; each failure is
      counted once, and the source's counter ends at `maxRetries` exactly when it gave up
      with at least one attempt allowed. */
  lemma AttemptsBounded(ch: Character, maxRetries: int, calls: nat -> Attempt)
    ensures var r := CharacterReport(ch, maxRetries, calls);
      r.attempts <= Limit(maxRetries) && r.retries <= r.attempts &&
      (r.ending == GaveUp ==> r.attempts == r.retries == Limit(maxRetries)) &&
      (r.ending != GaveUp ==> r.attempts == r.retries + 1) &&
      (r.ending == GaveUp && maxRetries >= 1 ==> r.retries == maxRetries)
  {
    ReportShape(ch, maxRetries, calls);
  }

  /** The entries of a character: one error entry for each failed attempt, in order, then
      exactly one closing entry: a non-error success entry with the awards, a non-error
      "already checked in" entry, or the error entry giving the number of failures and the
      last error. */
  lemma ReportEntries(ch: Character, maxRetries: int, calls: nat -> Attempt)
    ensures var r := CharacterReport(ch, maxRetries, calls);
      |r.entries| == r.retries + 1 &&
      (forall j :: 0 <= j < r.retries ==>
        r.entries[j].error && r.entries[j] == AttemptEntry(ch, Classify(calls(j)))) &&
      (r.ending == Succeeded ==>
        Classify(calls(r.retries)).Success? &&
        r.entries[r.retries] == Entry(SuccessText(ch, calls(r.retries).data.awards), false)) &&
      (r.ending == AlreadyDone ==> r.entries[r.retries] == Entry(AlreadyText(ch), false)) &&
      (r.ending == GaveUp ==>
        r.entries[r.retries] == Entry(GiveUpText(ch, r.retries, LastError(calls, r.retries)), true))
  {
    ReportShape(ch, maxRetries, calls);
    var n := Limit(maxRetries);
    var k := FirstTerminal(calls, 0, n);
    var r := CharacterReport(ch, maxRetries, calls);
    FirstTerminalBefore(calls, 0, n);
    forall j | 0 <= j < r.retries
      ensures r.entries[j].error && r.entries[j] == AttemptEntry(ch, Classify(calls(j)))
    {
      assert !Classify(calls(j)).Terminal();
    }
  }

  /** The waits of a character: the backoff schedule, one wait per failure except after the
      last allowed attempt, so there are fewer waits than allowed attempts. */
  lemma ReportWaits(ch: Character, maxRetries: int, calls: nat -> Attempt)
    ensures var r := CharacterReport(ch, maxRetries, calls);
      (forall j :: 0 <= j < |r.waits| ==> r.waits[j] == Backoff(j + 1) && r.waits[j] <= 10000) &&
      (r.ending != GaveUp ==> |r.waits| == r.retries) &&
      (r.ending == GaveUp ==> |r.waits| == if r.retries == 0 then 0 else r.retries - 1) &&
      (Limit(maxRetries) > 0 ==> |r.waits| < Limit(maxRetries))
  {
    ReportShape(ch, maxRetries, calls);
    var n := Limit(maxRetries);
    BackoffsSchedule(WaitCount(FirstTerminal(calls, 0, n), n));
  }

  /** A character's entries hold an error exactly when one of its attempts failed or no
      attempt was allowed at all. */
  lemma ReportHasError(ch: Character, maxRetries: int, calls: nat -> Attempt)
    ensures var r := CharacterReport(ch, maxRetries, calls);
      HasError(r.entries) <==> r.retries > 0 || r.ending == GaveUp
  {
    var r := CharacterReport(ch, maxRetries, calls);
    ReportEntries(ch, maxRetries, calls);
    if r.retries > 0 {
      assert r.entries[0].error;
    }
    if HasError(r.entries) && r.retries == 0 {
      assert r.entries[0].error;
    }
  }

  /** With three attempts allowed and every call answered `{code: 1, message: "fail"}`, a
      character is called three times, waits one and then two seconds, and logs three
      failure entries and the final entry naming 3 attempts and the message "fail". */
  lemma ThreeFailures(ch: Character, dump: string, calls: nat -> Attempt)
    requires forall k :: calls(k) == Responded(Response(1, Some("fail"), [], dump))
    ensures var r := CharacterReport(ch, 3, calls);
      r.ending == GaveUp && r.attempts == 3 && r.waits == [1000, 2000] && |r.entries| == 4 &&
      (forall j :: 0 <= j < 3 ==> r.entries[j].error) &&
      r.entries[3] == Entry(GiveUpText(ch, 3, Some("fail")), true)
  {
    FirstTerminalAt(calls, 3, 3);
    ReportShape(ch, 3, calls);
    assert Backoffs(2) == [Backoff(1), Backoff(2)];
    BackoffSchedule(1);
    BackoffSchedule(2);
  }

  // ---------------------------------------------------------------------------
  // Characters of an account and the account's totals

  /** `list.filter(i => i.appCode === 'arknights').map(i => i.bindingList).flat()`. */
  function Characters(list: seq<Binding>): (chars: seq<Character>)
    ensures forall c :: c in chars <==> exists b :: b in list && b.appCode == "arknights" && c in b.bindingList
    decreases |list|
  {
    if list == [] then []
    else
      var rest := Characters(list[1..]);
      assert forall b :: b in list <==> b == list[0] || b in list[1..] by {
        assert list == [list[0]] + list[1..];
      }
      (if list[0].appCode == "arknights" then list[0].bindingList else []) + rest
  }

  /** One binding contributes its own character list, in its order and with every copy,
      when it is an Arknights binding, and nothing otherwise. */
  lemma CharactersOne(b: Binding)
    ensures Characters([b]) == if b.appCode == "arknights" then b.bindingList else []
  {
    assert [b][1..] == [];
  }

  /** The flattening keeps the order of the binding list. */
  lemma {:induction false} CharactersConcat(a: seq<Binding>, b: seq<Binding>)
    ensures Characters(a + b) == Characters(a) + Characters(b)
    decreases |a|
  {
    if a != [] {
      var own := if a[0].appCode == "arknights" then a[0].bindingList else [];
      assert (a + b)[0] == a[0];
      assert (a + b)[1..] == a[1..] + b;
      CharactersConcat(a[1..], b);
      assert Characters(a + b) == own + Characters(a[1..] + b);
      assert Characters(a) == own + Characters(a[1..]);
    } else {
      assert a + b == b;
    }
  }

  /** The reports of an account's characters, the i-th answered by `calls(i)`. */
  function Reports(chars: seq<Character>, maxRetries: int, calls: nat -> nat -> Attempt): seq<Report>
    decreases |chars|
  {
    if chars == [] then []
    else Reports(chars[..|chars| - 1], maxRetries, calls) + [CharacterReport(chars[|chars| - 1], maxRetries, calls(|chars| - 1))]
  }

  /** There is one report per character. */
  lemma {:induction false} ReportsLength(chars: seq<Character>, maxRetries: int, calls: nat -> nat -> Attempt)
    ensures |Reports(chars, maxRetries, calls)| == |chars|
    decreases |chars|
  {
    if chars != [] {
      ReportsLength(chars[..|chars| - 1], maxRetries, calls);
    }
  }

  /** The i-th report is the reference outcome of the i-th character under its own calls. */
  lemma {:induction false} ReportsAt(chars: seq<Character>, maxRetries: int, calls: nat -> nat -> Attempt, i: nat)
    requires i < |chars|
    ensures i < |Reports(chars, maxRetries, calls)|
    ensures Reports(chars, maxRetries, calls)[i] == CharacterReport(chars[i], maxRetries, calls(i))
    decreases |chars|
  {
    var front := chars[..|chars| - 1];
    ReportsLength(front, maxRetries, calls);
    if i < |front| {
      ReportsAt(front, maxRetries, calls, i);
      assert chars[i] == front[i];
    }
  }

  /** The entries of a run of characters in the sequential schedule the model follows:
      each character's as one block, in character order. */
  function AllEntries(rs: seq<Report>): seq<Entry>
    decreases |rs|
  {
    if rs == [] then [] else AllEntries(rs[..|rs| - 1]) + rs[|rs| - 1].entries
  }

  /** The waits of a run of characters, in order. */
  function AllWaits(rs: seq<Report>): seq<nat>
    decreases |rs|
  {
    if rs == [] then [] else AllWaits(rs[..|rs| - 1]) + rs[|rs| - 1].waits
  }

  /** The number of characters that succeeded, counted one by one. */
  function Successes(rs: seq<Report>): nat
    decreases |rs|
  {
    if rs == [] then 0 else Successes(rs[..|rs| - 1]) + (if rs[|rs| - 1].ending == Succeeded then 1 else 0)
  }

  /** Whether character `j` succeeded. */
  predicate SucceededAt(rs: seq<Report>, j: int)
  {
    0 <= j < |rs| && rs[j].ending == Succeeded
  }

  /** The positions of the characters that succeeded. */
  function SucceededPositions(rs: seq<Report>): set<int>
  {
    set j | 0 <= j < |rs| && SucceededAt(rs, j)
  }

  /** The entries of a run hold an error exactly when some character's entries do. */
  lemma {:induction false} AllEntriesHasError(rs: seq<Report>)
    ensures HasError(AllEntries(rs)) <==> exists j :: 0 <= j < |rs| && HasError(rs[j].entries)
    decreases |rs|
  {
    if rs != [] {
      var front := rs[..|rs| - 1];
      AllEntriesHasError(front);
      HasErrorConcat(AllEntries(front), rs[|rs| - 1].entries);
      if exists j :: 0 <= j < |front| && HasError(front[j].entries) {
        var j :| 0 <= j < |front| && HasError(front[j].entries);
        assert rs[j] == front[j];
      }
      if exists j :: 0 <= j < |rs| && HasError(rs[j].entries) {
        var j :| 0 <= j < |rs| && HasError(rs[j].entries);
        if j < |front| {
          assert rs[j] == front[j];
        }
      }
    }
  }

  /** Extending a run by its next character appends that character's entries and waits and
      adds its success. */
  lemma RunStep(rs: seq<Report>, i: nat)
    requires i < |rs|
    ensures AllEntries(rs[..i + 1]) == AllEntries(rs[..i]) + rs[i].entries
    ensures AllWaits(rs[..i + 1]) == AllWaits(rs[..i]) + rs[i].waits
    ensures Successes(rs[..i + 1]) == Successes(rs[..i]) + (if rs[i].ending == Succeeded then 1 else 0)
  {
    assert rs[..i + 1][..i] == rs[..i];
  }

  /** The success count is the number of characters that succeeded, and at most the number
      of characters. */
  lemma {:induction false} SuccessesCount(rs: seq<Report>)
    ensures Successes(rs) == |SucceededPositions(rs)|
    ensures Successes(rs) <= |rs|
    decreases |rs|
  {
    if rs != [] {
      var front := rs[..|rs| - 1];
      SuccessesCount(front);
      var last := |rs| - 1;
      assert forall j :: 0 <= j < last ==> (SucceededAt(rs, j) <==> SucceededAt(front, j));
      if rs[last].ending == Succeeded {
        assert SucceededPositions(rs) == SucceededPositions(front) + {last};
      } else {
        assert SucceededPositions(rs) == SucceededPositions(front);
      }
    }
  }

  /** The success count of a run is the sum of the success counts of its parts, so it does
      not depend on how the characters are split. */
  lemma {:induction false} SuccessesConcat(a: seq<Report>, b: seq<Report>)
    ensures Successes(a + b) == Successes(a) + Successes(b)
    decreases |b|
  {
    if b != [] {
      assert (a + b)[..|a + b| - 1] == a + b[..|b| - 1];
      assert (a + b)[|a + b| - 1] == b[|b| - 1];
      SuccessesConcat(a, b[..|b| - 1]);
    } else {
      assert a + b == a;
    }
  }

  /** The entries of a run concatenate those of its parts. */
  lemma {:induction false} AllEntriesConcat(a: seq<Report>, b: seq<Report>)
    ensures AllEntries(a + b) == AllEntries(a) + AllEntries(b)
    decreases |b|
  {
    if b != [] {
      assert (a + b)[..|a + b| - 1] == a + b[..|b| - 1];
      assert (a + b)[|a + b| - 1] == b[|b| - 1];
      AllEntriesConcat(a, b[..|b| - 1]);
    } else {
      assert a + b == a;
    }
  }

  /** In the sequential schedule the model follows, character `i`'s entries form one
      contiguous block of the run's entries, right after the entries of the characters
      before it. */
  lemma AllEntriesBlock(rs: seq<Report>, i: nat)
    requires i < |rs|
    ensures var start := |AllEntries(rs[..i])|;
      start + |rs[i].entries| <= |AllEntries(rs)| &&
      AllEntries(rs)[start..start + |rs[i].entries|] == rs[i].entries
  {
    assert rs == rs[..i] + ([rs[i]] + rs[i + 1..]);
    AllEntriesConcat(rs[..i], [rs[i]] + rs[i + 1..]);
    AllEntriesConcat([rs[i]], rs[i + 1..]);
    assert AllEntries([rs[i]]) == rs[i].entries by {
      assert [rs[i]][..0] == [];
    }
  }

  /** An account with two characters and three attempts each, the first answered "OK" at
      once and the second always `{code: 1, message: "fail"}`: one success, five entries
      (the success, three failures and the final one), and an error among them; the run's
      log opens with the success and closes with the give-up message. */
  lemma OneSuccessOneExhausted(c1: Character, c2: Character, calls: nat -> nat -> Attempt,
                               awards: seq<Award>, dump1: string, dump2: string)
    requires calls(0)(0) == Responded(Response(0, Some("OK"), awards, dump1))
    requires forall k :: calls(1)(k) == Responded(Response(1, Some("fail"), [], dump2))
    ensures var rs := Reports([c1, c2], 3, calls);
      Successes(rs) == 1 && |AllEntries(rs)| == 5 && HasError(AllEntries(rs)) &&
      AllEntries(rs)[0] == Entry(SuccessText(c1, awards), false) &&
      AllEntries(rs)[4] == Entry(GiveUpText(c2, 3, Some("fail")), true)
  {
    var rs := Reports([c1, c2], 3, calls);
    var r0 := CharacterReport(c1, 3, calls(0));
    var r1 := CharacterReport(c2, 3, calls(1));
    ReportsLength([c1, c2], 3, calls);
    ReportsAt([c1, c2], 3, calls, 0);
    ReportsAt([c1, c2], 3, calls, 1);
    assert rs == [r0] + [r1];
    FirstTerminalAt(calls(0), 3, 0);
    ReportShape(c1, 3, calls(0));
    assert r0.ending == Succeeded && |r0.entries| == 1;
    assert r0.entries[0] == Entry(SuccessText(c1, awards), false);
    ThreeFailures(c2, dump2, calls(1));
    SuccessesConcat([r0], [r1]);
    AllEntriesConcat([r0], [r1]);
    assert [r0][..0] == [] && [r1][..0] == [];
    assert AllEntries(rs) == r0.entries + r1.entries;
    HasErrorConcat(r0.entries, r1.entries);
    assert HasError(r1.entries) by {
      assert r1.entries[0].error;
    }
    assert AllEntries(rs)[0] == r0.entries[0];
    assert AllEntries(rs)[4] == r1.entries[3];
  }

  // ---------------------------------------------------------------------------
  // The imperative engine

  /** One iteration's `try`/`catch` around the upstream call: the entry it logs and the
      verdict that decides whether the loop ends, is retried, and which `lastErrorMessage`
      a retry leaves. */
  method TryAttendance(ch: Character, data: Attempt) returns (entry: Entry, verdict: Verdict)
    ensures verdict == Classify(data) && entry == AttemptEntry(ch, verdict)
  {
    match data {
      case Responded(response) =>
        if response.code == 0 && response.message == Some("OK") {
          verdict := Success(response.awards);
          entry := Entry(SuccessText(ch, response.awards), false);
        } else {
          verdict := BadResponse(response.message, response.dump);
          entry := Entry(BadResponseText(ch, response.message, response.dump), true);
        }
      case Empty =>
        verdict := AlreadyCheckedIn;
        entry := Entry(AlreadyText(ch), false);
      case Thrown(status, message) =>
        if status == Some(403) {
          verdict := AlreadyCheckedIn;
          entry := Entry(AlreadyText(ch), false);
        } else {
          verdict := Error(message);
          entry := Entry(ErrorText(ch, Reason(message)), true);
        }
    }
  }

  /** The `while (retries < maxRetries)` loop of one character. It leaves early, right after
      the first terminal attempt, with that attempt's entry last; or it runs out with one
      error entry per allowed attempt and the last failure's message. `attempts` counts the
      upstream calls. */
  method RetryLoop(ch: Character, maxRetries: int, calls: nat -> Attempt)
    returns (entries: seq<Entry>, succeeded: bool, waits: seq<nat>, retries: nat,
             lastErrorMessage: Option<string>, ghost attempts: nat)
    ensures var n := Limit(maxRetries);
      retries <= n && retries <= FirstTerminal(calls, 0, n) &&
      (retries < maxRetries ==>
        FirstTerminal(calls, 0, n) == retries &&
        entries == AttemptEntries(ch, calls, retries) + [AttemptEntry(ch, Classify(calls(retries)))] &&
        succeeded == Classify(calls(retries)).Success? && waits == Backoffs(retries)) &&
      (retries >= maxRetries ==>
        retries == n && !succeeded &&
        entries == AttemptEntries(ch, calls, n) && waits == Backoffs(WaitCount(n, n)) &&
        lastErrorMessage == LastError(calls, n))
    ensures attempts == if retries < maxRetries then retries + 1 else retries
  {
    ghost var n := Limit(maxRetries);
    entries, succeeded, waits, attempts := [], false, [], 0;
    retries := 0;
    lastErrorMessage := None;
    while retries < maxRetries
      invariant retries <= FirstTerminal(calls, 0, n)
      invariant entries == AttemptEntries(ch, calls, retries)
      invariant waits == Backoffs(WaitCount(retries, n))
      invariant lastErrorMessage == LastError(calls, retries)
      invariant !succeeded && attempts == retries
      decreases n - retries
    {
      var entry, verdict := TryAttendance(ch, calls(retries));
      attempts := attempts + 1;
      entries := entries + [entry];
      if verdict.Terminal() {
        succeeded := verdict.Success?;
        FirstTerminalStop(calls, n, retries);
        break;
      }
      FirstTerminalStep(calls, n, retries);
      lastErrorMessage := FailureMessage(verdict);
      retries := retries + 1;
      assert WaitCount(retries - 1, n) == retries - 1;
      // The backoff before the next attempt: none after the last allowed one.
      if !succeeded && retries < maxRetries {
        waits := waits + [Backoff(retries)];
      }
    }
  }

  /** One character's check-in (the body of the callback over `characterList`): exactly
      the reference entries, success flag, waits and number of upstream calls. */
  method AttendCharacter(ch: Character, maxRetries: int, calls: nat -> Attempt)
    returns (entries: seq<Entry>, succeeded: bool, waits: seq<nat>, ghost attempts: nat)
    ensures var r := CharacterReport(ch, maxRetries, calls);
      entries == r.entries && succeeded == (r.ending == Succeeded) && waits == r.waits
    ensures attempts == CharacterReport(ch, maxRetries, calls).attempts
  {
    var retries, lastErrorMessage;
    entries, succeeded, waits, retries, lastErrorMessage, attempts := RetryLoop(ch, maxRetries, calls);
    if !succeeded && retries >= maxRetries {
      entries := entries + [Entry(GiveUpText(ch, retries, lastErrorMessage), true)];
    }
    ReportShape(ch, maxRetries, calls);
  }

  /** `doAttendanceForAccount` after authentication: the Arknights characters of the
      binding list are checked in one after another (`calls(i)` answers the i-th
      character's calls). The result is the number of characters that succeeded and every
      entry; in the sequential schedule the model follows, each character's entries form
      one block in character order. `waits` are the backoff delays slept, in order. */
  method DoAttendanceForAccount(list: seq<Binding>, maxRetries: int, calls: nat -> nat -> Attempt)
    returns (successCount: nat, messages: seq<Entry>, waits: seq<nat>)
    ensures var rs := Reports(Characters(list), maxRetries, calls);
      successCount == Successes(rs) && messages == AllEntries(rs) && waits == AllWaits(rs)
  {
    messages, waits := [], [];
    var successAttendance: nat := 0;
    var characterList := Characters(list);
    ghost var rs := Reports(characterList, maxRetries, calls);
    ReportsLength(characterList, maxRetries, calls);
    for i := 0 to |characterList|
      invariant messages == AllEntries(rs[..i])
      invariant successAttendance == Successes(rs[..i])
      invariant waits == AllWaits(rs[..i])
    {
      ReportsAt(characterList, maxRetries, calls, i);
      var entries, succeeded, characterWaits, _ := AttendCharacter(characterList[i], maxRetries, calls(i));
      messages := messages + entries;
      if succeeded {
        successAttendance := successAttendance + 1;
      }
      waits := waits + characterWaits;
      RunStep(rs, i);
    }
    assert rs[..|characterList|] == rs;
    successCount := successAttendance;
  }
}

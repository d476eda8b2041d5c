/** The daily run (apps/node/src/index.ts): the comma-separated token list names the
    accounts; one combined log is opened, a header is logged, every account is checked in
    and its entries are forwarded to the combined log with their error flags, a summary is
    logged when at least one character succeeded, and the combined log is pushed once.

    The upstream is an oracle indexed by account position: `bindings(a)` is the binding list
    of the a-th account and `attendance(a)(i)(k)` is the k-th check-in call of its i-th
    Arknights character. */
module DailyRun {
  import opened Text
  import opened CombinedPush
  import opened Attendance

  /** What the upstream service answers, per account. */
  datatype Upstream = Upstream(bindings: nat -> seq<Binding>, attendance: nat -> nat -> nat -> Attempt)

  /** The environment variables the run reads; an unset variable is "". */
  datatype Env = Env(
    sklandToken: string,
    serverChanToken: string,
    serverChanSendKey: string,
    barkUrl: string,
    messagePusherUrl: string,
    qmsgSendKey: string)

  /** The options handed to `createCombinePushMessage`: ServerChan takes `SERVER_CHAN_TOKEN`
      and falls back on `SERVERCHAN_SENDKEY`; no Qmsg target numbers are given. */
  function EnvOptions(env: Env): (options: Options)
    ensures options.withServerChan != "" <==> env.serverChanToken != "" || env.serverChanSendKey != ""
    ensures env.serverChanToken != "" ==> options.withServerChan == env.serverChanToken
    ensures env.serverChanToken == "" ==> options.withServerChan == env.serverChanSendKey
    ensures options.withBark == env.barkUrl && options.withMessagePusher == env.messagePusherUrl
    ensures options.withQmsg == env.qmsgSendKey && options.qmsgQQ == []
  {
    Options(if env.serverChanToken != "" then env.serverChanToken else env.serverChanSendKey,
      env.barkUrl, env.messagePusherUrl, env.qmsgSendKey, [])
  }

  /** The first line of every run. */
  const Header: string := "## 明日方舟签到"

  /** "本次共成功签到 total 个角色". */
  function SummaryText(total: nat): string
  {
    "本次共成功签到 " + NatToString(total) + " 个角色"
  }

  /** The reports of the characters of account `a`. */
  function AccountReports(up: Upstream, maxRetries: int, a: nat): seq<Report>
  {
    Reports(Characters(up.bindings(a)), maxRetries, up.attendance(a))
  }

  /** The reports of the first `count` accounts, one list per account. */
  function AllAccounts(up: Upstream, maxRetries: int, count: nat): (runs: seq<seq<Report>>)
    ensures |runs| == count
    decreases count
  {
    if count == 0 then [] else AllAccounts(up, maxRetries, count - 1) + [AccountReports(up, maxRetries, count - 1)]
  }

  /** The a-th list holds the reports of the a-th account. */
  lemma {:induction false} AllAccountsAt(up: Upstream, maxRetries: int, count: nat, a: nat)
    requires a < count
    ensures AllAccounts(up, maxRetries, count)[a] == AccountReports(up, maxRetries, a)
    decreases count
  {
    if a < count - 1 {
      AllAccountsAt(up, maxRetries, count - 1, a);
    }
  }

  /** The entries of a run of accounts, account after account. */
  function AccountsLog(runs: seq<seq<Report>>): seq<Entry>
    decreases |runs|
  {
    if runs == [] then [] else AccountsLog(runs[..|runs| - 1]) + AllEntries(runs[|runs| - 1])
  }

  /** The successful check-ins of a run of accounts. */
  function TotalSuccess(runs: seq<seq<Report>>): nat
    decreases |runs|
  {
    if runs == [] then 0 else TotalSuccess(runs[..|runs| - 1]) + Successes(runs[|runs| - 1])
  }

  /** The summary line, present only when some check-in succeeded. */
  function Summary(total: nat): seq<Entry>
  {
    if total != 0 then [Entry(SummaryText(total), false)] else []
  }

  /** The combined log of a run: the header, every account's entries in account order,
      then the summary. */
  function RunLog(runs: seq<seq<Report>>): seq<Entry>
  {
    [Entry(Header, false)] + AccountsLog(runs) + Summary(TotalSuccess(runs))
  }

  /** Whether character `j` of account `a` succeeded. */
  predicate SucceededIn(runs: seq<seq<Report>>, a: int, j: int)
  {
    0 <= a < |runs| && SucceededAt(runs[a], j)
  }

  /** Whether character `j` of account `a` logged an error. */
  predicate ErredIn(runs: seq<seq<Report>>, a: int, j: int)
  {
    0 <= a < |runs| && 0 <= j < |runs[a]| && HasError(runs[a][j].entries)
  }

  /** Whether character `j` of account `a` had a failed attempt or gave up. */
  predicate FailedIn(runs: seq<seq<Report>>, a: int, j: int)
  {
    0 <= a < |runs| && 0 <= j < |runs[a]| && (runs[a][j].retries > 0 || runs[a][j].ending == GaveUp)
  }

  /** Extending a run by its next account appends that account's entries and adds its
      successes. */
  lemma AccountsStep(runs: seq<seq<Report>>, a: nat)
    requires a < |runs|
    ensures AccountsLog(runs[..a + 1]) == AccountsLog(runs[..a]) + AllEntries(runs[a])
    ensures TotalSuccess(runs[..a + 1]) == TotalSuccess(runs[..a]) + Successes(runs[a])
  {
    assert runs[..a + 1][..a] == runs[..a];
  }

  /** `messages.forEach(({ message, error }) => logger(message, error))`: every entry of an
      account goes to the combined log, in order and with its flag. */
  method Forward(combined: CombinedLog, messages: seq<Entry>)
    requires combined.Valid()
    modifies combined
    ensures combined.Valid()
    ensures combined.log == old(combined.log) + messages
  {
    for k := 0 to |messages|
      invariant combined.Valid()
      invariant combined.log == old(combined.log) + messages[..k]
    {
      combined.Logger(messages[k].message, messages[k].error);
      assert messages[..k + 1] == messages[..k] + [messages[k]];
    }
    assert messages[..|messages|] == messages;
  }

  /** The callback of `accounts.map`: check one account in, then forward its entries to the
      combined log; its successes are returned to be added to the total. */
  method CheckInAccount(combined: CombinedLog, maxRetries: int, up: Upstream, a: nat)
    returns (successCount: nat)
    requires combined.Valid()
    modifies combined
    ensures combined.Valid()
    ensures combined.log == old(combined.log) + AllEntries(AccountReports(up, maxRetries, a))
    ensures successCount == Successes(AccountReports(up, maxRetries, a))
  {
    var messages, waits;
    successCount, messages, waits := DoAttendanceForAccount(up.bindings(a), maxRetries, up.attendance(a));
    Forward(combined, messages);
  }

  /** `await Promise.all(accounts.map(...))`: each account is checked in, its successes
      are added to the total and its entries are forwarded, account after account. */
  method CheckInAccounts(combined: CombinedLog, count: nat, maxRetries: int, up: Upstream)
    returns (totalSuccess: nat)
    requires combined.Valid()
    modifies combined
    ensures combined.Valid()
    ensures var runs := AllAccounts(up, maxRetries, count);
      combined.log == old(combined.log) + AccountsLog(runs) && totalSuccess == TotalSuccess(runs)
  {
    ghost var runs := AllAccounts(up, maxRetries, count);
    totalSuccess := 0;
    for a := 0 to count
      invariant combined.Valid()
      invariant combined.log == old(combined.log) + AccountsLog(runs[..a])
      invariant totalSuccess == TotalSuccess(runs[..a])
    {
      ghost var before := combined.log;
      var successCount := CheckInAccount(combined, maxRetries, up, a);
      totalSuccess := totalSuccess + successCount;
      AllAccountsAt(up, maxRetries, count, a);
      AccountsStep(runs, a);
      assert combined.log == before + AllEntries(runs[a]);
      AppendAssoc(old(combined.log), AccountsLog(runs[..a]), AllEntries(runs[a]));
    }
    assert runs[..count] == runs;
  }

  /** Everything the run logs into a fresh combined log: the header, each account's
      entries, and the summary when the total is not zero. */
  method LogRun(combined: CombinedLog, count: nat, maxRetries: int, up: Upstream)
    requires combined.Valid() && combined.log == []
    modifies combined
    ensures combined.Valid()
    ensures combined.log == RunLog(AllAccounts(up, maxRetries, count))
  {
    ghost var runs := AllAccounts(up, maxRetries, count);
    combined.Logger(Header, false);
    var totalSuccess := CheckInAccounts(combined, count, maxRetries, up);
    ghost var accountsLog := combined.log;
    if totalSuccess != 0 {
      combined.Logger(SummaryText(totalSuccess), false);
    }
    assert combined.log == accountsLog + Summary(totalSuccess);
  }

  /** The whole run: split the tokens, open the combined log, log the run into it, and
      push. The body sent, the notifications and the exit status are those of `RunLog`. */
  method Run(env: Env, maxRetries: int, up: Upstream)
    returns (content: string, notices: seq<Notice>, exitStatus: nat)
    ensures var log := RunLog(AllAccounts(up, maxRetries, |Split(env.sklandToken, ',')|));
      content == Join(Texts(log), Separator) &&
      notices == Dispatches(EnvOptions(env), content) &&
      (exitStatus == 1 <==> HasError(log)) && (exitStatus == 0 <==> !HasError(log))
  {
    var accounts := Split(env.sklandToken, ',');
    var combined := new CombinedLog(EnvOptions(env));
    LogRun(combined, |accounts|, maxRetries, up);
    content, notices, exitStatus := combined.Push();
  }

  /** The number of accounts is one more than the number of commas in the token list. */
  lemma AccountCount(token: string)
    ensures |Split(token, ',')| == Occurrences(token, ',') + 1
  {
    SplitCount(token, ',');
  }

  /** The header comes first and is not an error. */
  lemma HeaderFirst(runs: seq<seq<Report>>)
    ensures |RunLog(runs)| >= 1 && RunLog(runs)[0] == Entry(Header, false)
  {
  }

  /** The total is not zero exactly when some character of some account succeeded. */
  lemma {:induction false} TotalSuccessIff(runs: seq<seq<Report>>)
    ensures TotalSuccess(runs) != 0 <==> exists a, j :: SucceededIn(runs, a, j)
    decreases |runs|
  {
    if runs != [] {
      var front := runs[..|runs| - 1];
      var last := |runs| - 1;
      TotalSuccessIff(front);
      SuccessesCount(runs[last]);
      if Successes(runs[last]) != 0 {
        var j :| j in SucceededPositions(runs[last]);
        assert SucceededIn(runs, last, j);
      }
      if exists a, j :: SucceededIn(front, a, j) {
        var a, j :| SucceededIn(front, a, j);
        assert SucceededIn(runs, a, j);
      }
      if exists a, j :: SucceededIn(runs, a, j) {
        var a, j :| SucceededIn(runs, a, j);
        if a == last {
          assert j in SucceededPositions(runs[last]);
        } else {
          assert SucceededIn(front, a, j);
        }
      }
    }
  }

  /** The summary is logged exactly when some character of some account succeeded; it is
      then the last line and names the total, and otherwise the log ends with the accounts'
      entries. */
  lemma SummaryIff(runs: seq<seq<Report>>)
    ensures var log := RunLog(runs);
      var total := TotalSuccess(runs);
      (total != 0 <==> exists a, j :: SucceededIn(runs, a, j)) &&
      (total != 0 ==> log[|log| - 1] == Entry(SummaryText(total), false)) &&
      (total == 0 ==> log == [Entry(Header, false)] + AccountsLog(runs))
  {
    TotalSuccessIff(runs);
  }

  /** The accounts' entries hold an error exactly when some character's entries do. */
  lemma {:induction false} AccountsLogHasError(runs: seq<seq<Report>>)
    ensures HasError(AccountsLog(runs)) <==> exists a, j :: ErredIn(runs, a, j)
    decreases |runs|
  {
    if runs != [] {
      var front := runs[..|runs| - 1];
      var last := |runs| - 1;
      AccountsLogHasError(front);
      HasErrorConcat(AccountsLog(front), AllEntries(runs[last]));
      assert HasError(AllEntries(runs[last])) <==> exists j :: ErredIn(runs, last, j) by {
        AllEntriesHasError(runs[last]);
        if HasError(AllEntries(runs[last])) {
          var j :| 0 <= j < |runs[last]| && HasError(runs[last][j].entries);
          assert ErredIn(runs, last, j);
        }
      }
      assert (exists a, j :: ErredIn(runs, a, j)) <==>
        (exists a, j :: ErredIn(front, a, j)) || (exists j :: ErredIn(runs, last, j)) by {
        if exists a, j :: ErredIn(front, a, j) {
          var a, j :| ErredIn(front, a, j);
          assert ErredIn(runs, a, j);
        }
        if exists a, j :: ErredIn(runs, a, j) {
          var a, j :| ErredIn(runs, a, j);
          if a < last {
            assert ErredIn(front, a, j);
          }
        }
      }
    }
  }

  /** The process exits with status 1 exactly when some character of some account had a
      failed attempt or gave up: the header and the summary are never errors. */
  lemma ExitStatusIff(up: Upstream, maxRetries: int, count: nat)
    ensures var runs := AllAccounts(up, maxRetries, count);
      HasError(RunLog(runs)) <==> exists a, j :: FailedIn(runs, a, j)
  {
    var runs := AllAccounts(up, maxRetries, count);
    var summary := Summary(TotalSuccess(runs));
    HasErrorConcat([Entry(Header, false)], AccountsLog(runs));
    HasErrorConcat([Entry(Header, false)] + AccountsLog(runs), summary);
    assert !HasError([Entry(Header, false)]);
    assert !HasError(summary);
    AccountsLogHasError(runs);
    forall a, j | 0 <= a < count && 0 <= j < |runs[a]|
      ensures ErredIn(runs, a, j) <==> FailedIn(runs, a, j)
    {
      AllAccountsAt(up, maxRetries, count, a);
      var chars := Characters(up.bindings(a));
      ReportsLength(chars, maxRetries, up.attendance(a));
      ReportsAt(chars, maxRetries, up.attendance(a), j);
      ReportHasError(chars[j], maxRetries, up.attendance(a)(j));
    }
  }

  /** The log of the first `m` accounts is a prefix of the log of all of them. */
  lemma {:induction false} AccountsLogPrefix(runs: seq<seq<Report>>, m: nat)
    requires m <= |runs|
    ensures |AccountsLog(runs[..m])| <= |AccountsLog(runs)|
    ensures AccountsLog(runs)[..|AccountsLog(runs[..m])|] == AccountsLog(runs[..m])
    decreases |runs| - m
  {
    if m < |runs| {
      var front := runs[..|runs| - 1];
      assert front[..m] == runs[..m];
      AccountsLogPrefix(front, m);
      var shorter := AccountsLog(front);
      assert AccountsLog(runs)[..|shorter|] == shorter;
    } else {
      assert runs[..m] == runs;
    }
  }

  /** Account `a`'s entries form one contiguous block of the log, right after the header
      and the entries of the accounts before it. */
  lemma AccountBlock(runs: seq<seq<Report>>, a: nat)
    requires a < |runs|
    ensures var log := RunLog(runs);
      var start := 1 + |AccountsLog(runs[..a])|;
      var block := AllEntries(runs[a]);
      start + |block| <= |log| && log[start..start + |block|] == block
  {
    var block := AllEntries(runs[a]);
    var before := AccountsLog(runs[..a]);
    var all := AccountsLog(runs);
    assert |before + block| <= |all| by {
      AccountsStep(runs, a);
      AccountsLogPrefix(runs, a + 1);
    }
    var after := all[|before + block|..];
    assert all == (before + block) + after by {
      AccountsStep(runs, a);
      AccountsLogPrefix(runs, a + 1);
    }
    var head := [Entry(Header, false)] + before;
    var tail := after + Summary(TotalSuccess(runs));
    assert RunLog(runs) == (head + block) + tail;
    MiddleSlice(head, block, tail);
  }

  /** The middle part of a three-part log is the slice between the other two. */
  lemma MiddleSlice(head: seq<Entry>, block: seq<Entry>, tail: seq<Entry>)
    ensures |head| + |block| <= |(head + block) + tail|
    ensures ((head + block) + tail)[|head|..|head| + |block|] == block
  {
  }
}

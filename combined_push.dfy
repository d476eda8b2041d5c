/** The combined run log of `createCombinePushMessage` (apps/node/src/attendance.ts): a
    closure-held list of messages with a sticky error flag, a `logger` that appends and may
    raise the flag, an `add` that appends without touching it, and a `push` that joins the
    messages, hands them to every configured notification channel and ends the process with
    status 1 when an error was logged. */
module CombinedPush {
  import opened Text

  /** One log line and whether it was logged as an error. */
  datatype Entry = Entry(message: string, error: bool)

  /** The messages of a sequence of entries, in order. */
  function Texts(log: seq<Entry>): (texts: seq<string>)
    ensures |texts| == |log|
    ensures forall i :: 0 <= i < |log| ==> texts[i] == log[i].message
    decreases |log|
  {
    if log == [] then [] else Texts(log[..|log| - 1]) + [log[|log| - 1].message]
  }

  /** Whether some entry is flagged as an error. */
  predicate HasError(log: seq<Entry>)
  {
    exists i :: 0 <= i < |log| && log[i].error
  }

  /** The error flag of a concatenation is the disjunction of the parts' flags. */
  lemma HasErrorConcat(a: seq<Entry>, b: seq<Entry>)
    ensures HasError(a + b) <==> HasError(a) || HasError(b)
  {
    if HasError(a) {
      var i :| 0 <= i < |a| && a[i].error;
      assert (a + b)[i] == a[i];
    }
    if HasError(b) {
      var i :| 0 <= i < |b| && b[i].error;
      assert (a + b)[|a| + i] == b[i];
    }
    if HasError(a + b) {
      var i :| 0 <= i < |a + b| && (a + b)[i].error;
      if i < |a| {
        assert a[i] == (a + b)[i];
      } else {
        assert b[i - |a|] == (a + b)[i];
      }
    }
  }

  /** Appending to a log in two steps is appending once. */
  lemma AppendAssoc(a: seq<Entry>, b: seq<Entry>, c: seq<Entry>)
    ensures (a + b) + c == a + (b + c)
  {
  }

  /** The notification settings. The source's `false`, `undefined` and the empty string
      all switch a channel off, so each is modelled by "". `qmsgQQ` is handed to the Qmsg
      transport, which ignores it. */
  datatype Options = Options(
    withServerChan: string,
    withBark: string,
    withMessagePusher: string,
    withQmsg: string,
    qmsgQQ: seq<string>)

  /** The four notification transports, in the order `push` calls them. */
  datatype Channel = ServerChan | Bark | MessagePusher | Qmsg

  /** One call to a transport: the channel, its configured endpoint, title and body. */
  datatype Notice = Notice(channel: Channel, endpoint: string, title: string, content: string)

  /** The title every notification carries. */
  const Title: string := "【森空岛每日签到】"

  /** What separates two messages in the notification body. */
  const Separator: string := "\n\n"

  /** The configured endpoint of a channel ("" when the channel is off). */
  function Endpoint(options: Options, channel: Channel): string
  {
    match channel
    case ServerChan => options.withServerChan
    case Bark => options.withBark
    case MessagePusher => options.withMessagePusher
    case Qmsg => options.withQmsg
  }

  /** Position of a channel in the order `push` awaits the transports. */
  function Rank(channel: Channel): nat
  {
    match channel
    case ServerChan => 0
    case Bark => 1
    case MessagePusher => 2
    case Qmsg => 3
  }

  /** The call to one transport: made, with the title and the body, when its endpoint is
      configured; skipped otherwise. */
  function Dispatch(options: Options, channel: Channel, content: string): seq<Notice>
  {
    if Endpoint(options, channel) != "" then [Notice(channel, Endpoint(options, channel), Title, content)] else []
  }

  /** The transport calls `push` makes, in the order it awaits them. */
  function Dispatches(options: Options, content: string): seq<Notice>
  {
    Dispatch(options, ServerChan, content) + Dispatch(options, Bark, content) +
    Dispatch(options, MessagePusher, content) + Dispatch(options, Qmsg, content)
  }

  /** Whether some notice goes to `channel`. */
  predicate Reaches(notices: seq<Notice>, channel: Channel)
  {
    exists i :: 0 <= i < |notices| && notices[i].channel == channel
  }

  /** Every notice carries the title, the body and its channel's configured endpoint. */
  lemma DispatchesCarry(options: Options, content: string)
    ensures var notices := Dispatches(options, content);
      forall i :: 0 <= i < |notices| ==>
        notices[i].title == Title && notices[i].content == content &&
        notices[i].endpoint == Endpoint(options, notices[i].channel) && notices[i].endpoint != ""
  {
    var notices := Dispatches(options, content);
    forall i | 0 <= i < |notices|
      ensures notices[i].title == Title && notices[i].content == content &&
        notices[i].endpoint == Endpoint(options, notices[i].channel) && notices[i].endpoint != ""
    {
      var x := notices[i];
      assert x in notices;
      assert x in Dispatch(options, ServerChan, content) || x in Dispatch(options, Bark, content) ||
        x in Dispatch(options, MessagePusher, content) || x in Dispatch(options, Qmsg, content);
    }
  }

  /** A channel is notified exactly when its endpoint is configured. */
  lemma DispatchesReach(options: Options, content: string)
    ensures forall channel :: Reaches(Dispatches(options, content), channel) <==> Endpoint(options, channel) != ""
  {
    var notices := Dispatches(options, content);
    forall channel ensures Reaches(notices, channel) <==> Endpoint(options, channel) != "" {
      if Endpoint(options, channel) != "" {
        var i := |Dispatch(options, ServerChan, content)| * (if Rank(channel) > 0 then 1 else 0) +
          |Dispatch(options, Bark, content)| * (if Rank(channel) > 1 then 1 else 0) +
          |Dispatch(options, MessagePusher, content)| * (if Rank(channel) > 2 then 1 else 0);
        assert notices[i].channel == channel;
      }
    }
  }

  /** The transports are called in their fixed order, each at most once. */
  lemma DispatchesOrdered(options: Options, content: string)
    ensures var notices := Dispatches(options, content);
      forall i, j :: 0 <= i < j < |notices| ==> Rank(notices[i].channel) < Rank(notices[j].channel)
  {
  }

  /** The closure state of `createCombinePushMessage`: the logged messages and the sticky
      error flag. The ghost `log` remembers each message together with its flag. */
  class CombinedLog {
    var messages: seq<string>
    var hasError: bool
    const options: Options
    ghost var log: seq<Entry>

    /** The messages are those of the log, and the flag says whether any entry was an error. */
    ghost predicate Valid()
      reads this
    {
      messages == Texts(log) && hasError == HasError(log)
    }

    /** A fresh combined log: nothing logged, no error. */
    constructor (options: Options)
      ensures Valid()
      ensures this.options == options && log == [] && messages == [] && !hasError
    {
      this.options := options;
      messages := [];
      hasError := false;
      log := [];
    }

    /** `logger(message, error)`: append the message; an error raises the flag for good. */
    method Logger(message: string, error: bool)
      requires Valid()
      modifies this
      ensures Valid()
      ensures log == old(log) + [Entry(message, error)]
      ensures messages == old(messages) + [message]
      ensures hasError == (old(hasError) || error)
    {
      messages := messages + [message];
      if error && !hasError {
        hasError := true;
      }
      log := log + [Entry(message, error)];
      assert log[..|log| - 1] == old(log);
      HasErrorConcat(old(log), [Entry(message, error)]);
      assert HasError([Entry(message, error)]) == error by {
        assert [Entry(message, error)][0].error == error;
      }
    }

    /** `add(message)`: append the message and leave the error flag alone. */
    method Add(message: string)
      requires Valid()
      modifies this
      ensures Valid()
      ensures log == old(log) + [Entry(message, false)]
      ensures messages == old(messages) + [message]
      ensures hasError == old(hasError)
    {
      messages := messages + [message];
      log := log + [Entry(message, false)];
      assert log[..|log| - 1] == old(log);
      HasErrorConcat(old(log), [Entry(message, false)]);
      assert !HasError([Entry(message, false)]);
    }

    /** `push()`: the body is every message joined by a blank line; each configured
        transport, in turn, is handed the title and the body; the exit status is 1 exactly
        when some logged entry was an error (0, the normal end of the process, otherwise). */
    method Push() returns (content: string, notices: seq<Notice>, exitStatus: nat)
      requires Valid()
      ensures content == Join(Texts(log), Separator)
      ensures notices == Dispatches(options, content)
      ensures exitStatus == 1 <==> HasError(log)
      ensures exitStatus == 0 <==> !HasError(log)
    {
      content := Join(messages, Separator);
      notices := [];
      if options.withServerChan != "" {
        notices := notices + [Notice(ServerChan, options.withServerChan, Title, content)];
      }
      assert notices == Dispatch(options, ServerChan, content);
      if options.withBark != "" {
        notices := notices + [Notice(Bark, options.withBark, Title, content)];
      }
      assert notices == Dispatch(options, ServerChan, content) + Dispatch(options, Bark, content);
      if options.withMessagePusher != "" {
        notices := notices + [Notice(MessagePusher, options.withMessagePusher, Title, content)];
      }
      assert notices == Dispatch(options, ServerChan, content) + Dispatch(options, Bark, content) +
        Dispatch(options, MessagePusher, content);
      if options.withQmsg != "" {
        notices := notices + [Notice(Qmsg, options.withQmsg, Title, content)];
      }
      exitStatus := if hasError then 1 else 0;
    }
  }
}

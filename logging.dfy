/** loggerClass (agi/call_opensips.py:151-188): every line is written to the
    Asterisk log through the LOG application, prefixed with the SIP call id
    and the use-case name of the call. */
module Logging {
  import opened Wrappers
  import opened Agi

  /** The name of the script's file in the repository, which the fallback
      line reports through os.path.basename(__file__); a deployment that
      renames the file reports that name instead. */
  const ScriptName := "call_opensips.py"
  const PrefixHead := "CALLERID(name:"

  /** The line the constructor writes, without a prefix, at the default level. */
  const InitLine := LogLine(NOTICE, "loggerClass __init__")

  /** The shapes of message `log` distinguishes: a string, a list of strings,
      and anything else (kept as its printed form). */
  datatype Message = Text(s: string) | Words(ws: seq<string>) | Other(repr: string)

  /** " ".join(ws) */
  function Join(ws: seq<string>): string
  {
    if ws == [] then ""
    else if |ws| == 1 then ws[0]
    else ws[0] + " " + Join(ws[1..])
  }

  /** s.split(" "): the pieces between single spaces, empty ones included. */
  function SplitOnSpace(s: string): (r: seq<string>)
    ensures |r| >= 1
  {
    if s == [] then [""]
    else if s[0] == ' ' then [""] + SplitOnSpace(s[1..])
    else
      var rest := SplitOnSpace(s[1..]);
      [[s[0]] + rest[0]] + rest[1..]
  }

  lemma {:induction false} SplitWord(w: string)
    requires ' ' !in w
    ensures SplitOnSpace(w) == [w]
    decreases |w|
  {
    if w != [] {
      assert ' ' !in w[1..] by {
        forall i | 0 <= i < |w[1..]| ensures w[1..][i] != ' ' { assert w[1..][i] == w[i + 1]; }
      }
      SplitWord(w[1..]);
      assert [w[0]] + w[1..] == w;
    }
  }

  lemma {:induction false} SplitWordThenRest(w: string, rest: string)
    requires ' ' !in w
    ensures SplitOnSpace(w + " " + rest) == [w] + SplitOnSpace(rest)
    decreases |w|
  {
    if w == [] {
      assert w + " " + rest == [' '] + rest;
      assert ([' '] + rest)[1..] == rest;
    } else {
      var s := w + " " + rest;
      assert s[0] == w[0];
      assert s[1..] == w[1..] + " " + rest;
      assert ' ' !in w[1..] by {
        forall i | 0 <= i < |w[1..]| ensures w[1..][i] != ' ' { assert w[1..][i] == w[i + 1]; }
      }
      SplitWordThenRest(w[1..], rest);
      assert [w[0]] + w[1..] == w;
    }
  }

  /** A list message can be recovered from the logged line when none of its
      fragments contains a space: joining with single spaces loses nothing. */
  lemma {:induction false} JoinSplitRoundTrip(ws: seq<string>)
    requires |ws| > 0
    requires forall i :: 0 <= i < |ws| ==> ' ' !in ws[i]
    ensures SplitOnSpace(Join(ws)) == ws
    decreases |ws|
  {
    if |ws| == 1 {
      SplitWord(ws[0]);
    } else {
      JoinSplitRoundTrip(ws[1..]);
      SplitWordThenRest(ws[0], Join(ws[1..]));
      assert [ws[0]] + ws[1..] == ws;
    }
  }

  /** msgPrefix of loggerClass.__init__. */
  function MsgPrefix(callerId: string, useCaseName: string): string
  {
    PrefixHead + callerId + "|" + useCaseName + ") "
  }

  /** The part of `s` before the first `ch` (all of `s` when there is none). */
  function Before(s: string, ch: char): string
  {
    if s == [] || s[0] == ch then [] else [s[0]] + Before(s[1..], ch)
  }

  /** The part of `s` after the first `ch` (empty when there is none). */
  function After(s: string, ch: char): string
  {
    if s == [] then [] else if s[0] == ch then s[1..] else After(s[1..], ch)
  }

  lemma {:induction false} SplitAtFirst(a: string, ch: char, b: string)
    requires ch !in a
    ensures Before(a + [ch] + b, ch) == a && After(a + [ch] + b, ch) == b
    decreases |a|
  {
    var s := a + [ch] + b;
    if a == [] {
      assert s == [ch] + b;
      assert s[1..] == b;
    } else {
      assert s[0] == a[0];
      assert s[1..] == a[1..] + [ch] + b;
      assert ch !in a[1..] by {
        forall i | 0 <= i < |a[1..]| ensures a[1..][i] != ch { assert a[1..][i] == a[i + 1]; }
      }
      SplitAtFirst(a[1..], ch, b);
      assert [a[0]] + a[1..] == a;
    }
  }

  /** The caller id a reader of the Asterisk log finds in a prefixed line. */
  function CallerIdOf(line: string): string
  {
    if |line| >= |PrefixHead| && line[..|PrefixHead|] == PrefixHead
    then Before(line[|PrefixHead|..], '|')
    else ""
  }

  /** The use-case name a reader of the Asterisk log finds in a prefixed line. */
  function UseCaseOf(line: string): string
  {
    if |line| >= |PrefixHead| && line[..|PrefixHead|] == PrefixHead
    then Before(After(line[|PrefixHead|..], '|'), ')')
    else ""
  }

  /** The prefix identifies the call: caller id and use-case name can be read
      back from any line that carries it, provided the caller id holds no `|`
      and the use-case name no `)`. */
  lemma PrefixIdentifiesCall(callerId: string, useCaseName: string, rest: string)
    requires '|' !in callerId && ')' !in useCaseName
    ensures CallerIdOf(MsgPrefix(callerId, useCaseName) + rest) == callerId
    ensures UseCaseOf(MsgPrefix(callerId, useCaseName) + rest) == useCaseName
  {
    var line := MsgPrefix(callerId, useCaseName) + rest;
    var tail := callerId + "|" + useCaseName + ") " + rest;
    assert line == PrefixHead + tail;
    assert line[..|PrefixHead|] == PrefixHead;
    assert line[|PrefixHead|..] == tail;
    assert tail == callerId + ['|'] + (useCaseName + ") " + rest);
    SplitAtFirst(callerId, '|', useCaseName + ") " + rest);
    assert useCaseName + ") " + rest == useCaseName + [')'] + (" " + rest);
    SplitAtFirst(useCaseName, ')', " " + rest);
  }

  /** The line `log(level, msg)` writes: a list is joined with single spaces
      and then treated as a string; a string is written at the requested level
      after the prefix; any other message is written at ERROR with a marker. */
  function FormatLine(prefix: string, level: Level, msg: Message): (r: LogLine)
    ensures |prefix| <= |r.text| && r.text[..|prefix|] == prefix
    ensures r.level == (if msg.Other? then ERROR else level)
    ensures msg.Text? ==> r.text[|prefix|..] == msg.s
    ensures msg.Words? ==> r.text[|prefix|..] == Join(msg.ws)
  {
    match msg
    case Text(s) => LogLine(level, prefix + s)
    case Words(ws) => LogLine(level, prefix + Join(ws))
    case Other(repr) => LogLine(ERROR, prefix + repr + "UNKNOWN ERROR in: " + ScriptName)
  }

  /** `log` as written: for a message that is neither a list nor a string,
      `self.msgPrefix + msg` raises TypeError before anything is logged. */
  function FormatLineAsWritten(prefix: string, level: Level, msg: Message): Result<LogLine, string>
  {
    match msg
    case Text(s) => Ok(LogLine(level, prefix + s))
    case Words(ws) => Ok(LogLine(level, prefix + Join(ws)))
    case Other(_) => Err("TypeError")
  }

  /** As written, the fallback ERROR line is never logged: every message of
      the third shape raises instead, while the corrected `FormatLine` logs it.
      On strings and lists the two agree. */
  lemma FallbackLineNeverWritten(prefix: string, level: Level, msg: Message)
    ensures msg.Other? ==> FormatLineAsWritten(prefix, level, msg).Err?
                           && FormatLine(prefix, level, msg).level == ERROR
    ensures !msg.Other? ==> FormatLineAsWritten(prefix, level, msg) == Ok(FormatLine(prefix, level, msg))
  {
  }

  /** loggerClass: the prefix is computed once, from the SIPCALLID variable
      and the second script argument. */
  class Logger {
    const agi: Channel
    const callerId: string
    const useCaseName: string
    const msgPrefix: string

    constructor (agi: Channel)
      modifies agi`logLines
      ensures this.agi == agi
      ensures callerId == agi.GetVariable("SIPCALLID")
      ensures useCaseName == EnvOr(agi.sw.env, "agi_arg_2", "")
      ensures msgPrefix == MsgPrefix(callerId, useCaseName)
      ensures agi.logLines == old(agi.logLines) + [InitLine]
    {
      this.agi := agi;
      callerId := agi.GetVariable("SIPCALLID");
      useCaseName := EnvOr(agi.sw.env, "agi_arg_2", "");
      msgPrefix := MsgPrefix(agi.GetVariable("SIPCALLID"), EnvOr(agi.sw.env, "agi_arg_2", ""));
      new;
      agi.Log(InitLine.level, InitLine.text);
    }

    method Log(level: Level, msg: Message)
      modifies agi`logLines
      ensures agi.logLines == old(agi.logLines) + [FormatLine(msgPrefix, level, msg)]
    {
      var m := msg;
      if m.Words? {
        m := Text(Join(m.ws));
      }
      if m.Text? {
        agi.Log(level, msgPrefix + m.s);
      } else {
        agi.Log(ERROR, msgPrefix + m.repr + "UNKNOWN ERROR in: " + ScriptName);
      }
    }

    method Info(msg: Message)
      modifies agi`logLines
      ensures agi.logLines == old(agi.logLines) + [FormatLine(msgPrefix, NOTICE, msg)]
    {
      Log(NOTICE, msg);
    }

    method Warn(msg: Message)
      modifies agi`logLines
      ensures agi.logLines == old(agi.logLines) + [FormatLine(msgPrefix, WARNING, msg)]
    {
      Log(WARNING, msg);
    }

    method Error(msg: Message)
      modifies agi`logLines
      ensures agi.logLines == old(agi.logLines) + [FormatLine(msgPrefix, ERROR, msg)]
    {
      Log(ERROR, msg);
    }
  }
}

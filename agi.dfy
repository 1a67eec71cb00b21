/** The Asterisk Gateway Interface as the script sees it: a channel that takes
    commands one after another, any of which may raise, plus the variables and
    status the switch reports. The asterisk.agi library itself is not part of
    this model; its behaviour is reduced to the `Switch` value below. */
module Agi {
  import opened Wrappers
  import Events

  /** An argument of an application run through EXEC. */
  datatype Arg = Str(s: string) | Int(n: int)

  /** One effect of the script on the outside world, in the order issued: an
      AGI command, or a POST of an event to the event-logging service. */
  datatype Command =
    | Answer
    | StreamFile(path: string)
    | Exec(app: string, args: seq<Arg>)
    | SetVariable(name: string, value: string)
    | Hangup
    | Post(payload: Events.Payload)

  /** What a command can raise: the remote party hanging up (AGIHangup), an
      application error (AGIAppError), or any other exception. */
  datatype Fault = RemoteHangup | AppError | OtherError

  /** Asterisk's log levels, as the LOG application takes them. */
  datatype Level = ERROR | WARNING | NOTICE | DEBUG | VERBOSE | DTMF

  /** One line written to the Asterisk log. */
  datatype LogLine = LogLine(level: Level, text: string)

  /** Everything the switch decides for one call: the agi_* environment, the
      channel variables (SIPCALLID, DIALSTATUS, CDR(start), CDR(end)), the
      failure oracle (the command issued at trace position n raises
      faults[n]) and the channel status (0 = down and available). */
  datatype Switch = Switch(env: map<string, string>, vars: map<string, string>,
                           faults: map<nat, Fault>, status: int)

  /** get_variable: an unset variable reads as the empty string. */
  function Variable(sw: Switch, name: string): string
  {
    if name in sw.vars then sw.vars[name] else ""
  }

  /** dict.get(key, default) on the agi_* environment. */
  function EnvOr(env: map<string, string>, key: string, default: string): string
  {
    if key in env then env[key] else default
  }

  function FaultAt(faults: map<nat, Fault>, p: nat): Option<Fault>
  {
    if p in faults then Some(faults[p]) else None
  }

  /** No command issued at a position in [lo, hi) raises. */
  ghost predicate NoFaultIn(faults: map<nat, Fault>, lo: nat, hi: nat)
  {
    forall p: nat :: lo <= p < hi ==> p !in faults
  }

  /** The trace after issuing some commands, and the fault that stopped them. */
  datatype Issued = Issued(trace: seq<Command>, fault: Option<Fault>)

  /** Issues `cmds` one after another, as consecutive Python statements do:
      the first command that raises is still issued, and none after it. */
  function IssueAll(faults: map<nat, Fault>, trace: seq<Command>, cmds: seq<Command>): (r: Issued)
    ensures |trace| <= |r.trace| <= |trace| + |cmds|
    ensures r.trace == trace + cmds[..|r.trace| - |trace|]
    ensures r.fault.None? <==> NoFaultIn(faults, |trace|, |trace| + |cmds|)
    ensures r.fault.None? ==> r.trace == trace + cmds
    ensures r.fault.Some? ==>
              && |trace| < |r.trace|
              && |r.trace| - 1 in faults && r.fault == Some(faults[|r.trace| - 1])
              && NoFaultIn(faults, |trace|, |r.trace| - 1)
    decreases |cmds|
  {
    if cmds == [] then Issued(trace, None)
    else
      var issued := trace + [cmds[0]];
      match FaultAt(faults, |trace|)
      case Some(f) => Issued(issued, Some(f))
      case None => IssueAll(faults, issued, cmds[1..])
  }

  /** Issuing `a + b` is issuing `a`, then `b` unless `a` raised. */
  lemma {:induction false} IssueAllAppend(faults: map<nat, Fault>, trace: seq<Command>, a: seq<Command>, b: seq<Command>)
    ensures IssueAll(faults, trace, a + b)
            == (var r := IssueAll(faults, trace, a);
                if r.fault.Some? then r else IssueAll(faults, r.trace, b))
    decreases |a|
  {
    if a == [] {
      assert a + b == b;
    } else {
      assert (a + b)[0] == a[0];
      assert (a + b)[1..] == a[1..] + b;
      if FaultAt(faults, |trace|).None? {
        IssueAllAppend(faults, trace + [a[0]], a[1..], b);
      }
    }
  }

  /** The body of a `try: ... except Exception: user_hangup = True` block,
      guarded by `if not user_hangup`: the new trace and the new flag. */
  function TryBlock(faults: map<nat, Fault>, trace: seq<Command>, userHangup: bool, cmds: seq<Command>): (r: (seq<Command>, bool))
    ensures |trace| <= |r.0| <= |trace| + |cmds| && r.0 == trace + cmds[..|r.0| - |trace|]
    ensures userHangup ==> r == (trace, true)
    ensures !userHangup ==> (r.1 <==> !NoFaultIn(faults, |trace|, |trace| + |cmds|))
    ensures !userHangup && !r.1 ==> r.0 == trace + cmds
    ensures !userHangup && r.1 ==>
              && |trace| < |r.0| <= |trace| + |cmds|
              && r.0 == trace + cmds[..|r.0| - |trace|]
              && |r.0| - 1 in faults
              && NoFaultIn(faults, |trace|, |r.0| - 1)
  {
    if userHangup then assert trace + cmds[..0] == trace; (trace, true)
    else
      var i := IssueAll(faults, trace, cmds);
      (i.trace, i.fault.Some?)
  }

  /** The AGI connection of one call: the commands issued so far and the
      lines written to the Asterisk log. */
  class Channel {
    const sw: Switch
    var trace: seq<Command>
    var logLines: seq<LogLine>

    constructor (sw: Switch)
      ensures this.sw == sw && trace == [] && logLines == []
    {
      this.sw := sw;
      trace := [];
      logLines := [];
    }

    function GetVariable(name: string): string
    {
      Variable(sw, name)
    }

    function ChannelStatus(): int
    {
      sw.status
    }

    /** Sends one command; it is recorded whether or not it raises. */
    method Issue(c: Command) returns (fault: Option<Fault>)
      modifies this`trace
      ensures trace == old(trace) + [c]
      ensures Issued(trace, fault) == IssueAll(sw.faults, old(trace), [c])
    {
      trace := trace + [c];
      fault := FaultAt(sw.faults, |trace| - 1);
      assert [c][1..] == [];
    }

    /** exec_command('LOG', level, text). */
    method Log(level: Level, text: string)
      modifies this`logLines
      ensures logLines == old(logLines) + [LogLine(level, text)]
    {
      logLines := logLines + [LogLine(level, text)];
    }
  }
}

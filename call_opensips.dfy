/** The per-call controller of agi/call_opensips.py: argument checks, the start
    event, recording, the dial through the OpenSIPS peer, classification of
    DIALSTATUS, the busy prompt, teardown and the end event. */
module CallOpensips {
  import opened Wrappers
  import opened Events
  import opened Agi
  import opened Logging
  import opened DialOutcome

  const DefaultAutoscalingGroup := "autoscale"
  const DefaultOpensipsPeer := "OPENSIPS"
  /** Ring timeout of the Dial application, in seconds. */
  const DialTimeout := 15

  const MissingCalledNumber := "Could not get called number."
  const MissingArguments := "You need to provide jvxml_extension and use_case_name."
  const ScriptEnded := "SCRIPT ENDED "
  const HangupOccurred := "HUNGUP OCCURRED"
  const StackTraceHeader := "python stack trace: "

  /** Values the source reads from its configuration file or the process
      environment: the Asterisk server address reported in the start event and
      the path of the busy prompt. */
  datatype Config = Config(serverIp: string, busyAudioFile: string)

  /** The AGISTATUS values of exitHangup, exitSuccess and exitFailure. */
  datatype ExitStatus = ExitHangup | ExitSuccess | ExitFailure

  /** How the script ends: through _exit with a status, by the AGIHangup
      handler's sys.exit(0), or by re-raising an AGIAppError. */
  datatype Outcome = Exited(status: ExitStatus) | HungUp | Reraised

  /** The call-setup values main reads from the agi_* environment. */
  datatype CallArgs = CallArgs(calledNumber: string, jvxmlExtension: string, useCaseName: string,
                               autoscalingGroup: string, opensipsPeer: string)

  /** A value env.get(key, None) that Python treats as true. */
  predicate Given(env: map<string, string>, key: string)
  {
    key in env && env[key] != ""
  }

  /** The argument checks of main: an empty or missing called number, then a
      missing extension or use-case name, end the script; the autoscaling
      group and the peer fall back to their defaults. */
  function Validate(env: map<string, string>): (r: Result<CallArgs, string>)
    ensures r.Ok? <==> Given(env, "agi_dnid") && Given(env, "agi_arg_1") && Given(env, "agi_arg_2")
    ensures r.Err? ==> r.error == (if Given(env, "agi_dnid") then MissingArguments else MissingCalledNumber)
    ensures r.Ok? ==> && r.value.calledNumber == env["agi_dnid"]
                      && r.value.jvxmlExtension == env["agi_arg_1"]
                      && r.value.useCaseName == env["agi_arg_2"]
    ensures r.Ok? ==> r.value.autoscalingGroup == (if "agi_arg_3" in env then env["agi_arg_3"] else "autoscale")
    ensures r.Ok? ==> r.value.opensipsPeer == (if "agi_arg_4" in env then env["agi_arg_4"] else "OPENSIPS")
  {
    if !Given(env, "agi_dnid") then Err(MissingCalledNumber)
    else if !(Given(env, "agi_arg_1") && Given(env, "agi_arg_2")) then Err(MissingArguments)
    else Ok(CallArgs(env["agi_dnid"], env["agi_arg_1"], env["agi_arg_2"],
                     EnvOr(env, "agi_arg_3", DefaultAutoscalingGroup),
                     EnvOr(env, "agi_arg_4", DefaultOpensipsPeer)))
  }

  /** called_number[:4], the extension reported in the start event. */
  function Extension(calledNumber: string): (r: string)
    ensures |r| == if |calledNumber| < 4 then |calledNumber| else 4
    ensures r <= calledNumber
  {
    if |calledNumber| <= 4 then calledNumber else calledNumber[..4]
  }

  function RecordingName(callId: string): string
  {
    callId + ".wav"
  }

  function RecordCommands(callId: string): seq<Command>
  {
    [Exec("Monitor", [Str("wav"), Str(callId)]), Exec("MixMonitor", [Str(RecordingName(callId))])]
  }

  function DialCommands(jvxmlExtension: string, autoscalingGroup: string, opensipsPeer: string): seq<Command>
  {
    [Exec("SIPAddHeader", [Str("X-Autoscaling-Group:" + autoscalingGroup)]),
     Exec("Dial", [Str("SIP/" + jvxmlExtension + "@" + opensipsPeer), Int(DialTimeout)])]
  }

  function BusyCommands(busyAudioFile: string): seq<Command>
  {
    [Answer, StreamFile(busyAudioFile)]
  }

  /** hangup: only while the flag is clear and the channel is not down. */
  function HangupCommands(userHangup: bool, status: int): seq<Command>
  {
    if !userHangup && status > 0 then [Hangup] else []
  }

  /** hangup as written: channel_status assigns a local named `logger`, so
      its call `logger(agi)` raises UnboundLocalError right after the status
      query, and the exception reaches the handlers of main. */
  function HangupAsWritten(userHangup: bool, status: int): Result<seq<Command>, Fault>
  {
    if userHangup then Ok([]) else Err(OtherError)
  }

  /** As written, the hang-up is never sent: with the flag clear it raises
      whatever the status, where the corrected `HangupCommands` hangs up every
      channel whose status is above 0. */
  lemma HangupNeverIssuedAsWritten(userHangup: bool, status: int)
    ensures HangupAsWritten(userHangup, status).Ok? ==> Hangup !in HangupAsWritten(userHangup, status).value
    ensures !userHangup ==> HangupAsWritten(userHangup, status) == Err(OtherError)
    ensures !userHangup && status > 0 ==> HangupCommands(userHangup, status) == [Hangup]
  {
  }

  const StopMixMonitor := Exec("StopMixMonitor", [])

  /** StopMixMonitor, hangup, then the end event. */
  function TeardownCommands(userHangup: bool, status: int, endEvent: Payload): seq<Command>
  {
    [StopMixMonitor] + HangupCommands(userHangup, status) + [Post(endEvent)]
  }

  function StartEvent(cfg: Config, sw: Switch, a: CallArgs): Payload
  {
    var callId := Variable(sw, "SIPCALLID");
    CallStartPayload(callId, RecordingName(callId), cfg.serverIp, Extension(a.calledNumber), Variable(sw, "CDR(start)"))
  }

  function EndEvent(sw: Switch, state: TransferState): Payload
  {
    CallEndPayload(Variable(sw, "SIPCALLID"), StateName(state), Variable(sw, "CDR(end)"))
  }

  /** The start event, then the two CALLERID variables JVoiceXML reads. */
  function PrologueCommands(cfg: Config, sw: Switch, a: CallArgs): seq<Command>
  {
    var callId := Variable(sw, "SIPCALLID");
    [Post(StartEvent(cfg, sw, a)),
     SetVariable("CALLERID(name)", callId + "|" + a.useCaseName),
     SetVariable("CALLERID(num)", a.calledNumber)]
  }

  /** The intermediate results of main's try block, phase by phase: each trace
      extends the previous one; the booleans are user_hangup after the phase. */
  datatype Phases = Phases(prologue: Issued, recorded: (seq<Command>, bool), dialled: (seq<Command>, bool),
                           state: TransferState, reacted: (seq<Command>, bool), teardown: Issued)

  function RunPhases(cfg: Config, sw: Switch, a: CallArgs): Phases
  {
    var callId := Variable(sw, "SIPCALLID");
    var prologue := IssueAll(sw.faults, [], PrologueCommands(cfg, sw, a));
    var recorded := TryBlock(sw.faults, prologue.trace, false, RecordCommands(callId));
    var dialled := TryBlock(sw.faults, recorded.0, recorded.1,
                            DialCommands(a.jvxmlExtension, a.autoscalingGroup, a.opensipsPeer));
    var state := if dialled.1 then Predial else Classify(Variable(sw, "DIALSTATUS"));
    var reacted := if !dialled.1 && state != Success
                   then TryBlock(sw.faults, dialled.0, dialled.1, BusyCommands(cfg.busyAudioFile))
                   else dialled;
    var teardown := IssueAll(sw.faults, reacted.0, TeardownCommands(reacted.1, sw.status, EndEvent(sw, state)));
    Phases(prologue, recorded, dialled, state, reacted, teardown)
  }

  /** Where main's try block stops: the trace, transfer_state, user_hangup
      and the fault that escaped to the handlers, if any. */
  datatype BodyEnd = BodyEnd(trace: seq<Command>, state: TransferState, userHangup: bool, fault: Option<Fault>)

  function Body(cfg: Config, sw: Switch, a: CallArgs): BodyEnd
  {
    var ph := RunPhases(cfg, sw, a);
    if ph.prologue.fault.Some? then BodyEnd(ph.prologue.trace, Predial, false, ph.prologue.fault)
    else BodyEnd(ph.teardown.trace, ph.state, ph.reacted.1, ph.teardown.fault)
  }

  /** What the exception handlers of main log. */
  function HandlerLines(prefix: string, fault: Option<Fault>): seq<LogLine>
  {
    match fault
    case None => []
    case Some(RemoteHangup) => [FormatLine(prefix, NOTICE, Text(HangupOccurred))]
    case Some(AppError) => []
    case Some(OtherError) => [FormatLine(prefix, ERROR, Words([StackTraceHeader]))]
  }

  function OutcomeOf(fault: Option<Fault>): Outcome
  {
    match fault
    case None => Exited(ExitSuccess)
    case Some(RemoteHangup) => HungUp
    case Some(AppError) => Reraised
    case Some(OtherError) => Exited(ExitFailure)
  }

  function SessionPrefix(sw: Switch): string
  {
    MsgPrefix(Variable(sw, "SIPCALLID"), EnvOr(sw.env, "agi_arg_2", ""))
  }

  /** Everything one run of the script does. */
  datatype RunResult = RunResult(trace: seq<Command>, logs: seq<LogLine>, state: TransferState,
                                 userHangup: bool, outcome: Outcome)

  function Lifecycle(cfg: Config, sw: Switch): RunResult
  {
    var prefix := SessionPrefix(sw);
    var ended := FormatLine(prefix, NOTICE, Text(ScriptEnded));
    match Validate(sw.env)
    case Err(msg) =>
      RunResult([], [InitLine, FormatLine(prefix, ERROR, Text(msg)), ended], Predial, false, Exited(ExitFailure))
    case Ok(a) =>
      var b := Body(cfg, sw, a);
      RunResult(b.trace, [InitLine] + HandlerLines(prefix, b.fault) + [ended], b.state, b.userHangup, OutcomeOf(b.fault))
  }

  /** Issuing [c0, c1] is issuing c0, then c1 unless c0 raised. */
  lemma IssueTwo(faults: map<nat, Fault>, trace: seq<Command>, c0: Command, c1: Command)
    ensures IssueAll(faults, trace, [c0, c1])
            == (var r := IssueAll(faults, trace, [c0]);
                if r.fault.Some? then r else IssueAll(faults, r.trace, [c1]))
  {
    assert [c0, c1] == [c0] + [c1];
    IssueAllAppend(faults, trace, [c0], [c1]);
  }

  /** record: start per-leg and mixed recording unless the flag is already set. */
  method Record(agi: Channel, userHangup: bool, callId: string) returns (hungUp: bool)
    modifies agi`trace
    ensures (agi.trace, hungUp) == TryBlock(agi.sw.faults, old(agi.trace), userHangup, RecordCommands(callId))
  {
    hungUp := userHangup;
    if !userHangup {
      IssueTwo(agi.sw.faults, agi.trace, RecordCommands(callId)[0], RecordCommands(callId)[1]);
      var fault := agi.Issue(Exec("Monitor", [Str("wav"), Str(callId)]));
      if fault.None? {
        fault := agi.Issue(Exec("MixMonitor", [Str(RecordingName(callId))]));
      }
      hungUp := fault.Some?;
    }
  }

  /** dial: add the autoscaling header, then dial the JVoiceXML extension
      through the OpenSIPS peer, unless the flag is already set. */
  method Dial(agi: Channel, userHangup: bool, jvxmlExtension: string, autoscalingGroup: string, opensipsPeer: string)
    returns (hungUp: bool)
    modifies agi`trace
    ensures (agi.trace, hungUp)
            == TryBlock(agi.sw.faults, old(agi.trace), userHangup, DialCommands(jvxmlExtension, autoscalingGroup, opensipsPeer))
  {
    hungUp := userHangup;
    if !userHangup {
      ghost var cmds := DialCommands(jvxmlExtension, autoscalingGroup, opensipsPeer);
      IssueTwo(agi.sw.faults, agi.trace, cmds[0], cmds[1]);
      var fault := agi.Issue(Exec("SIPAddHeader", [Str("X-Autoscaling-Group:" + autoscalingGroup)]));
      if fault.None? {
        fault := agi.Issue(Exec("Dial", [Str("SIP/" + jvxmlExtension + "@" + opensipsPeer), Int(DialTimeout)]));
      }
      hungUp := fault.Some?;
    }
  }

  /** play_busy: answer, then stream the busy prompt, unless the flag is set. */
  method PlayBusy(agi: Channel, userHangup: bool, busyAudioFile: string) returns (hungUp: bool)
    modifies agi`trace
    ensures (agi.trace, hungUp) == TryBlock(agi.sw.faults, old(agi.trace), userHangup, BusyCommands(busyAudioFile))
  {
    hungUp := userHangup;
    if !userHangup {
      IssueTwo(agi.sw.faults, agi.trace, Answer, StreamFile(busyAudioFile));
      var fault := agi.Issue(Answer);
      if fault.None? {
        fault := agi.Issue(StreamFile(busyAudioFile));
      }
      hungUp := fault.Some?;
    }
  }

  /** hangup: hang up only while the flag is clear and the channel status is
      above 0; a fault of the hang-up command is not caught here. */
  method HangupCall(agi: Channel, userHangup: bool) returns (fault: Option<Fault>)
    modifies agi`trace
    ensures Issued(agi.trace, fault) == IssueAll(agi.sw.faults, old(agi.trace), HangupCommands(userHangup, agi.sw.status))
  {
    fault := None;
    if !userHangup {
      if agi.ChannelStatus() > 0 {
        fault := agi.Issue(Hangup);
      }
    }
  }

  /** The start event and the CALLERID variables; none of these faults is
      caught before the handlers of main. */
  method SendStart(agi: Channel, cfg: Config, a: CallArgs) returns (fault: Option<Fault>)
    modifies agi`trace
    ensures Issued(agi.trace, fault) == IssueAll(agi.sw.faults, old(agi.trace), PrologueCommands(cfg, agi.sw, a))
  {
    var callId := agi.GetVariable("SIPCALLID");
    ghost var pro := PrologueCommands(cfg, agi.sw, a);
    assert pro == [pro[0]] + [pro[1], pro[2]];
    IssueAllAppend(agi.sw.faults, agi.trace, [pro[0]], [pro[1], pro[2]]);
    fault := agi.Issue(Post(CallStartPayload(callId, RecordingName(callId), cfg.serverIp,
                                             Extension(a.calledNumber), agi.GetVariable("CDR(start)"))));
    if fault.None? {
      IssueTwo(agi.sw.faults, agi.trace, pro[1], pro[2]);
      fault := agi.Issue(SetVariable("CALLERID(name)", callId + "|" + a.useCaseName));
      if fault.None? {
        fault := agi.Issue(SetVariable("CALLERID(num)", a.calledNumber));
      }
    }
  }

  /** StopMixMonitor, hangup and the end event, stopping at the first fault. */
  method FinishCall(agi: Channel, userHangup: bool, state: TransferState) returns (fault: Option<Fault>)
    modifies agi`trace
    ensures Issued(agi.trace, fault)
            == IssueAll(agi.sw.faults, old(agi.trace), TeardownCommands(userHangup, agi.sw.status, EndEvent(agi.sw, state)))
  {
    ghost var hang := HangupCommands(userHangup, agi.sw.status);
    ghost var endEvent := EndEvent(agi.sw, state);
    assert TeardownCommands(userHangup, agi.sw.status, endEvent) == [StopMixMonitor] + (hang + [Post(endEvent)]);
    IssueAllAppend(agi.sw.faults, agi.trace, [StopMixMonitor], hang + [Post(endEvent)]);
    fault := agi.Issue(StopMixMonitor);
    if fault.None? {
      IssueAllAppend(agi.sw.faults, agi.trace, hang, [Post(endEvent)]);
      fault := HangupCall(agi, userHangup);
      if fault.None? {
        var callId := agi.GetVariable("SIPCALLID");
        fault := agi.Issue(Post(CallEndPayload(callId, StateName(state), agi.GetVariable("CDR(end)"))));
      }
    }
  }

  /** One invocation of the script on one call. */
  class CallSession {
    const agi: Channel
    const cfg: Config
    const logger: Logger
    var userHangup: bool
    var transferState: TransferState

    /** The state main starts its try block in. */
    ghost predicate Ready()
      reads this, agi
    {
      && logger.agi == agi && logger.msgPrefix == SessionPrefix(agi.sw)
      && agi.trace == [] && agi.logLines == [InitLine]
      && !userHangup && transferState == Predial
    }

    constructor (agi: Channel, cfg: Config)
      requires agi.trace == [] && agi.logLines == []
      modifies agi`logLines
      ensures this.agi == agi && this.cfg == cfg && Ready()
    {
      this.agi := agi;
      this.cfg := cfg;
      logger := new Logger(agi);
      userHangup := false;
      transferState := Predial;
    }

    /** main, from the argument checks to the finally clause. */
    method Run() returns (outcome: Outcome)
      requires Ready()
      modifies this, agi
      ensures RunResult(agi.trace, agi.logLines, transferState, userHangup, outcome) == Lifecycle(cfg, agi.sw)
    {
      var env := agi.sw.env;
      if !Given(env, "agi_dnid") {
        logger.Error(Text(MissingCalledNumber));
        outcome := Exited(ExitFailure);
      } else if !(Given(env, "agi_arg_1") && Given(env, "agi_arg_2")) {
        logger.Error(Text(MissingArguments));
        outcome := Exited(ExitFailure);
      } else {
        var a := CallArgs(env["agi_dnid"], env["agi_arg_1"], env["agi_arg_2"],
                          EnvOr(env, "agi_arg_3", DefaultAutoscalingGroup),
                          EnvOr(env, "agi_arg_4", DefaultOpensipsPeer));
        assert Validate(env) == Ok(a);
        var fault := RunBody(a);
        outcome := Handle(fault);
      }
      logger.Info(Text(ScriptEnded));
    }

    /** The except clauses of main. */
    method Handle(fault: Option<Fault>) returns (outcome: Outcome)
      requires logger.agi == agi
      modifies agi`logLines
      ensures agi.logLines == old(agi.logLines) + HandlerLines(logger.msgPrefix, fault)
      ensures outcome == OutcomeOf(fault)
    {
      match fault
      case None =>
        outcome := Exited(ExitSuccess);
      case Some(RemoteHangup) =>
        logger.Info(Text(HangupOccurred));
        outcome := HungUp;
      case Some(AppError) =>
        outcome := Reraised;
      case Some(OtherError) =>
        logger.Error(Words([StackTraceHeader]));
        outcome := Exited(ExitFailure);
    }

    /** The try block of main after the argument checks. */
    method RunBody(a: CallArgs) returns (fault: Option<Fault>)
      requires agi.trace == [] && !userHangup && transferState == Predial
      modifies this, agi`trace
      ensures BodyEnd(agi.trace, transferState, userHangup, fault) == Body(cfg, agi.sw, a)
    {
      ghost var ph := RunPhases(cfg, agi.sw, a);
      var callId := agi.GetVariable("SIPCALLID");
      fault := SendStart(agi, cfg, a);
      assert Issued(agi.trace, fault) == ph.prologue;
      if fault.Some? {
        return;
      }
      userHangup := Record(agi, userHangup, callId);
      assert (agi.trace, userHangup) == ph.recorded;
      userHangup := Dial(agi, userHangup, a.jvxmlExtension, a.autoscalingGroup, a.opensipsPeer);
      assert (agi.trace, userHangup) == ph.dialled;
      var dialStatus := agi.GetVariable("DIALSTATUS");
      if !userHangup {
        transferState := Classify(dialStatus);
        if transferState != Success {
          userHangup := PlayBusy(agi, userHangup, cfg.busyAudioFile);
        }
      }
      assert transferState == ph.state && (agi.trace, userHangup) == ph.reacted;
      fault := FinishCall(agi, userHangup, transferState);
    }
  }
}

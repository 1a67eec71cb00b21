/** What one run of the script promises about commands that raise: the
    try block gives up after the first raising command, the recording is
    stopped whenever the prologue got through, the call is reported as
    PREDIAL exactly when the dial never completed, and the channel is hung up
    only when it is still up and the caller has not hung up. */
module FaultProperties {
  import opened Wrappers
  import opened Events
  import opened Agi
  import opened DialOutcome
  import opened CallOpensips
  import opened LifecycleProperties

  /** The only command of `t` that raised, if any, is its last one, and the
      user_hangup flag is set exactly when there was one. */
  ghost predicate FaultOnlyLast(faults: map<nat, Fault>, t: seq<Command>, userHangup: bool)
  {
    && (forall i :: 0 <= i < |t| && i in faults ==> i == |t| - 1)
    && (userHangup <==> |t| > 0 && |t| - 1 in faults)
  }

  /** After a command of `t` raised, only StopMixMonitor and the POST of `end`
      are issued. */
  ghost predicate OnlyTeardownAfterFault(faults: map<nat, Fault>, t: seq<Command>, end: Payload)
  {
    forall i, j :: 0 <= i < j < |t| && i in faults ==> t[j] == StopMixMonitor || t[j] == Post(end)
  }

  /** A guarded try block keeps that shape: once the flag is set it issues
      nothing, and otherwise it stops at its first raising command. */
  lemma TryBlockFaultOnlyLast(faults: map<nat, Fault>, t: seq<Command>, userHangup: bool, cmds: seq<Command>)
    requires FaultOnlyLast(faults, t, userHangup)
    ensures var r := TryBlock(faults, t, userHangup, cmds);
            FaultOnlyLast(faults, r.0, r.1)
  {
    var r := TryBlock(faults, t, userHangup, cmds);
    if !userHangup {
      forall i | 0 <= i < |r.0| && i in faults
        ensures i == |r.0| - 1
      {
        assert i >= |t|;
      }
      if r.1 {
        assert |r.0| - 1 in faults;
      } else {
        assert |r.0| > 0 && |r.0| - 1 in faults ==> |r.0| - 1 >= |t|;
      }
    }
  }

  /** Up to the teardown, a raising command is the last one issued, and the
      flag the teardown reads records whether one raised. */
  lemma FaultOnlyLastBeforeTeardown(cfg: Config, sw: Switch, a: CallArgs)
    ensures var ph := RunPhases(cfg, sw, a);
            ph.prologue.fault.None? ==> FaultOnlyLast(sw.faults, ph.reacted.0, ph.reacted.1)
  {
    var ph := RunPhases(cfg, sw, a);
    if ph.prologue.fault.None? {
      assert FaultOnlyLast(sw.faults, ph.prologue.trace, false);
      TryBlockFaultOnlyLast(sw.faults, ph.prologue.trace, false, RecordCommands(Variable(sw, "SIPCALLID")));
      TryBlockFaultOnlyLast(sw.faults, ph.recorded.0, ph.recorded.1,
                            DialCommands(a.jvxmlExtension, a.autoscalingGroup, a.opensipsPeer));
      if !ph.dialled.1 && ph.state != Success {
        TryBlockFaultOnlyLast(sw.faults, ph.dialled.0, ph.dialled.1, BusyCommands(cfg.busyAudioFile));
      }
    }
  }

  /** Once the flag is set, the teardown stops the recording and sends the
      end event, and nothing else. */
  lemma TeardownAfterFault(faults: map<nat, Fault>, base: seq<Command>, userHangup: bool, status: int, end: Payload)
    requires FaultOnlyLast(faults, base, userHangup)
    ensures OnlyTeardownAfterFault(faults, IssueAll(faults, base, TeardownCommands(userHangup, status, end)).trace, end)
  {
    var td := TeardownCommands(userHangup, status, end);
    var r := IssueAll(faults, base, td);
    var t := r.trace;
    forall i, j | 0 <= i < j < |t| && i in faults
      ensures t[j] == StopMixMonitor || t[j] == Post(end)
    {
      if i < |base| {
        assert i == |base| - 1 && userHangup;
        assert td == [StopMixMonitor, Post(end)];
        assert t[j] == td[j - |base|];
      } else {
        assert false;
      }
    }
  }

  /** A trace whose only raising command is its last has no command after
      one that raised. */
  lemma NothingAfterLastFault(faults: map<nat, Fault>, t: seq<Command>, p: Payload)
    requires forall i :: 0 <= i < |t| && i in faults ==> i == |t| - 1
    ensures OnlyTeardownAfterFault(faults, t, p)
  {
  }

  /** The prologue, issued from the start of the call, raises at most at its
      last command. */
  lemma PrologueFaultOnlyLast(cfg: Config, sw: Switch, a: CallArgs)
    ensures var t := IssueAll(sw.faults, [], PrologueCommands(cfg, sw, a)).trace;
            forall i :: 0 <= i < |t| && i in sw.faults ==> i == |t| - 1
  {
  }

  /** The sticky rule when the prologue raised: nothing follows the fault. */
  lemma StickyPrologue(cfg: Config, sw: Switch, a: CallArgs, end: Payload)
    ensures var ph := RunPhases(cfg, sw, a);
            ph.prologue.fault.Some? ==> OnlyTeardownAfterFault(sw.faults, ph.prologue.trace, end)
  {
    PrologueFaultOnlyLast(cfg, sw, a);
    NothingAfterLastFault(sw.faults, RunPhases(cfg, sw, a).prologue.trace, end);
  }

  /** The sticky rule once the prologue got through: only the teardown's
      StopMixMonitor and end event follow a fault. */
  lemma StickyTeardown(cfg: Config, sw: Switch, a: CallArgs)
    ensures var ph := RunPhases(cfg, sw, a);
            ph.prologue.fault.None? ==> OnlyTeardownAfterFault(sw.faults, ph.teardown.trace, EndEvent(sw, ph.state))
  {
    var ph := RunPhases(cfg, sw, a);
    if ph.prologue.fault.None? {
      FaultOnlyLastBeforeTeardown(cfg, sw, a);
      TeardownAfterFault(sw.faults, ph.reacted.0, ph.reacted.1, sw.status, EndEvent(sw, ph.state));
    }
  }

  /** The try block of main: after a raising command, only the teardown's
      StopMixMonitor and end event follow. */
  lemma BodySticky(cfg: Config, sw: Switch, a: CallArgs)
    ensures var b := Body(cfg, sw, a);
            OnlyTeardownAfterFault(sw.faults, b.trace, EndEvent(sw, b.state))
  {
    var b := Body(cfg, sw, a);
    StickyPrologue(cfg, sw, a, EndEvent(sw, b.state));
    StickyTeardown(cfg, sw, a);
  }

  /** After any command of the call raises, the script only stops the
      recording and sends the end event: it neither dials, nor plays the
      busy prompt, nor hangs up. */
  lemma StickyAfterFault(cfg: Config, sw: Switch)
    ensures var r := Lifecycle(cfg, sw);
            forall i, j :: 0 <= i < j < |r.trace| && i in sw.faults ==>
              r.trace[j] == StopMixMonitor || r.trace[j] == Post(EndEvent(sw, r.state))
  {
    LifecycleParts(cfg, sw);
    if Validate(sw.env).Ok? {
      BodySticky(cfg, sw, Validate(sw.env).value);
    }
  }

  /** Splitting a range of positions splits "nothing raised there". */
  lemma NoFaultInSplit(faults: map<nat, Fault>, lo: nat, mid: nat, hi: nat)
    requires lo <= mid <= hi
    ensures NoFaultIn(faults, lo, hi) <==> NoFaultIn(faults, lo, mid) && NoFaultIn(faults, mid, hi)
  {
  }

  /** The number of commands issued before the dial returns: the three of the
      prologue, the two that start the recording and the two that dial. */
  const CommandsUpToDial := 7

  /** The dial returns without raising exactly when none of the commands up to
      it raised; only then is the call classified from DIALSTATUS. */
  lemma DialCompletes(cfg: Config, sw: Switch, a: CallArgs)
    ensures var ph := RunPhases(cfg, sw, a);
            (ph.prologue.fault.None? && !ph.dialled.1) <==> NoFaultIn(sw.faults, 0, CommandsUpToDial)
  {
    var ph := RunPhases(cfg, sw, a);
    NoFaultInSplit(sw.faults, 0, 3, CommandsUpToDial);
    NoFaultInSplit(sw.faults, 3, 5, CommandsUpToDial);
    if ph.prologue.fault.None? {
      assert |ph.prologue.trace| == 3;
      if !ph.recorded.1 {
        assert |ph.recorded.0| == 5;
      }
    }
  }

  /** The call is reported as PREDIAL exactly when the arguments were rejected
      or one of the commands up to and including the dial raised; otherwise
      its state is the classification of DIALSTATUS. */
  lemma PredialRule(cfg: Config, sw: Switch)
    ensures var r := Lifecycle(cfg, sw);
            r.state == Predial <==> Validate(sw.env).Err? || !NoFaultIn(sw.faults, 0, CommandsUpToDial)
    ensures var r := Lifecycle(cfg, sw);
            Validate(sw.env).Ok? && NoFaultIn(sw.faults, 0, CommandsUpToDial) ==>
              r.state == Classify(Variable(sw, "DIALSTATUS"))
  {
    LifecycleParts(cfg, sw);
    if Validate(sw.env).Ok? {
      var a := Validate(sw.env).value;
      var ph := RunPhases(cfg, sw, a);
      DialCompletes(cfg, sw, a);
      assert Body(cfg, sw, a).state == if ph.prologue.fault.Some? then Predial else ph.state;
    }
  }

  /** StopMixMonitor is issued only by the teardown. */
  lemma StopOnlyInTeardown(cfg: Config, sw: Switch, a: CallArgs)
    ensures var ph := RunPhases(cfg, sw, a);
            StopMixMonitor !in ph.prologue.trace && StopMixMonitor !in ph.reacted.0
  {
    var ph := RunPhases(cfg, sw, a);
    PhasesChain(cfg, sw, a);
    NotInChain(ph.prologue.trace, ph.recorded.0, ph.dialled.0, ph.reacted.0,
               PrologueCommands(cfg, sw, a), RecordCommands(Variable(sw, "SIPCALLID")),
               DialCommands(a.jvxmlExtension, a.autoscalingGroup, a.opensipsPeer), BusyCommands(cfg.busyAudioFile), StopMixMonitor);
  }

  /** The prologue raises nothing exactly when none of its three positions
      faults. */
  lemma PrologueCompletes(cfg: Config, sw: Switch, a: CallArgs)
    ensures RunPhases(cfg, sw, a).prologue.fault.None? <==> NoFaultIn(sw.faults, 0, 3)
  {
    assert |PrologueCommands(cfg, sw, a)| == 3;
  }

  /** The teardown always issues StopMixMonitor, even if that command raises. */
  lemma TeardownStopsRecording(faults: map<nat, Fault>, base: seq<Command>, userHangup: bool, status: int, end: Payload)
    ensures StopMixMonitor in IssueAll(faults, base, TeardownCommands(userHangup, status, end)).trace
  {
    var t := IssueAll(faults, base, TeardownCommands(userHangup, status, end)).trace;
    assert t[|base|] == StopMixMonitor;
  }

  /** The try block reaches its teardown exactly when the prologue raised
      nothing. */
  lemma BodyReachesTeardown(cfg: Config, sw: Switch, a: CallArgs)
    ensures StopMixMonitor in Body(cfg, sw, a).trace <==> NoFaultIn(sw.faults, 0, 3)
  {
    var ph := RunPhases(cfg, sw, a);
    StopOnlyInTeardown(cfg, sw, a);
    PrologueCompletes(cfg, sw, a);
    TeardownStopsRecording(sw.faults, ph.reacted.0, ph.reacted.1, sw.status, EndEvent(sw, ph.state));
  }

  /** The teardown is reached, and the recording stopped, exactly when the
      arguments were accepted and the prologue raised nothing, whatever the
      record, dial and busy blocks did. */
  lemma TeardownReached(cfg: Config, sw: Switch)
    ensures var r := Lifecycle(cfg, sw);
            StopMixMonitor in r.trace <==> Validate(sw.env).Ok? && NoFaultIn(sw.faults, 0, 3)
  {
    LifecycleParts(cfg, sw);
    if Validate(sw.env).Ok? {
      BodyReachesTeardown(cfg, sw, Validate(sw.env).value);
    }
  }

  /** The teardown's three statements are not guarded: a StopMixMonitor that
      raises (AGIHangup once the caller has gone, say) skips the hang-up and
      the end event, so an answered call then reports its start and never its
      end, and the handler of the fault decides how the script ends. */
  lemma TeardownFaultSkipsEndEvent(cfg: Config, sw: Switch)
    requires Validate(sw.env).Ok? && Variable(sw, "DIALSTATUS") == "ANSWER"
    requires NoFaultIn(sw.faults, 0, CommandsUpToDial) && CommandsUpToDial in sw.faults
    ensures var r := Lifecycle(cfg, sw);
            && Posts(r.trace) == [StartEvent(cfg, sw, Validate(sw.env).value)]
            && |r.trace| == CommandsUpToDial + 1 && r.trace[CommandsUpToDial] == StopMixMonitor
            && r.state == Success
            && r.outcome == OutcomeOf(Some(sw.faults[CommandsUpToDial]))
  {
    var a := Validate(sw.env).value;
    var ph := RunPhases(cfg, sw, a);
    var pro := PrologueCommands(cfg, sw, a);
    var rec := RecordCommands(Variable(sw, "SIPCALLID"));
    var dial := DialCommands(a.jvxmlExtension, a.autoscalingGroup, a.opensipsPeer);
    LifecycleParts(cfg, sw);
    DialCompletes(cfg, sw, a);
    assert ph.prologue.trace == pro;
    assert ph.recorded == (pro + rec, false);
    assert ph.dialled == (pro + rec + dial, false);
    assert ph.state == Success && ph.reacted == ph.dialled;
    var td := TeardownCommands(false, sw.status, EndEvent(sw, Success));
    assert ph.teardown == Issued(pro + rec + dial + [StopMixMonitor], Some(sw.faults[CommandsUpToDial])) by {
      assert FaultAt(sw.faults, CommandsUpToDial).Some?;
      assert td[..1] == [StopMixMonitor];
    }
    PostsAppend(pro + rec + dial, [StopMixMonitor]);
    PostsAppend(pro + rec, dial);
    PostsAppend(pro, rec);
    PostsOfPrologue(cfg, sw, a);
    PostsOfAgiCommands(sw, a, cfg.busyAudioFile);
    PostsOne(StopMixMonitor);
  }

  /** The arguments main goes on with once a check has failed, as written
      but with line 229 read as intended (read literally, it raises
      UnboundLocalError before the `try`): `_exit` calls `set` on the agi_* environment, a dict, at line 232, and
      line 235 swallows the AttributeError before agi.hangup() and
      sys.exit(0) run, so exitFailure returns and main carries on. With the
      called number and the use-case name present the prologue goes through,
      and a missing agi_arg_1 is None, which the Dial string formats as
      "None". The result is None when either of those two is missing: without
      agi_dnid, `called_number[:4]` at line 285 raises TypeError before any
      command; without agi_arg_2, the start event is posted at line 289 and
      `call_id + '|' + None` at line 293 then raises TypeError. */
  function ArgsAfterExitAsWritten(env: map<string, string>): (r: Option<CallArgs>)
    ensures r.Some? <==> "agi_dnid" in env && "agi_arg_2" in env
    ensures r.Some? ==> && r.value.calledNumber == env["agi_dnid"]
                        && r.value.jvxmlExtension == (if "agi_arg_1" in env then env["agi_arg_1"] else "None")
                        && r.value.useCaseName == env["agi_arg_2"]
    ensures Validate(env).Ok? ==> r == Some(Validate(env).value)
  {
    if "agi_dnid" in env && "agi_arg_2" in env
    then Some(CallArgs(env["agi_dnid"], EnvOr(env, "agi_arg_1", "None"), env["agi_arg_2"],
                       EnvOr(env, "agi_arg_3", DefaultAutoscalingGroup),
                       EnvOr(env, "agi_arg_4", DefaultOpensipsPeer)))
    else None
  }

  /** A trace that extends a non-empty one keeps its first command. */
  lemma ExtendsKeepsHead(t: seq<Command>, base: seq<Command>, cmds: seq<Command>)
    requires Extends(t, base, cmds) && |base| > 0
    ensures |t| > 0 && t[0] == base[0]
  {
  }

  /** The try block's first command is the start event. */
  lemma BodyStartsWithStartEvent(cfg: Config, sw: Switch, a: CallArgs)
    ensures var t := Body(cfg, sw, a).trace;
            |t| > 0 && t[0] == Post(StartEvent(cfg, sw, a))
  {
    var ph := RunPhases(cfg, sw, a);
    PhasesChain(cfg, sw, a);
    assert |ph.prologue.trace| > 0 && ph.prologue.trace[0] == PrologueCommands(cfg, sw, a)[0];
    ExtendsKeepsHead(ph.recorded.0, ph.prologue.trace, RecordCommands(Variable(sw, "SIPCALLID")));
    ExtendsKeepsHead(ph.dialled.0, ph.recorded.0, DialCommands(a.jvxmlExtension, a.autoscalingGroup, a.opensipsPeer));
    ExtendsKeepsHead(ph.reacted.0, ph.dialled.0, BusyCommands(cfg.busyAudioFile));
    ExtendsKeepsHead(ph.teardown.trace, ph.reacted.0, TeardownCommands(ph.reacted.1, sw.status, EndEvent(sw, ph.state)));
  }

  /** When nothing raises up to the dial, the try block issues the Dial. */
  lemma BodyDials(cfg: Config, sw: Switch, a: CallArgs)
    requires NoFaultIn(sw.faults, 0, CommandsUpToDial)
    ensures Exec("Dial", [Str("SIP/" + a.jvxmlExtension + "@" + a.opensipsPeer), Int(DialTimeout)]) in Body(cfg, sw, a).trace
  {
    var ph := RunPhases(cfg, sw, a);
    var dial := DialCommands(a.jvxmlExtension, a.autoscalingGroup, a.opensipsPeer);
    PhasesChain(cfg, sw, a);
    DialCompletes(cfg, sw, a);
    assert !ph.recorded.1;
    assert ph.dialled.0 == ph.recorded.0 + dial;
    assert ph.dialled.0[|ph.recorded.0| + 1] == dial[1];
    SegmentMembers(ph.reacted.0, ph.dialled.0, BusyCommands(cfg.busyAudioFile), dial[1]);
    SegmentMembers(ph.teardown.trace, ph.reacted.0, TeardownCommands(ph.reacted.1, sw.status, EndEvent(sw, ph.state)), dial[1]);
  }

  /** A call without an extension is rejected and issues nothing. */
  lemma MissingExtensionRejected(cfg: Config, sw: Switch)
    requires "agi_arg_1" !in sw.env
    ensures Validate(sw.env).Err? && Lifecycle(cfg, sw).trace == []
  {
    assert !Given(sw.env, "agi_arg_1");
    LifecycleParts(cfg, sw);
  }

  /** The Dial string of an extension read as None. */
  lemma DialStringOfNone(peer: string)
    ensures "SIP/" + "None" + "@" + peer == "SIP/None@" + peer
  {
  }

  /** As written, with line 229 read as intended, a call without agi_arg_1
      fails the argument check and is not stopped: main goes on with the extension "None", posts the start event
      first and, when nothing raises up to the dial, dials SIP/None at the
      peer. `Lifecycle` ends the script at the check and issues nothing. */
  lemma RejectedCallContinuesAsWritten(cfg: Config, sw: Switch)
    requires "agi_dnid" in sw.env && "agi_arg_2" in sw.env && "agi_arg_1" !in sw.env
    ensures Validate(sw.env).Err? && Lifecycle(cfg, sw).trace == []
    ensures ArgsAfterExitAsWritten(sw.env).Some?
    ensures var a := ArgsAfterExitAsWritten(sw.env).value;
            var t := Body(cfg, sw, a).trace;
            && |t| > 0 && t[0] == Post(StartEvent(cfg, sw, a))
            && (NoFaultIn(sw.faults, 0, CommandsUpToDial) ==>
                  Exec("Dial", [Str("SIP/None@" + a.opensipsPeer), Int(DialTimeout)]) in t)
  {
    MissingExtensionRejected(cfg, sw);
    var a := ArgsAfterExitAsWritten(sw.env).value;
    assert a.jvxmlExtension == "None";
    BodyStartsWithStartEvent(cfg, sw, a);
    if NoFaultIn(sw.faults, 0, CommandsUpToDial) {
      BodyDials(cfg, sw, a);
      DialStringOfNone(a.opensipsPeer);
    }
  }
}

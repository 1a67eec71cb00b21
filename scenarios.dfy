/** Four calls of the script, each stated for every switch that matches the
    situation: an answered dial, a congested one, an unset DIALSTATUS, and a
    recording command that raises. */
module Scenarios {
  import opened Wrappers
  import opened Events
  import opened Agi
  import opened DialOutcome
  import opened CallOpensips
  import opened LifecycleProperties
  import opened FaultProperties
  import opened OutcomeProperties

  /** An answered dial: SUCCESS, no busy prompt, and the end event, sent
      last, reports SUCCESS. */
  lemma AnsweredCall(cfg: Config, sw: Switch)
    requires sw.faults == map[] && Validate(sw.env).Ok? && Variable(sw, "DIALSTATUS") == "ANSWER"
    ensures var r := Lifecycle(cfg, sw);
            && r.state == Success
            && r.outcome == Exited(ExitSuccess)
            && Answer !in r.trace
            && r.trace[|r.trace| - 1] == Post(CallEndPayload(Variable(sw, "SIPCALLID"), "SUCCESS", Variable(sw, "CDR(end)")))
  {
    FaultFreeCall(cfg, sw);
    BusyPromptRule(cfg, sw);
  }

  /** Without faults, a call classified other than SUCCESS streams the busy
      prompt. */
  lemma FaultFreeBusyPrompt(cfg: Config, sw: Switch, a: CallArgs)
    requires Classify(Variable(sw, "DIALSTATUS")) != Success
    ensures StreamFile(cfg.busyAudioFile) in FaultFreeTrace(cfg, sw, a)
  {
    var t := FaultFreeTrace(cfg, sw, a);
    var pre := PrologueCommands(cfg, sw, a) + RecordCommands(Variable(sw, "SIPCALLID"))
               + DialCommands(a.jvxmlExtension, a.autoscalingGroup, a.opensipsPeer);
    assert t[|pre| + 1] == StreamFile(cfg.busyAudioFile);
  }

  /** A congested dial: BUSY, the busy prompt is answered and streamed, and
      the channel is hung up exactly when its status says it is still up. */
  lemma CongestedCall(cfg: Config, sw: Switch)
    requires sw.faults == map[] && Validate(sw.env).Ok? && Variable(sw, "DIALSTATUS") == "CONGESTION"
    ensures var r := Lifecycle(cfg, sw);
            && r.state == Busy
            && r.outcome == Exited(ExitSuccess)
            && Answer in r.trace && StreamFile(cfg.busyAudioFile) in r.trace
            && (Hangup in r.trace <==> sw.status > 0)
  {
    FaultFreeCall(cfg, sw);
    BusyPromptRule(cfg, sw);
    HangupRule(cfg, sw);
    FaultFreeBusyPrompt(cfg, sw, Validate(sw.env).value);
  }

  /** DIALSTATUS never set: NOANSWER, and the busy prompt is played. */
  lemma UnsetDialStatus(cfg: Config, sw: Switch)
    requires sw.faults == map[] && Validate(sw.env).Ok? && "DIALSTATUS" !in sw.vars
    ensures var r := Lifecycle(cfg, sw);
            && r.state == NoAnswer && r.outcome == Exited(ExitSuccess)
            && Answer in r.trace && StreamFile(cfg.busyAudioFile) in r.trace
  {
    FaultFreeCall(cfg, sw);
    BusyPromptRule(cfg, sw);
    FaultFreeBusyPrompt(cfg, sw, Validate(sw.env).value);
  }

  /** The Monitor command raises: the flag is set before the dial, which is
      skipped with the busy prompt; the recording is still stopped and the end
      event still sent, reporting PREDIAL, and the channel is not hung up. */
  lemma RecordingFails(cfg: Config, sw: Switch)
    requires Validate(sw.env).Ok? && NoFaultIn(sw.faults, 0, 3) && 3 in sw.faults && NoFaultIn(sw.faults, 4, 6)
    ensures var r := Lifecycle(cfg, sw);
            var a := Validate(sw.env).value;
            && r.trace == PrologueCommands(cfg, sw, a)
                          + [Exec("Monitor", [Str("wav"), Str(Variable(sw, "SIPCALLID"))])]
                          + [StopMixMonitor, Post(EndEvent(sw, Predial))]
            && r.state == Predial
            && r.userHangup
            && r.outcome == Exited(ExitSuccess)
  {
    var a := Validate(sw.env).value;
    var ph := RunPhases(cfg, sw, a);
    var pro := PrologueCommands(cfg, sw, a);
    var rec := RecordCommands(Variable(sw, "SIPCALLID"));
    LifecycleParts(cfg, sw);
    assert ph.prologue == Issued(pro, None);
    assert ph.recorded == (pro + [rec[0]], true) by {
      assert !NoFaultIn(sw.faults, 3, 5);
      assert rec[..1] == [rec[0]];
    }
    assert ph.reacted == ph.dialled == ph.recorded;
    var td := TeardownCommands(true, sw.status, EndEvent(sw, Predial));
    assert td == [StopMixMonitor, Post(EndEvent(sw, Predial))];
    assert ph.teardown == Issued(pro + [rec[0]] + td, None) by {
      assert NoFaultIn(sw.faults, 4, 4 + |td|);
    }
  }
}

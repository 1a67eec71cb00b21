/** What one run of the script promises about hanging up, about a call in
    which nothing raises, and about a call whose arguments are rejected. */
module OutcomeProperties {
  import opened Wrappers
  import opened Events
  import opened Agi
  import opened Logging
  import opened DialOutcome
  import opened CallOpensips
  import opened LifecycleProperties

  /** Every Hangup in `t` comes straight after a StopMixMonitor. */
  ghost predicate HangupAfterStop(t: seq<Command>)
  {
    forall i :: 0 <= i < |t| && t[i] == Hangup ==> 0 < i && t[i - 1] == StopMixMonitor
  }

  /** Hangup is issued only by the teardown. */
  lemma HangupOnlyInTeardown(cfg: Config, sw: Switch, a: CallArgs)
    ensures var ph := RunPhases(cfg, sw, a);
            Hangup !in ph.prologue.trace && Hangup !in ph.reacted.0
  {
    var ph := RunPhases(cfg, sw, a);
    PhasesChain(cfg, sw, a);
    NotInChain(ph.prologue.trace, ph.recorded.0, ph.dialled.0, ph.reacted.0,
               PrologueCommands(cfg, sw, a), RecordCommands(Variable(sw, "SIPCALLID")),
               DialCommands(a.jvxmlExtension, a.autoscalingGroup, a.opensipsPeer), BusyCommands(cfg.busyAudioFile), Hangup);
  }

  /** The teardown hangs up only a channel that is still up and whose caller
      has not hung up, right after stopping the recording, and does so
      whenever it runs to completion under those conditions. */
  lemma TeardownHangup(faults: map<nat, Fault>, base: seq<Command>, userHangup: bool, status: int, end: Payload)
    requires Hangup !in base
    ensures var r := IssueAll(faults, base, TeardownCommands(userHangup, status, end));
            && (Hangup in r.trace ==> !userHangup && status > 0)
            && HangupAfterStop(r.trace)
            && (r.fault.None? && !userHangup && status > 0 ==> Hangup in r.trace)
  {
    var td := TeardownCommands(userHangup, status, end);
    var r := IssueAll(faults, base, td);
    SegmentMembers(r.trace, base, td, Hangup);
    forall i | 0 <= i < |r.trace| && r.trace[i] == Hangup
      ensures 0 < i && r.trace[i - 1] == StopMixMonitor
    {
      if i < |base| {
        assert false;
      } else {
        assert td[i - |base|] == Hangup;
        assert i - |base| == 1;
        assert r.trace[i - 1] == td[0];
      }
    }
    if r.fault.None? && !userHangup && status > 0 {
      assert r.trace[|base| + 1] == Hangup;
    }
  }

  /** The try block, seen from its teardown. */
  lemma BodyHangup(cfg: Config, sw: Switch, a: CallArgs)
    ensures var b := Body(cfg, sw, a);
            && (Hangup in b.trace ==> !b.userHangup && sw.status > 0)
            && HangupAfterStop(b.trace)
            && (b.fault.None? && !b.userHangup && sw.status > 0 ==> Hangup in b.trace)
  {
    var ph := RunPhases(cfg, sw, a);
    var b := Body(cfg, sw, a);
    HangupOnlyInTeardown(cfg, sw, a);
    if ph.prologue.fault.Some? {
      assert b.trace == ph.prologue.trace;
    } else {
      assert b.trace == ph.teardown.trace && b.userHangup == ph.reacted.1 && b.fault == ph.teardown.fault;
      TeardownHangup(sw.faults, ph.reacted.0, ph.reacted.1, sw.status, EndEvent(sw, ph.state));
    }
  }

  /** The channel is hung up only when its status is above 0 (not down) and
      no exception set user_hangup, always right after the recording is
      stopped; and a run that exits with SUCCESS under those conditions did
      hang it up. */
  lemma HangupRule(cfg: Config, sw: Switch)
    ensures var r := Lifecycle(cfg, sw);
            Hangup in r.trace ==> sw.status > 0 && !r.userHangup
    ensures HangupAfterStop(Lifecycle(cfg, sw).trace)
    ensures var r := Lifecycle(cfg, sw);
            r.outcome == Exited(ExitSuccess) && !r.userHangup && sw.status > 0 ==> Hangup in r.trace
  {
    LifecycleParts(cfg, sw);
    if Validate(sw.env).Ok? {
      BodyHangup(cfg, sw, Validate(sw.env).value);
    }
  }

  /** The commands of a call in which nothing raises. */
  function FaultFreeTrace(cfg: Config, sw: Switch, a: CallArgs): seq<Command>
  {
    var state := Classify(Variable(sw, "DIALSTATUS"));
    PrologueCommands(cfg, sw, a)
    + RecordCommands(Variable(sw, "SIPCALLID"))
    + DialCommands(a.jvxmlExtension, a.autoscalingGroup, a.opensipsPeer)
    + (if state != Success then BusyCommands(cfg.busyAudioFile) else [])
    + TeardownCommands(false, sw.status, EndEvent(sw, state))
  }

  /** With no faults, every command is issued and none raises. */
  lemma IssueAllWithoutFaults(faults: map<nat, Fault>, trace: seq<Command>, cmds: seq<Command>)
    requires faults == map[]
    ensures IssueAll(faults, trace, cmds) == Issued(trace + cmds, None)
  {
    assert NoFaultIn(faults, |trace|, |trace| + |cmds|);
  }

  lemma TryBlockWithoutFaults(faults: map<nat, Fault>, trace: seq<Command>, cmds: seq<Command>)
    requires faults == map[]
    ensures TryBlock(faults, trace, false, cmds) == (trace + cmds, false)
  {
    assert NoFaultIn(faults, |trace|, |trace| + |cmds|);
  }

  /** When no command raises, the try block issues every command of the
      script in order, playing the busy prompt only when the dial did not
      succeed, and keeps user_hangup false. */
  lemma FaultFreeBody(cfg: Config, sw: Switch, a: CallArgs)
    requires sw.faults == map[]
    ensures var b := Body(cfg, sw, a);
            && b.trace == FaultFreeTrace(cfg, sw, a)
            && b.fault == None
            && b.state == Classify(Variable(sw, "DIALSTATUS"))
            && !b.userHangup
  {
    var ph := RunPhases(cfg, sw, a);
    var pro := PrologueCommands(cfg, sw, a);
    var rec := RecordCommands(Variable(sw, "SIPCALLID"));
    var dial := DialCommands(a.jvxmlExtension, a.autoscalingGroup, a.opensipsPeer);
    var busy := BusyCommands(cfg.busyAudioFile);
    var state := Classify(Variable(sw, "DIALSTATUS"));
    IssueAllWithoutFaults(sw.faults, [], pro);
    assert [] + pro == pro;
    TryBlockWithoutFaults(sw.faults, pro, rec);
    TryBlockWithoutFaults(sw.faults, pro + rec, dial);
    assert ph.dialled == (pro + rec + dial, false) && ph.state == state;
    var reacted := pro + rec + dial + (if state != Success then busy else []);
    if state != Success {
      TryBlockWithoutFaults(sw.faults, pro + rec + dial, busy);
    } else {
      assert pro + rec + dial + [] == pro + rec + dial;
    }
    assert ph.reacted == (reacted, false);
    IssueAllWithoutFaults(sw.faults, reacted, TeardownCommands(false, sw.status, EndEvent(sw, state)));
  }

  /** A call in which nothing raises and whose arguments are valid exits with
      SUCCESS, is classified from DIALSTATUS, and issues exactly the commands
      of `FaultFreeTrace`. */
  lemma FaultFreeCall(cfg: Config, sw: Switch)
    ensures var r := Lifecycle(cfg, sw);
            sw.faults == map[] && Validate(sw.env).Ok? ==>
              && r.trace == FaultFreeTrace(cfg, sw, Validate(sw.env).value)
              && r.outcome == Exited(ExitSuccess)
              && r.state == Classify(Variable(sw, "DIALSTATUS"))
              && !r.userHangup
  {
    LifecycleParts(cfg, sw);
    if sw.faults == map[] && Validate(sw.env).Ok? {
      FaultFreeBody(cfg, sw, Validate(sw.env).value);
    }
  }

  /** The switch sees no command at all exactly when the arguments are
      rejected; the run then logs the reason as an ERROR after the
      constructor's line, ends with SCRIPT ENDED, and exits with FAILURE. */
  lemma RejectedCallIsSilent(cfg: Config, sw: Switch)
    ensures Lifecycle(cfg, sw).trace == [] <==> Validate(sw.env).Err?
    ensures var r := Lifecycle(cfg, sw);
            Validate(sw.env).Err? ==>
              && r.outcome == Exited(ExitFailure)
              && r.state == Predial
              && |r.logs| == 3
              && r.logs[0] == InitLine
              && r.logs[1].level == ERROR
              && r.logs[1].text == SessionPrefix(sw) + Validate(sw.env).error
              && r.logs[2].level == NOTICE
              && r.logs[2].text == SessionPrefix(sw) + ScriptEnded
  {
    LifecycleParts(cfg, sw);
    if Validate(sw.env).Ok? {
      var a := Validate(sw.env).value;
      var ph := RunPhases(cfg, sw, a);
      PhasesChain(cfg, sw, a);
      assert |ph.prologue.trace| > 0;
    }
  }
}

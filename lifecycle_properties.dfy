/** What one run of the script promises, stated over `Lifecycle`, the
    specification that `CallSession.Run` is proved to follow. */
module LifecycleProperties {
  import opened Wrappers
  import opened Events
  import opened Agi
  import opened Logging
  import opened DialOutcome
  import opened CallOpensips

  /** The payloads POSTed to the event-logging service, in order. */
  function Posts(trace: seq<Command>): seq<Payload>
  {
    if trace == [] then []
    else (if trace[0].Post? then [trace[0].payload] else []) + Posts(trace[1..])
  }

  lemma {:induction false} PostsAppend(a: seq<Command>, b: seq<Command>)
    ensures Posts(a + b) == Posts(a) + Posts(b)
    decreases |a|
  {
    if a == [] {
      assert a + b == b;
    } else {
      assert (a + b)[0] == a[0];
      assert (a + b)[1..] == a[1..] + b;
      PostsAppend(a[1..], b);
    }
  }

  lemma PostsOne(c: Command)
    ensures Posts([c]) == if c.Post? then [c.payload] else []
  {
    assert [c][1..] == [];
  }

  lemma PostsPair(c0: Command, c1: Command)
    ensures Posts([c0, c1]) == Posts([c0]) + Posts([c1])
  {
    assert [c0, c1] == [c0] + [c1];
    PostsAppend([c0], [c1]);
  }

  lemma PostsOfPrologue(cfg: Config, sw: Switch, a: CallArgs)
    ensures Posts(PrologueCommands(cfg, sw, a)) == [StartEvent(cfg, sw, a)]
  {
    var pro := PrologueCommands(cfg, sw, a);
    assert pro == [pro[0]] + [pro[1], pro[2]];
    PostsAppend([pro[0]], [pro[1], pro[2]]);
    PostsPair(pro[1], pro[2]);
    PostsOne(pro[0]); PostsOne(pro[1]); PostsOne(pro[2]);
  }

  lemma PostsOfAgiCommands(sw: Switch, a: CallArgs, busyAudioFile: string)
    ensures Posts(RecordCommands(Variable(sw, "SIPCALLID"))) == []
    ensures Posts(DialCommands(a.jvxmlExtension, a.autoscalingGroup, a.opensipsPeer)) == []
    ensures Posts(BusyCommands(busyAudioFile)) == []
  {
    var rec := RecordCommands(Variable(sw, "SIPCALLID"));
    PostsPair(rec[0], rec[1]);
    PostsOne(rec[0]); PostsOne(rec[1]);
    var dial := DialCommands(a.jvxmlExtension, a.autoscalingGroup, a.opensipsPeer);
    PostsPair(dial[0], dial[1]);
    PostsOne(dial[0]); PostsOne(dial[1]);
    PostsPair(Answer, StreamFile(busyAudioFile));
    PostsOne(Answer); PostsOne(StreamFile(busyAudioFile));
  }

  lemma PostsOfTeardown(userHangup: bool, status: int, end: Payload)
    ensures Posts(TeardownCommands(userHangup, status, end)) == [end]
  {
    var hang := HangupCommands(userHangup, status);
    PostsAppend([StopMixMonitor] + hang, [Post(end)]);
    PostsAppend([StopMixMonitor], hang);
    PostsOne(StopMixMonitor); PostsOne(Post(end));
    if hang != [] {
      PostsOne(hang[0]);
    }
  }

  /** `t` is `base` followed by the first few commands of `cmds`. */
  ghost predicate Extends(t: seq<Command>, base: seq<Command>, cmds: seq<Command>)
  {
    |base| <= |t| <= |base| + |cmds| && t == base + cmds[..|t| - |base|]
  }

  lemma SegmentPosts(t: seq<Command>, base: seq<Command>, cmds: seq<Command>)
    requires Extends(t, base, cmds)
    ensures Posts(t) == Posts(base) + Posts(cmds[..|t| - |base|])
    ensures Posts(cmds[..|t| - |base|]) <= Posts(cmds)
  {
    var k := |t| - |base|;
    assert cmds == cmds[..k] + cmds[k..];
    PostsAppend(base, cmds[..k]);
    PostsAppend(cmds[..k], cmds[k..]);
  }

  lemma SegmentWithoutPosts(t: seq<Command>, base: seq<Command>, cmds: seq<Command>)
    requires Extends(t, base, cmds) && Posts(cmds) == []
    ensures Posts(t) == Posts(base)
  {
    SegmentPosts(t, base, cmds);
  }

  lemma SegmentMembers(t: seq<Command>, base: seq<Command>, cmds: seq<Command>, x: Command)
    requires Extends(t, base, cmds)
    ensures x in t ==> x in base || x in cmds
    ensures x in base ==> x in t
  {
    var k := |t| - |base|;
    if x in t && x !in base {
      var i :| 0 <= i < |t| && t[i] == x;
      assert i >= |base|;
      assert cmds[i - |base|] == x;
    }
    if x in base {
      var i :| 0 <= i < |base| && base[i] == x;
      assert t[i] == x;
    }
  }

  lemma IssueAllExtends(faults: map<nat, Fault>, t: seq<Command>, cmds: seq<Command>)
    ensures Extends(IssueAll(faults, t, cmds).trace, t, cmds)
  {
  }

  lemma TryBlockExtends(faults: map<nat, Fault>, t: seq<Command>, userHangup: bool, cmds: seq<Command>)
    ensures Extends(TryBlock(faults, t, userHangup, cmds).0, t, cmds)
  {
  }

  lemma ExtendsByNothing(t: seq<Command>, cmds: seq<Command>)
    ensures Extends(t, t, cmds)
  {
    assert t + cmds[..0] == t;
  }

  /** A command that none of the first phases issues is not in their traces. */
  lemma NotInChain(t0: seq<Command>, t1: seq<Command>, t2: seq<Command>, t3: seq<Command>,
                   c0: seq<Command>, c1: seq<Command>, c2: seq<Command>, c3: seq<Command>, x: Command)
    requires Extends(t0, [], c0) && Extends(t1, t0, c1) && Extends(t2, t1, c2) && Extends(t3, t2, c3)
    requires x !in c0 && x !in c1 && x !in c2
    ensures x !in t0 && x !in t2
    ensures x !in c3 ==> x !in t3
  {
    SegmentMembers(t0, [], c0, x);
    SegmentMembers(t1, t0, c1, x);
    SegmentMembers(t2, t1, c2, x);
    SegmentMembers(t3, t2, c3, x);
  }

  /** The phases of the try block chain: each trace extends the one before it. */
  lemma PhasesChain(cfg: Config, sw: Switch, a: CallArgs)
    ensures var ph := RunPhases(cfg, sw, a);
            && Extends(ph.prologue.trace, [], PrologueCommands(cfg, sw, a))
            && Extends(ph.recorded.0, ph.prologue.trace, RecordCommands(Variable(sw, "SIPCALLID")))
            && Extends(ph.dialled.0, ph.recorded.0, DialCommands(a.jvxmlExtension, a.autoscalingGroup, a.opensipsPeer))
            && Extends(ph.reacted.0, ph.dialled.0, BusyCommands(cfg.busyAudioFile))
            && Extends(ph.teardown.trace, ph.reacted.0, TeardownCommands(ph.reacted.1, sw.status, EndEvent(sw, ph.state)))
  {
    var ph := RunPhases(cfg, sw, a);
    IssueAllExtends(sw.faults, [], PrologueCommands(cfg, sw, a));
    TryBlockExtends(sw.faults, ph.prologue.trace, false, RecordCommands(Variable(sw, "SIPCALLID")));
    TryBlockExtends(sw.faults, ph.recorded.0, ph.recorded.1,
                    DialCommands(a.jvxmlExtension, a.autoscalingGroup, a.opensipsPeer));
    if !ph.dialled.1 && ph.state != Success {
      TryBlockExtends(sw.faults, ph.dialled.0, ph.dialled.1, BusyCommands(cfg.busyAudioFile));
    } else {
      ExtendsByNothing(ph.dialled.0, BusyCommands(cfg.busyAudioFile));
    }
    IssueAllExtends(sw.faults, ph.reacted.0, TeardownCommands(ph.reacted.1, sw.status, EndEvent(sw, ph.state)));
  }

  /** Up to the teardown only the start event is sent, and it is sent first. */
  lemma PostsBeforeTeardown(cfg: Config, sw: Switch, a: CallArgs)
    ensures var ph := RunPhases(cfg, sw, a);
            && Posts(ph.prologue.trace) <= [StartEvent(cfg, sw, a)]
            && (ph.prologue.fault.None? ==> Posts(ph.reacted.0) == [StartEvent(cfg, sw, a)])
            && (ph.prologue.fault.None? ==> |ph.reacted.0| > 0 && ph.reacted.0[0] == Post(StartEvent(cfg, sw, a)))
  {
    var ph := RunPhases(cfg, sw, a);
    PhasesChain(cfg, sw, a);
    PostsOfPrologue(cfg, sw, a);
    PostsOfAgiCommands(sw, a, cfg.busyAudioFile);
    SegmentPosts(ph.prologue.trace, [], PrologueCommands(cfg, sw, a));
    assert Posts([]) == [];
    if ph.prologue.fault.None? {
      assert ph.prologue.trace == PrologueCommands(cfg, sw, a);
      SegmentWithoutPosts(ph.recorded.0, ph.prologue.trace, RecordCommands(Variable(sw, "SIPCALLID")));
      SegmentWithoutPosts(ph.dialled.0, ph.recorded.0, DialCommands(a.jvxmlExtension, a.autoscalingGroup, a.opensipsPeer));
      SegmentWithoutPosts(ph.reacted.0, ph.dialled.0, BusyCommands(cfg.busyAudioFile));
      assert ph.reacted.0[0] == ph.dialled.0[0] == ph.recorded.0[0] == ph.prologue.trace[0];
    }
  }

  /** Issuing a command list that posts one payload, as its last command,
      posts at most that payload, and posts it last when nothing raised. */
  lemma IssuedLastPost(faults: map<nat, Fault>, base: seq<Command>, cmds: seq<Command>, p: Payload)
    requires Posts(cmds) == [p] && |cmds| > 0 && cmds[|cmds| - 1] == Post(p)
    ensures var i := IssueAll(faults, base, cmds);
            && Posts(base) <= Posts(i.trace) <= Posts(base) + [p]
            && (i.fault.None? ==> Posts(i.trace) == Posts(base) + [p] && i.trace[|i.trace| - 1] == Post(p))
  {
    var i := IssueAll(faults, base, cmds);
    SegmentPosts(i.trace, base, cmds);
    if i.fault.None? {
      assert cmds[..|cmds|] == cmds;
    }
  }

  /** The teardown sends the end event, last, unless one of its commands raised. */
  lemma PostsOfTeardownPhase(cfg: Config, sw: Switch, a: CallArgs)
    ensures var ph := RunPhases(cfg, sw, a);
            var end := EndEvent(sw, ph.state);
            && ph.reacted.0 <= ph.teardown.trace
            && Posts(ph.reacted.0) <= Posts(ph.teardown.trace) <= Posts(ph.reacted.0) + [end]
            && (ph.teardown.fault.None? ==>
                  && Posts(ph.teardown.trace) == Posts(ph.reacted.0) + [end]
                  && ph.teardown.trace[|ph.teardown.trace| - 1] == Post(end))
  {
    var ph := RunPhases(cfg, sw, a);
    var end := EndEvent(sw, ph.state);
    var td := TeardownCommands(ph.reacted.1, sw.status, end);
    PostsOfTeardown(ph.reacted.1, sw.status, end);
    IssuedLastPost(sw.faults, ph.reacted.0, td, end);
  }

  /** What `Lifecycle` takes from the try block when the arguments are valid,
      and what it does when they are not. */
  lemma LifecycleParts(cfg: Config, sw: Switch)
    ensures var r := Lifecycle(cfg, sw);
            Validate(sw.env).Err? ==> r.trace == [] && r.outcome == Exited(ExitFailure) && r.state == Predial
    ensures var r := Lifecycle(cfg, sw);
            Validate(sw.env).Ok? ==>
              var b := Body(cfg, sw, Validate(sw.env).value);
              r.trace == b.trace && r.state == b.state && r.userHangup == b.userHangup && r.outcome == OutcomeOf(b.fault)
  {
  }

  /** A trace whose prefix `pre` posts only `s`, first, and which then posts
      `e`, last, posts exactly `s` then `e`. */
  lemma BracketedTrace(pre: seq<Command>, t: seq<Command>, s: Payload, e: Payload)
    requires Posts(pre) == [s] && |pre| > 0 && pre[0] == Post(s) && pre <= t
    requires Posts(t) == Posts(pre) + [e] && |t| > 0 && t[|t| - 1] == Post(e)
    ensures Posts(t) == [s, e] && t[0] == Post(s) && t[|t| - 1] == Post(e)
  {
  }

  /** A trace that posts `s`, then at most `e`, posts a prefix of `[s, e]`. */
  lemma PostsBetween(pre: seq<Command>, t: seq<Command>, s: Payload, e: Payload)
    requires Posts(pre) == [s] && Posts(pre) <= Posts(t) <= Posts(pre) + [e]
    ensures Posts(t) <= [s, e]
  {
  }

  /** The events of the try block: at most the start event, then the end event. */
  lemma BodyEvents(cfg: Config, sw: Switch, a: CallArgs)
    ensures var b := Body(cfg, sw, a);
            Posts(b.trace) <= [StartEvent(cfg, sw, a), EndEvent(sw, b.state)]
  {
    var ph := RunPhases(cfg, sw, a);
    var b := Body(cfg, sw, a);
    var start, end := StartEvent(cfg, sw, a), EndEvent(sw, b.state);
    PostsBeforeTeardown(cfg, sw, a);
    if ph.prologue.fault.None? {
      PostsOfTeardownPhase(cfg, sw, a);
      assert b.trace == ph.teardown.trace && b.state == ph.state;
      PostsBetween(ph.reacted.0, b.trace, start, end);
    } else {
      assert b.trace == ph.prologue.trace;
      assert [start] <= [start, end];
    }
  }

  /** When the try block raised nothing, it sent the start event first and the
      end event last, and no other. */
  lemma BodyEventsComplete(cfg: Config, sw: Switch, a: CallArgs)
    ensures var b := Body(cfg, sw, a);
            b.fault.None? ==>
              && Posts(b.trace) == [StartEvent(cfg, sw, a), EndEvent(sw, b.state)]
              && b.trace[0] == Post(StartEvent(cfg, sw, a))
              && b.trace[|b.trace| - 1] == Post(EndEvent(sw, b.state))
  {
    var ph := RunPhases(cfg, sw, a);
    if ph.prologue.fault.None? && ph.teardown.fault.None? {
      PostsBeforeTeardown(cfg, sw, a);
      PostsOfTeardownPhase(cfg, sw, a);
      var b := Body(cfg, sw, a);
      assert b.trace == ph.teardown.trace && b.state == ph.state;
      BracketedTrace(ph.reacted.0, b.trace, StartEvent(cfg, sw, a), EndEvent(sw, b.state));
    }
  }

  /** Neither event is sent when the arguments are rejected; otherwise the
      start event comes first, the end event last, and each at most once.
      A run that ends with exit status SUCCESS sent exactly one of each, and
      the end event carries the final transfer state. */
  lemma EventsBracketCall(cfg: Config, sw: Switch)
    ensures Validate(sw.env).Err? ==> Posts(Lifecycle(cfg, sw).trace) == []
    ensures Validate(sw.env).Ok? ==>
              Posts(Lifecycle(cfg, sw).trace)
              <= [StartEvent(cfg, sw, Validate(sw.env).value), EndEvent(sw, Lifecycle(cfg, sw).state)]
    ensures var r := Lifecycle(cfg, sw);
            r.outcome == Exited(ExitSuccess) ==>
              && Validate(sw.env).Ok?
              && Posts(r.trace) == [StartEvent(cfg, sw, Validate(sw.env).value), EndEvent(sw, r.state)]
              && r.trace[0] == Post(StartEvent(cfg, sw, Validate(sw.env).value))
              && r.trace[|r.trace| - 1] == Post(EndEvent(sw, r.state))
  {
    LifecycleParts(cfg, sw);
    if Validate(sw.env).Ok? {
      BodyEvents(cfg, sw, Validate(sw.env).value);
      BodyEventsComplete(cfg, sw, Validate(sw.env).value);
    } else {
      assert Posts([]) == [];
    }
  }

  /** The busy block runs, and answers first, exactly when the dial was
      classified into a state other than SUCCESS. */
  lemma BusyAttempt(cfg: Config, sw: Switch, a: CallArgs)
    ensures var ph := RunPhases(cfg, sw, a);
            && (ph.state != Predial && ph.state != Success ==> Answer in ph.reacted.0)
            && (ph.state == Predial || ph.state == Success ==> ph.reacted == ph.dialled)
  {
    var ph := RunPhases(cfg, sw, a);
    if ph.state != Predial && ph.state != Success {
      assert !ph.dialled.1;
      assert ph.reacted.0[|ph.dialled.0|] == Answer;
    }
  }

  /** Answer is issued only by the busy block. */
  lemma AnswerOnlyInBusyBlock(cfg: Config, sw: Switch, a: CallArgs)
    ensures var ph := RunPhases(cfg, sw, a);
            && Answer !in ph.prologue.trace && Answer !in ph.dialled.0
            && (Answer in ph.teardown.trace <==> Answer in ph.reacted.0)
  {
    var ph := RunPhases(cfg, sw, a);
    PhasesChain(cfg, sw, a);
    var td := TeardownCommands(ph.reacted.1, sw.status, EndEvent(sw, ph.state));
    NotInChain(ph.prologue.trace, ph.recorded.0, ph.dialled.0, ph.reacted.0,
               PrologueCommands(cfg, sw, a), RecordCommands(Variable(sw, "SIPCALLID")),
               DialCommands(a.jvxmlExtension, a.autoscalingGroup, a.opensipsPeer), BusyCommands(cfg.busyAudioFile), Answer);
    assert Answer !in td;
    SegmentMembers(ph.teardown.trace, ph.reacted.0, td, Answer);
  }

  /** The try block answers the channel exactly when it classified the dial
      into a state other than SUCCESS. */
  lemma BodyBusyPrompt(cfg: Config, sw: Switch, a: CallArgs)
    ensures var b := Body(cfg, sw, a);
            Answer in b.trace <==> b.state != Predial && b.state != Success
  {
    var ph := RunPhases(cfg, sw, a);
    var b := Body(cfg, sw, a);
    AnswerOnlyInBusyBlock(cfg, sw, a);
    BusyAttempt(cfg, sw, a);
    if ph.prologue.fault.Some? {
      assert b.trace == ph.prologue.trace && b.state == Predial;
    } else {
      assert b.trace == ph.teardown.trace && b.state == ph.state;
    }
  }

  /** The busy prompt is attempted exactly when the dial was classified into a
      state other than SUCCESS: answering the channel happens then and only
      then. */
  lemma BusyPromptRule(cfg: Config, sw: Switch)
    ensures var r := Lifecycle(cfg, sw);
            Answer in r.trace <==> r.state != Predial && r.state != Success
  {
    LifecycleParts(cfg, sw);
    if Validate(sw.env).Ok? {
      BodyBusyPrompt(cfg, sw, Validate(sw.env).value);
    }
  }
}

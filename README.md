# call_opensips: a Dafny model of the per-call AGI controller

`agi/call_opensips.py` is an Asterisk AGI script. Asterisk starts one instance of it per incoming call. The script:

1. checks its arguments;
2. reports an `ASTERISK_CALL_START` event to the event-logging service;
3. sets the CALLERID variables that JVoiceXML reads;
4. starts per-leg and mixed recording;
5. dials the JVoiceXML extension through an OpenSIPS peer;
6. classifies `DIALSTATUS` into a transfer state and plays a busy prompt when the dial did not succeed;
7. stops the recording, hangs the channel up if it is still up, and reports an `ASTERISK_CALL_END` event.

Every line it logs goes to the Asterisk log. Every line after the logger's first is prefixed with the SIP call id and the use-case name.

This project models that controller and proves what it promises.

- **Agi** (`agi.dfy`): the AGI connection as a command channel.
  - Every effect is appended to a trace of `Command`s. Effects are AGI commands and event POSTs.
  - A failure oracle in the `Switch` says which command raises, by trace position. A raising command is still recorded.
  - `IssueAll` is a run of uncaught statements.
  - `TryBlock` is the `if not user_hangup: try: ... except Exception: user_hangup = True` shape of `record`, `dial` and `play_busy`.
  - `Channel` is a class holding the trace and the log lines.
- **Events** (`events.dfy`): the payload dictionaries of the two events, and how a reader decodes them.
- **DialOutcome** (`dial_outcome.dfy`): the transfer states, their names, and the `DIALSTATUS` classification.
- **Logging** (`logging.dfy`): `loggerClass`, as a `Logger` class over the channel. Its prefix and join formatting are pure functions.
- **CallOpensips** (`call_opensips.dfy`):
  - `record`, `dial`, `play_busy` and `hangup` as methods on the channel;
  - `main` as the `CallSession` class, whose `Run` method is proved equal to the pure specification `Lifecycle`.
  - `Lifecycle` is built from `RunPhases`, the intermediate trace and flag after each step of the try block.
- **LifecycleProperties**, **FaultProperties**, **OutcomeProperties** and **Scenarios**: lemmas about `Lifecycle`. They cover events, the sticky flag, the PREDIAL state, the teardown, hanging up, fault-free calls, rejected calls, and four sample calls.

## Model

| member | source | states |
|---|---|---|
| Events.CallStartPayload | agi/call_opensips.py:70-85 | the start payload has exactly the keys api_version, event_type, call_id, recording, server_ip, extension and start_time; api_version is 1 and event_type is ASTERISK_CALL_START |
| Events.CallEndPayload | agi/call_opensips.py:88-100 | the end payload has exactly the keys api_version, event_type, call_id, transfer_state_name and end_time; api_version is 1 and event_type is ASTERISK_CALL_END |
| Events.CallStartRoundTrip | agi/call_opensips.py:74-82 | a start payload decodes back to the fields it was built from, and never decodes as an end event |
| Events.CallEndRoundTrip | agi/call_opensips.py:89-97 | an end payload decodes back to the fields it was built from, and never decodes as a start event |
| DialOutcome.Classify | agi/call_opensips.py:309-336 | the if/elif chain agrees with the dial outcome table (CONGESTION gives BUSY, every listed status gives its own state); any other or unset status gives NOANSWER; the result is never PREDIAL; it is SUCCESS exactly for ANSWER |
| DialOutcome.StateNameRoundTrip | agi/call_opensips.py:312-335 | every transfer state name reported in the end event parses back to that state, so distinct states are reported under distinct names |
| Logging.JoinSplitRoundTrip | agi/call_opensips.py:182-183 | joining a list message with single spaces loses nothing: splitting the joined text on spaces returns the list, for a non-empty list none of whose fragments contains a space (an empty list joins to the empty string, which splits to one empty fragment) |
| Logging.PrefixIdentifiesCall | agi/call_opensips.py:162-165 | the caller id and use-case name can be read back from every line that starts with the prefix (CALLERID(name: then the id, a bar, the use case and a closing parenthesis), when the id holds no bar and the name no closing parenthesis |
| Logging.FormatLine | agi/call_opensips.py:176-188 | every line starts with the prefix; a string is logged after it at the requested level; a list is joined with single spaces first; any other shape is logged at ERROR |
| Logging.FallbackLineNeverWritten | agi/call_opensips.py:186-188 | as written, a message that is neither a string nor a list raises instead of being logged; the corrected line is at ERROR; the two agree on strings and lists |
| Logging.Logger.constructor | agi/call_opensips.py:158-165 | logs `loggerClass __init__` at NOTICE; the prefix is built from SIPCALLID and agi_arg_2, which defaults to empty |
| Logging.Logger.Log | agi/call_opensips.py:176-188 | appends exactly the line `FormatLine` gives for the level and message to the Asterisk log |
| Logging.Logger.Info | agi/call_opensips.py:167-168 | logs the message at NOTICE |
| Logging.Logger.Warn | agi/call_opensips.py:170-171 | logs the message at WARNING |
| Logging.Logger.Error | agi/call_opensips.py:173-174 | logs the message at ERROR |
| Agi.IssueAll | agi/call_opensips.py:289-294 | consecutive uncaught commands: the trace grows by a prefix of the commands; no command raised exactly when nothing raised at their positions; otherwise the last issued command is the first one that raised, and it is the fault returned |
| Agi.IssueAllAppend | agi/call_opensips.py:339-346 | issuing two command lists one after the other is issuing the first list, then the second only if the first raised nothing |
| Agi.TryBlock | agi/call_opensips.py:103-140 | with the flag set, nothing is issued and the flag stays set; otherwise the new flag is set exactly when a command raised, all commands are issued when none did, and a raising command is the last one issued |
| CallOpensips.Validate | agi/call_opensips.py:256-272 | arguments are accepted exactly when agi_dnid, agi_arg_1 and agi_arg_2 are present and non-empty; a missing called number is reported first, then missing extension or use case; the group defaults to `autoscale` and the peer to `OPENSIPS` |
| CallOpensips.Extension | agi/call_opensips.py:285 | the start event's extension is the first min(4, length) characters of the called number |
| CallOpensips.Record | agi/call_opensips.py:132-140 | record issues `Monitor wav <call id>`, then `MixMonitor <call id>.wav`, as a guarded try block |
| CallOpensips.Dial | agi/call_opensips.py:114-129 | dial issues `SIPAddHeader X-Autoscaling-Group:<group>`, then `Dial SIP/<ext>@<peer>` with timeout 15, as a guarded try block |
| CallOpensips.PlayBusy | agi/call_opensips.py:103-111 | play_busy answers, then streams the busy prompt, as a guarded try block |
| CallOpensips.HangupCall | agi/call_opensips.py:143-148 | hangup issues Hangup only when the flag is clear and the channel status is above 0; a raising hang-up is passed on |
| CallOpensips.HangupNeverIssuedAsWritten | agi/call_opensips.py:192-195 | as written, hangup raises whenever the flag is clear and never sends a hang-up; the corrected rule hangs up every channel whose status is above 0 |
| CallOpensips.SendStart | agi/call_opensips.py:284-294 | sends the start event, then sets CALLERID(name) to the call id and use case joined by a bar and CALLERID(num) to the called number, stopping at the first raising command |
| CallOpensips.FinishCall | agi/call_opensips.py:339-346 | issues StopMixMonitor, the hang-up rule, then the end event with the current transfer state, stopping at the first raising command |
| CallOpensips.CallSession.constructor | agi/call_opensips.py:242-253 | the session starts with an empty trace, only the logger's first line in the log, the flag clear and the state PREDIAL |
| CallOpensips.CallSession.Run | agi/call_opensips.py:242-358 | the trace, log lines, final transfer state, flag and outcome of main are exactly those of `Lifecycle` |
| CallOpensips.CallSession.Handle | agi/call_opensips.py:348-358 | no fault exits with SUCCESS; a remote hang-up logs HUNGUP OCCURRED and exits cleanly; an application error is re-raised; any other fault logs the stack trace header at ERROR and exits with FAILURE |
| CallOpensips.CallSession.RunBody | agi/call_opensips.py:284-347 | the try block after the argument checks; DIALSTATUS is classified, and the busy prompt attempted, only while the flag is clear |
| FaultProperties.TryBlockFaultOnlyLast | agi/call_opensips.py:103-140 | a guarded try block keeps the invariant that the flag is set exactly when the last issued command raised, and no earlier one did |
| FaultProperties.StickyAfterFault | agi/call_opensips.py:297-346 | once any command raised, the only later commands are StopMixMonitor and the end event: no dial, busy prompt or hang-up follows |
| FaultProperties.PredialRule | agi/call_opensips.py:253-336 | the call is reported as PREDIAL exactly when the arguments were rejected or one of the first seven commands raised (prologue, recording, dial); otherwise its state is the classification of DIALSTATUS |
| FaultProperties.TeardownReached | agi/call_opensips.py:339-340 | the recording is stopped exactly when the arguments were accepted and the start event and CALLERID variables raised nothing, whatever record, dial and play_busy did |
| OutcomeProperties.HangupRule | agi/call_opensips.py:143-148 | Hangup is issued only when the channel status is above 0 and the flag is clear, always right after StopMixMonitor; a run that exits with SUCCESS under those conditions did hang up |
| OutcomeProperties.FaultFreeCall | agi/call_opensips.py:284-347 | with valid arguments and no faults, the run issues every command of the script in order, plays the busy prompt only if DIALSTATUS is not ANSWER, and exits with SUCCESS |
| OutcomeProperties.RejectedCallIsSilent | agi/call_opensips.py:266-272 | the switch sees no command exactly when the arguments are rejected; such a run logs the reason at ERROR, then SCRIPT ENDED, and exits with FAILURE |
| LifecycleProperties.EventsBracketCall | agi/call_opensips.py:289-346 | a rejected call sends no event; otherwise at most the start event, then the end event with the final state; a run that exits with SUCCESS sent both, start first and end last |
| FaultProperties.TeardownFaultSkipsEndEvent | agi/call_opensips.py:338-346 | the teardown is not guarded: when an answered call's StopMixMonitor raises, the start event is the only event sent, StopMixMonitor is the last command, and the handler of that fault decides the outcome |
| FaultProperties.ArgsAfterExitAsWritten | agi/call_opensips.py:227-237 | as written, with line 229 read as intended, `_exit` returns; the arguments main then goes on with, present exactly when the called number and use-case name are, with a missing extension read as None; they agree with the checked arguments whenever the check passes |
| FaultProperties.RejectedCallContinuesAsWritten | agi/call_opensips.py:266-300 | as written, with line 229 read as intended, a call without agi_arg_1 is rejected yet goes on: it posts the start event first and, when nothing raises up to the dial, dials SIP/None at the peer, where the model of the intended script issues nothing |
| LifecycleProperties.BusyPromptRule | agi/call_opensips.py:309-336 | the channel is answered for the busy prompt exactly when the dial was classified into a state other than SUCCESS |
| Scenarios.AnsweredCall | agi/call_opensips.py:332-333 | an answered dial with no faults ends in SUCCESS, plays no busy prompt, and its last command posts an end event naming SUCCESS |
| Scenarios.CongestedCall | agi/call_opensips.py:329-331 | a congested dial with no faults ends in BUSY, answers and streams the busy prompt, and hangs up exactly when the channel is still up |
| Scenarios.UnsetDialStatus | agi/call_opensips.py:334-336 | an unset DIALSTATUS with no faults ends in NOANSWER and plays the busy prompt: the channel is answered and the busy file streamed |
| Scenarios.RecordingFails | agi/call_opensips.py:132-140 | when Monitor raises, dial and busy prompt are skipped, no hang-up is sent, and the recording is still stopped and an end event naming PREDIAL still sent |

## Left out

- HTTP transmission and JSON serialisation of the events (`requests.post`, `json.dumps`) are not modelled. A POST is one `Post(payload)` command in the trace, and the payload is the field map.
- Events: a raising POST follows the code. The exception is not caught near the call and reaches the handlers of main.
- Events: the end event is not always sent once the call has been set up. Any uncaught fault in the teardown skips it: a StopMixMonitor or hang-up that raises (AGIHangup after the caller has left, say) ends the try block before line 346. `FaultProperties.TeardownFaultSkipsEndEvent` shows this for an answered call. `LifecycleProperties.EventsBracketCall` therefore promises at most one start and one end event, and both only for a run that exits with SUCCESS.
- Loading the configuration file and `ASTERISK_SERVER_IP` are not modelled. The server address and the busy prompt path are the parameters of `Config`.
- The asterisk.agi library is not part of this model:
  - `get_variable` and `channel_status` are queries that never raise, over constant `Switch` values, and an unset variable reads as the empty string.
  - `set_variable` does not change what later reads return.
  - LOG commands never raise and never count as trace positions.
  - The failure oracle lets any command raise any fault, a `Post` included. `requests.post` raises neither AGIHangup nor AGIAppError, so `OutcomeOf` can reach `HungUp` or `Reraised` through a POST, which the script cannot. The safety properties hold for every oracle, so this only widens what they cover.
- `exitHangup`, `exitSuccess` and `exitFailure` are modelled as the exit status in `Outcome`, and the model ends the script at `exitFailure` and `exitSuccess`. With line 229 read as intended, `_exit` returns instead: line 232 calls `set` on the agi_* environment, which is a dict, and line 235 swallows the AttributeError before `agi.hangup()` and `sys.exit(0)` run. So a rejected call carries on; this is the third row under Findings. Read literally, line 229 raises UnboundLocalError before that `try`, so `_exit` raises instead and the run ends in the crash described below, having issued no command. `_exit`'s own SCRIPT ENDED line and the AGISTATUS marker are not modelled. `exitHangup` is never called by the script.
- The stack trace text from `traceback.format_exc()` is reduced to the header word `python stack trace: `.
- The informational log lines of main (lines 275-282) and the status-to-text log lines of `channel_status` (lines 196-213) are not modelled. Only the status `channel_status` returns matters.
- Logging.Logger.Log: the reset of `callerid` and `use_case_name` to the empty string at lines 177-180 is not modelled. It has no effect on the output, because the prefix was already built in the constructor. The fields are constants.
- Logging.Logger.constructor: an unset SIPCALLID reads as the empty string, so the TypeError that `'CALLERID(name:' + None` would raise is not modelled.
- Undefined names in the source are modelled by their evidently intended behaviour:
  - `logger = logger(agi)` in `channel_status` and `_exit`;
  - `AGIHangup` and `AGIAppError` in main's handlers, never imported;
  - the string concatenation at line 187.
  The concatenation at line 187 is latent: every logger call in the script passes a string or a list, so the fallback branch is never reached. It is the first row under Findings. The names that do change what the controller does are these:
  - `logger` in `channel_status`, which stops every hang-up. It is the second row under Findings.
  - `AGIHangup` at line 348. Evaluating it raises NameError, so any exception that reaches main's handlers ends the run in NameError after the `finally` logs SCRIPT ENDED. HUNGUP OCCURRED (349), the stack-trace line (355) and `exitFailure` (356) never run.
  - `logger` in `_exit`. Read literally, it makes `exitSuccess` at 347 raise too. So as written every run that gets that far ends in an uncaught NameError after SCRIPT ENDED.
  `CallSession.Handle`, `HandlerLines` and `OutcomeOf` therefore model only the intended handlers.
- The mixed tab and space indentation of `hangup` and `loggerClass` is read as the nesting it evidently intends.

## Findings

| source | as written | input that shows it | evidently intended | confidence | as-written member | corrected member |
|---|---|---|---|---|---|---|
| agi/call_opensips.py:186-188 | `msg = self.msgPrefix + msg` concatenates a non-string onto a string and raises TypeError, so the fallback `UNKNOWN ERROR` line is never logged; latent, since every call site in the script passes a string or a list | `logger.info(42)` | log the message at ERROR with the `UNKNOWN ERROR in: ` marker and the script's file name, never raising | not executed | Logging.FallbackLineNeverWritten | Logging.FormatLine |
| agi/call_opensips.py:192-195 | `channel_status` assigns a local named `logger`, so `logger(agi)` raises UnboundLocalError and `hangup` never reaches `agi.hangup()` | any call whose flag is clear at teardown, e.g. an answered call with channel status 6 | hang up whenever the flag is clear and the status is above 0 | not executed | CallOpensips.HangupNeverIssuedAsWritten | OutcomeProperties.HangupRule |
| agi/call_opensips.py:227-237 | with the `logger` name at line 229 read as intended, `_exit` calls `agi.env.set`, but `agi.env` is a dict, so the AttributeError is swallowed at line 235 before `agi.hangup()` and `sys.exit(0)`, and a rejected call is not stopped | an environment with agi_dnid and agi_arg_2 but no agi_arg_1: the start event is posted and `Dial SIP/None@OPENSIPS` issued | end the script at the failed check, issuing nothing | not executed | FaultProperties.RejectedCallContinuesAsWritten | OutcomeProperties.RejectedCallIsSilent |

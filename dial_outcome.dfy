/** The transfer state of a call and the classification of Asterisk's
    DIALSTATUS into it (agi/call_opensips.py:253, 306-336). */
module DialOutcome {
  import opened Wrappers

  /** `Predial` is the value before the dial is classified; the others are
      the terminal states reported in the end event. */
  datatype TransferState =
    | Predial | NoAnswer | ChanUnavail | DontCall | Torture | InvalidArgs | Cancel | Busy | Success

  /** The string the source stores in transfer_state and reports as
      transfer_state_name. */
  function StateName(s: TransferState): string
  {
    match s
    case Predial => "PREDIAL"
    case NoAnswer => "NOANSWER"
    case ChanUnavail => "CHANUNAVAIL"
    case DontCall => "DONTCALL"
    case Torture => "TORTURE"
    case InvalidArgs => "INVALIDARGS"
    case Cancel => "CANCEL"
    case Busy => "BUSY"
    case Success => "SUCCESS"
  }

  /** How a reader of the end event turns transfer_state_name back into a state. */
  function ParseStateName(name: string): Option<TransferState>
  {
    if name == "PREDIAL" then Some(Predial)
    else if name == "NOANSWER" then Some(NoAnswer)
    else if name == "CHANUNAVAIL" then Some(ChanUnavail)
    else if name == "DONTCALL" then Some(DontCall)
    else if name == "TORTURE" then Some(Torture)
    else if name == "INVALIDARGS" then Some(InvalidArgs)
    else if name == "CANCEL" then Some(Cancel)
    else if name == "BUSY" then Some(Busy)
    else if name == "SUCCESS" then Some(Success)
    else None
  }

  /** Distinct states are reported under distinct names. */
  lemma StateNameRoundTrip(s: TransferState)
    ensures ParseStateName(StateName(s)) == Some(s)
  {
  }

  /** The dial outcome table: DIALSTATUS value to transfer state. */
  const DialOutcomeTable: map<string, TransferState> :=
    map["ANSWER" := Success, "NOANSWER" := NoAnswer, "CHANUNAVAIL" := ChanUnavail,
        "DONTCALL" := DontCall, "TORTURE" := Torture, "INVALIDARGS" := InvalidArgs,
        "CANCEL" := Cancel, "CONGESTION" := Busy]

  /** The if/elif chain of main over dial_status. */
  function Classify(dialStatus: string): (r: TransferState)
    ensures r == (if dialStatus in DialOutcomeTable then DialOutcomeTable[dialStatus] else NoAnswer)
    ensures r != Predial
    ensures r == Success <==> dialStatus == "ANSWER"
  {
    if dialStatus == "NOANSWER" then NoAnswer
    else if dialStatus == "CHANUNAVAIL" then ChanUnavail
    else if dialStatus == "DONTCALL" then DontCall
    else if dialStatus == "TORTURE" then Torture
    else if dialStatus == "INVALIDARGS" then InvalidArgs
    else if dialStatus == "CANCEL" then Cancel
    else if dialStatus == "CONGESTION" then Busy
    else if dialStatus == "ANSWER" then Success
    else NoAnswer
  }
}

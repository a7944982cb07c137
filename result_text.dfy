/**
 * The final user-facing message of a run, shared by app/fixed_graph.py
 * (`generate_result`) and app/graph.py (`final_message_node`): a success
 * framing that reports the attempt count, or a failure framing that reports
 * the attempt budget, followed by the recommendation. The two files differ
 * only in the symbol after the headline, so that is a parameter.
 */
module ResultText {
  import opened Wrappers
  import opened Text

  /** The symbols printed after the success and the failure headline. */
  datatype Marks = Marks(success: string, failure: string)

  /** What a composed message says: which framing, the number it reports, and the recommendation. */
  datatype Outcome = Outcome(satisfied: bool, count: int, recommendation: string)

  const SuccessLead := "Perfect outfit found after "
  // (long literals are written as concatenations so that the verifier can see their characters)
  const FailureLead := "Sorry, we " + "couldn't find the perfect outfit after "

  function SuccessTail(marks: Marks): string {
    " attempt(s)! " + marks.success + "\n\nFinal Recommendation:\n"
  }

  function FailureTail(marks: Marks): string {
    " attempts. " + marks.failure + "\n\nLast Recommendation:\n"
  }

  /** The message for a run that ended satisfied (reporting `count` attempts) or not (reporting the budget `count`). */
  function Compose(satisfied: bool, count: int, recommendation: string, marks: Marks): (msg: string)
    ensures |recommendation| <= |msg| && msg[|msg| - |recommendation|..] == recommendation
    ensures satisfied ==> SuccessLead <= msg
    ensures !satisfied ==> FailureLead <= msg
  {
    if satisfied then SuccessLead + IntToString(count) + SuccessTail(marks) + recommendation
    else FailureLead + IntToString(count) + FailureTail(marks) + recommendation
  }

  /** Reads a message back: the framing from its headline, then the number, then the recommendation. */
  function Parse(msg: string, marks: Marks): Option<Outcome> {
    var satisfied := SuccessLead <= msg;
    var lead := if satisfied then SuccessLead else FailureLead;
    var tail := if satisfied then SuccessTail(marks) else FailureTail(marks);
    if !(lead <= msg) then None
    else
      match ReadInt(msg[|lead|..])
      case None => None
      case Some((n, rest)) =>
        if tail <= rest then Some(Outcome(satisfied, n, rest[|tail|..])) else None
  }

  /** Re-reading a composed message gives back exactly the framing, number and recommendation it was composed from. */
  lemma ParseCompose(satisfied: bool, count: int, recommendation: string, marks: Marks)
    ensures Parse(Compose(satisfied, count, recommendation, marks), marks)
         == Some(Outcome(satisfied, count, recommendation))
  {
    var msg := Compose(satisfied, count, recommendation, marks);
    if satisfied {
      ParseSuccess(msg, count, recommendation, marks);
    } else {
      ParseFailure(msg, count, recommendation, marks);
    }
  }

  lemma ParseSuccess(msg: string, count: int, recommendation: string, marks: Marks)
    requires msg == SuccessLead + IntToString(count) + SuccessTail(marks) + recommendation
    ensures Parse(msg, marks) == Some(Outcome(true, count, recommendation))
  {
    ReadBack(msg, SuccessLead, SuccessTail(marks), count, recommendation);
  }

  lemma ParseFailure(msg: string, count: int, recommendation: string, marks: Marks)
    requires msg == FailureLead + IntToString(count) + FailureTail(marks) + recommendation
    ensures Parse(msg, marks) == Some(Outcome(false, count, recommendation))
  {
    ReadBack(msg, FailureLead, FailureTail(marks), count, recommendation);
    assert msg[0] == FailureLead[0] != SuccessLead[0];
    assert !(SuccessLead <= msg);
  }

  lemma ReadBack(msg: string, lead: string, tail: string, count: int, recommendation: string)
    requires msg == lead + IntToString(count) + tail + recommendation
    requires tail != [] && tail[0] == ' '
    ensures lead <= msg
    ensures ReadInt(msg[|lead|..]) == Some((count, tail + recommendation))
    ensures tail <= tail + recommendation && (tail + recommendation)[|tail|..] == recommendation
  {
    assert msg[|lead|..] == IntToString(count) + (tail + recommendation);
    ReadIntToString(count, tail + recommendation);
  }
}

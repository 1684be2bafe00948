/**
 * Answer selection after an agent run (`run_agent` in main.py): which text
 * of the final message list is sent back to the user.
 */
module AgentAnswer {
  import opened Wrappers
  import opened Messages

  /** Returned when the run produced no message, or only the user's own. */
  const ErrorText := "Error: Agent failed to respond."

  /** A last message shorter than this triggers the backward scan; the scan wants strictly longer. */
  const ShortLimit := 500

  /** The run produced nothing to answer with. */
  predicate Failed(ms: seq<Message>)
  {
    ms == [] || ms[|ms| - 1].Human?
  }

  /** A message the backward scan accepts: not the user's, and over 500 characters. */
  predicate IsLong(m: Message)
  {
    !m.Human? && |m.content| > ShortLimit
  }

  /** `ms[i]` is long and nothing after it is: the first hit of a scan from the end. */
  predicate MostRecentLong(ms: seq<Message>, i: int)
  {
    0 <= i < |ms| && IsLong(ms[i]) && forall j :: i < j < |ms| ==> !IsLong(ms[j])
  }

  /** The index the reversed scan stops at, if any. */
  function LastLongIndex(ms: seq<Message>): (r: Option<nat>)
    ensures r.Some? ==> MostRecentLong(ms, r.value)
    ensures r.None? ==> forall j :: 0 <= j < |ms| ==> !IsLong(ms[j])
  {
    if ms == [] then None
    else if IsLong(ms[|ms| - 1]) then Some(|ms| - 1)
    else LastLongIndex(ms[..|ms| - 1])
  }

  /**
   * The answer `run_agent` returns for a completed run whose final message
   * list is `ms` (the whole thread history, not only the current turn).
   */
  function Answer(ms: seq<Message>): (r: string)
    ensures Failed(ms) ==> r == ErrorText
    ensures !Failed(ms) && |ms[|ms| - 1].content| >= ShortLimit ==> r == ms[|ms| - 1].content
    ensures !Failed(ms) && |ms[|ms| - 1].content| < ShortLimit ==>
              forall i :: MostRecentLong(ms, i) ==> r == ms[i].content
    ensures !Failed(ms) && (forall j :: 0 <= j < |ms| ==> !IsLong(ms[j])) ==> r == ms[|ms| - 1].content
    ensures !Failed(ms) ==> exists i :: 0 <= i < |ms| && !ms[i].Human? && r == ms[i].content
  {
    if Failed(ms) then ErrorText
    else
      var last := ms[|ms| - 1].content;
      if |last| < ShortLimit then
        match LastLongIndex(ms)
        case Some(i) => ms[i].content
        case None => last
      else last
  }

  /** The outcome of `app.ainvoke`: the final message list, or the text of the exception it raised. */
  datatype Invocation = Completed(messages: seq<Message>) | Raised(error: string)

  /** `run_agent` after the graph call: the reversed `for` loop that may replace the answer and `break`. */
  method RunAgent(inv: Invocation) returns (answer: string)
    ensures inv.Raised? ==> answer == "Error: " + inv.error
    ensures inv.Completed? ==> answer == Answer(inv.messages)
  {
    if inv.Raised? {
      return "Error: " + inv.error;
    }
    var messages := inv.messages;
    if |messages| == 0 || messages[|messages| - 1].Human? {
      return ErrorText;
    }
    answer := messages[|messages| - 1].content;
    if |answer| < ShortLimit {
      var i := |messages|;
      while i > 0
        invariant 0 <= i <= |messages|
        invariant answer == messages[|messages| - 1].content
        invariant forall j :: i <= j < |messages| ==> !IsLong(messages[j])
      {
        i := i - 1;
        if !messages[i].Human? && |messages[i].content| > ShortLimit {
          answer := messages[i].content;
          assert MostRecentLong(messages, i);
          break;
        }
      }
    }
  }

  // ---- The scan crosses turn boundaries ----

  /** No user message after index `i`: `ms[i]` belongs to the latest turn. */
  predicate InLatestTurn(ms: seq<Message>, i: int)
  {
    0 <= i < |ms| && forall k :: i < k < |ms| ==> !ms[k].Human?
  }

  /** The same backward scan, stopped at the user's latest message. */
  function TurnLongIndex(ms: seq<Message>): (r: Option<nat>)
    ensures r.Some? ==> MostRecentLong(ms, r.value) && InLatestTurn(ms, r.value)
    ensures r.None? ==> forall j :: InLatestTurn(ms, j) ==> !IsLong(ms[j])
  {
    if ms == [] || ms[|ms| - 1].Human? then None
    else if IsLong(ms[|ms| - 1]) then Some(|ms| - 1)
    else
      var r := TurnLongIndex(ms[..|ms| - 1]);
      assert forall j :: InLatestTurn(ms, j) && j < |ms| - 1 ==> InLatestTurn(ms[..|ms| - 1], j);
      r
  }

  /**
   * Corrected selection: identical to `Answer` except that the scan only
   * considers messages produced after the user's latest message.
   */
  function TurnAnswer(ms: seq<Message>): (r: string)
    ensures Failed(ms) ==> r == ErrorText
    ensures !Failed(ms) && |ms[|ms| - 1].content| >= ShortLimit ==> r == ms[|ms| - 1].content
    ensures !Failed(ms) && |ms[|ms| - 1].content| < ShortLimit ==>
              forall i :: MostRecentLong(ms, i) && InLatestTurn(ms, i) ==> r == ms[i].content
    ensures !Failed(ms) && (forall j :: InLatestTurn(ms, j) ==> !IsLong(ms[j])) ==> r == ms[|ms| - 1].content
    ensures !Failed(ms) ==> exists i :: InLatestTurn(ms, i) && !ms[i].Human? && r == ms[i].content
  {
    if Failed(ms) then ErrorText
    else
      var last := ms[|ms| - 1].content;
      assert InLatestTurn(ms, |ms| - 1);
      if |last| < ShortLimit then
        match TurnLongIndex(ms)
        case Some(i) => ms[i].content
        case None => last
      else last
  }

  /** A 600-character report produced in an earlier turn. */
  function OldReport(): (s: string)
    ensures |s| == 600
  {
    seq(600, _ => 'x')
  }

  /** Two turns on one thread: a long report first, then a short exchange. */
  function TwoTurnHistory(): seq<Message>
  {
    [Human("Summarise the meeting"), AI(OldReport(), []), Human("thanks"), AI("You're welcome.", [])]
  }

  /**
   * As written, the second turn's answer is the first turn's report; the
   * corrected selection answers with the second turn's own reply.
   */
  lemma StaleAnswerExample()
    ensures Answer(TwoTurnHistory()) == OldReport()
    ensures !InLatestTurn(TwoTurnHistory(), 1)
    ensures TurnAnswer(TwoTurnHistory()) == "You're welcome."
  {
    var ms := TwoTurnHistory();
    assert MostRecentLong(ms, 1);
    assert ms[2].Human?;
    assert !InLatestTurn(ms, 0) && !InLatestTurn(ms, 1);
  }
}

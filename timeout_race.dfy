/** The resolution step of `handle_call_tool` and the `/submit_response` route
    run on different threads (the tool-call handler on the asyncio loop, each
    web request on a request thread of the threaded Flask server), and each
    tests and then updates the two maps in separate steps.  This module models
    them as written, with another thread allowed to run between the test and
    the update, and exhibits the answers that are then accepted but never
    delivered.  The rest of the model uses the atomic steps `Resolved` and
    `Submitted` of BrokerState, for which `ResolveLeavesNothing`,
    `LateAnswerRejected` and `CallOutcome` prove that nothing is left behind. */
module TimeoutRace {
  import opened Messages
  import opened BrokerState

  /** The resolution as written: the test of `completed_responses` that picks
      the timeout branch, then the web server's request threads serving
      `between`, then the test of `pending_requests` that decides the
      cleanup. */
  function ResolvedAsWritten(s: State, id: string, between: seq<Submission>): Resolution
  {
    if id in s.completed then
      Resolved(s, id)
    else
      var later := Deliver(s, between);
      Resolution(Timeout, if id in later.pending then State(later.pending - {id}, later.completed) else later)
  }

  /** With nothing in between, the resolution as written is the atomic one. */
  lemma AsWrittenUninterrupted(s: State, id: string)
    ensures ResolvedAsWritten(s, id, []) == Resolved(s, id)
  {
  }

  /** An answer submitted between the two tests is accepted, yet the call
      times out and the answer stays in `completed_responses` for good. */
  lemma AnswerBetweenTestsStranded(s: State, id: string, between: seq<Submission>)
    requires id in s.pending && id !in s.completed
    requires FirstIn(between, id).Some?
    ensures var r := ResolvedAsWritten(s, id, between);
      && r.outcome == Timeout
      && id in r.state.completed
      && r.state.completed[id] == FirstIn(between, id).value
      && id !in r.state.pending
  {
    DeliverFor(s, between, id);
  }

  /** The same race on concrete values: a question about to time out, and the
      human answering "yes" between the two tests. */
  lemma StrandedAnswerExample()
    ensures var s := State(map["r1" := Request("ask_human", map["question" := Str("Proceed?")], "t0")], map[]);
      var late := Submission("r1", Answer("yes", false));
      && SubmitReply(s, "r1") == Accepted
      && ResolvedAsWritten(s, "r1", [late]) == Resolution(Timeout, State(map[], map["r1" := Answer("yes", false)]))
  {
  }

  /** How `/submit_response` ends as written: a JSON reply, or the KeyError of
      its `del` when the request vanished after it was tested. */
  datatype SubmitEnd = Served(reply: Reply, state: State) | KeyError(state: State)

  /** `/submit_response` as written: test `pending_requests`; then, if
      `cleanupBetween`, the timeout cleanup of the waiting call removes the
      request; then store the answer and delete the request. */
  function SubmitAsWritten(s: State, sub: Submission, cleanupBetween: bool): SubmitEnd
  {
    var id := sub.requestId;
    if id !in s.pending then
      Served(Rejected(NotFound), s)
    else
      var tested := if cleanupBetween then State(s.pending - {id}, s.completed) else s;
      var stored := State(tested.pending, tested.completed[id := sub.answer]);
      if id in stored.pending then Served(Accepted, State(stored.pending - {id}, stored.completed))
      else KeyError(stored)
  }

  /** With nothing in between, the route as written is the atomic step. */
  lemma SubmitAsWrittenUninterrupted(s: State, sub: Submission)
    ensures SubmitAsWritten(s, sub, false) == Served(SubmitReply(s, sub.requestId), Submitted(s, sub))
  {
  }

  /** A cleanup between the test and the update makes the route fail with a
      KeyError and leaves the answer in `completed_responses`, where no
      waiting call will ever collect it. */
  lemma CleanupDuringSubmitStrands(s: State, sub: Submission)
    requires sub.requestId in s.pending
    ensures var r := SubmitAsWritten(s, sub, true);
      && r.KeyError?
      && sub.requestId in r.state.completed && sub.requestId !in r.state.pending
  {
  }

  /** How two request threads posting for the same id end. */
  datatype DuplicateEnd = DuplicateEnd(first: SubmitEnd, second: SubmitEnd)

  /** Two `/submit_response` requests for the same id as written, on two
      request threads: both test `pending_requests` before either updates
      it; then the first stores its answer and deletes the request; then the
      second stores its answer over the first's and reaches its `del`. */
  function DuplicateSubmitAsWritten(s: State, id: string, first: Answer, second: Answer): DuplicateEnd
  {
    if id !in s.pending then
      DuplicateEnd(Served(Rejected(NotFound), s), Served(Rejected(NotFound), s))
    else
      var afterFirst := State(s.pending - {id}, s.completed[id := first]);
      var stored := State(afterFirst.pending, afterFirst.completed[id := second]);
      DuplicateEnd(Served(Accepted, afterFirst), KeyError(stored))
  }

  /** Both requests pass the test: the first is told its answer was accepted,
      yet the second's answer replaces it, and the second ends in a KeyError.
      Served one after the other, the second would have been rejected and the
      first answer kept (`SecondAnswerRejected`). */
  lemma DuplicateSubmitOverwrites(s: State, id: string, first: Answer, second: Answer)
    requires id in s.pending && first != second
    ensures var r := DuplicateSubmitAsWritten(s, id, first, second);
      && r.first == Served(Accepted, Submitted(s, Submission(id, first)))
      && r.second.KeyError?
      && id !in r.second.state.pending
      && r.second.state.completed[id] == second
      && r.second.state.completed[id] != Submitted(s, Submission(id, first)).completed[id]
  {
  }
}

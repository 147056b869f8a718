/** The broker's two process-wide maps as one value, the steps that change them,
    and what those steps guarantee.  The class `Broker` in module HumanServer
    performs these steps in place; here they are functions so that properties
    spanning several steps can be stated as lemmas. */
module BrokerState {
  import opened Messages

  /** `pending_requests` (requests waiting for the human) and
      `completed_responses` (answers the waiting call has not collected yet). */
  datatype State = State(pending: map<string, Request>, completed: map<string, Answer>)

  /** No id is both waiting and answered: every id is pending,
      answered-but-uncollected, or gone. */
  predicate Consistent(s: State)
  {
    s.pending.Keys !! s.completed.Keys
  }

  /** A generated id that neither map knows (what `uuid.uuid4()` provides). */
  predicate Fresh(s: State, id: string)
  {
    id !in s.pending && id !in s.completed
  }

  // ---------------------------------------------------------------------------
  // The steps

  /** `pending_requests[request_id] = {...}` in `handle_call_tool`. */
  function Enqueued(s: State, id: string, req: Request): State
  {
    State(s.pending[id := req], s.completed)
  }

  /** What `submit_response` answers. */
  function SubmitReply(s: State, id: string): Reply
  {
    if id in s.pending then Accepted else Rejected(NotFound)
  }

  /** The maps after `submit_response`: an accepted answer is stored and its
      request leaves the pending map; an unknown id changes nothing. */
  function Submitted(s: State, sub: Submission): State
  {
    if sub.requestId in s.pending then
      State(s.pending - {sub.requestId}, s.completed[sub.requestId := sub.answer])
    else
      s
  }

  /** The human's submissions during one tick, served in order. */
  function Deliver(s: State, batch: seq<Submission>): State
    decreases |batch|
  {
    if batch == [] then s
    else Submitted(Deliver(s, batch[..|batch| - 1]), batch[|batch| - 1])
  }

  /** The submissions the web interface serves while the waiting call sleeps
      through tick `t`. */
  function Tick(schedule: seq<seq<Submission>>, t: nat): seq<Submission>
  {
    if t < |schedule| then schedule[t] else []
  }

  datatype WaitEnd = WaitEnd(state: State, waited: nat)

  /** The polling loop of `handle_call_tool`, entered with `waited` ticks
      already spent: while no answer for `id` is stored and fewer than
      `MaxWait` ticks have passed, sleep one tick (during which the human's
      submissions are served) and count it. */
  function Waited(s: State, id: string, schedule: seq<seq<Submission>>, waited: nat): WaitEnd
    requires waited <= MaxWait
    decreases MaxWait - waited
  {
    if id !in s.completed && waited < MaxWait then
      Waited(Deliver(s, Tick(schedule, waited)), id, schedule, waited + 1)
    else
      WaitEnd(s, waited)
  }

  datatype Resolution = Resolution(outcome: Outcome, state: State)

  /** After the loop: collect and delete a stored answer, or else remove the
      request from the pending map if it is still there and time out.  The
      whole step is atomic here; module TimeoutRace shows what happens when
      the web server runs between its two tests. */
  function Resolved(s: State, id: string): Resolution
  {
    if id in s.completed then
      Resolution(Verdict(s.completed[id]), State(s.pending, s.completed - {id}))
    else
      Resolution(Timeout, State(s.pending - {id}, s.completed))
  }

  /** One whole `handle_call_tool`: queue, wait, resolve. */
  function HandleCall(s: State, id: string, req: Request, schedule: seq<seq<Submission>>): Resolution
  {
    Resolved(Waited(Enqueued(s, id, req), id, schedule, 0).state, id)
  }

  // ---------------------------------------------------------------------------
  // An independent description of a call's outcome

  /** The answer carried by the first submission for `id` in `batch`. */
  function FirstIn(batch: seq<Submission>, id: string): Option<Answer>
  {
    if batch == [] then None
    else if batch[0].requestId == id then Some(batch[0].answer)
    else FirstIn(batch[1..], id)
  }

  /** The first answer submitted for `id` during ticks `from` .. `MaxWait - 1`. */
  function FirstAnswer(schedule: seq<seq<Submission>>, id: string, from: nat): Option<Answer>
    decreases MaxWait - from
  {
    if from >= MaxWait then None
    else match FirstIn(Tick(schedule, from), id)
      case Some(a) => Some(a)
      case None => FirstAnswer(schedule, id, from + 1)
  }

  /** The outcome a call should have: the verdict on the first answer the human
      gives in time, or a timeout if none comes. */
  function Expected(first: Option<Answer>): Outcome
  {
    match first
    case Some(a) => Verdict(a)
    case None => Timeout
  }

  /** The submissions in `batch` that target `id`, in order. */
  function ForId(batch: seq<Submission>, id: string): (r: seq<Submission>)
    ensures |r| <= |batch|
    ensures forall k :: 0 <= k < |r| ==> r[k].requestId == id
    ensures forall x :: x in r <==> x in batch && x.requestId == id
  {
    if batch == [] then []
    else (if batch[0].requestId == id then [batch[0]] else []) + ForId(batch[1..], id)
  }

  // ---------------------------------------------------------------------------
  // Single steps

  lemma EnqueueAddsOne(s: State, id: string, req: Request)
    requires Consistent(s) && Fresh(s, id)
    ensures var r := Enqueued(s, id, req);
      && r.pending.Keys == s.pending.Keys + {id}
      && r.pending[id] == req
      && (forall k :: k in s.pending ==> r.pending[k] == s.pending[k])
      && r.completed == s.completed
      && Consistent(r)
  {
  }

  lemma SubmitAccepted(s: State, sub: Submission)
    requires sub.requestId in s.pending
    ensures SubmitReply(s, sub.requestId) == Accepted
    ensures var r := Submitted(s, sub);
      && sub.requestId !in r.pending
      && sub.requestId in r.completed && r.completed[sub.requestId] == sub.answer
      && r.pending == s.pending - {sub.requestId}
      && (forall k :: k in s.completed && k != sub.requestId ==> k in r.completed && r.completed[k] == s.completed[k])
      && r.completed.Keys == s.completed.Keys + {sub.requestId}
  {
  }

  lemma SubmitRejected(s: State, sub: Submission)
    requires sub.requestId !in s.pending
    ensures SubmitReply(s, sub.requestId) == Rejected(NotFound)
    ensures Submitted(s, sub) == s
  {
  }

  lemma SubmitKeepsConsistent(s: State, sub: Submission)
    requires Consistent(s)
    ensures Consistent(Submitted(s, sub))
  {
  }

  /** After an accepted answer, every further answer for the same id is
      rejected and changes nothing. */
  lemma SecondAnswerRejected(s: State, first: Submission, second: Submission)
    requires first.requestId in s.pending && second.requestId == first.requestId
    ensures var r := Submitted(s, first);
      SubmitReply(r, second.requestId) == Rejected(NotFound) && Submitted(r, second) == r
  {
  }

  /** Collecting a stored answer consumes it and maps its error flag. */
  lemma ResolveAnswered(s: State, id: string)
    requires id in s.completed
    ensures var r := Resolved(s, id);
      && r.outcome == Verdict(s.completed[id])
      && (r.outcome == Success(s.completed[id].response) <==> !s.completed[id].isError)
      && (r.outcome == HumanError(s.completed[id].response) <==> s.completed[id].isError)
      && id !in r.state.completed
      && r.state.completed == s.completed - {id}
      && r.state.pending == s.pending
  {
  }

  /** Without a stored answer the call times out and its request is removed. */
  lemma ResolveTimedOut(s: State, id: string)
    requires id !in s.completed
    ensures var r := Resolved(s, id);
      && r.outcome == Timeout
      && id !in r.state.pending
      && r.state.pending == s.pending - {id}
      && r.state.completed == s.completed
  {
  }

  /** Resolution leaves nothing behind for `id` and touches no other id. */
  lemma ResolveLeavesNothing(s: State, id: string)
    requires Consistent(s)
    ensures var r := Resolved(s, id);
      && id !in r.state.pending && id !in r.state.completed
      && r.state == State(s.pending - {id}, s.completed - {id})
      && Consistent(r.state)
  {
  }

  /** A resolved id can no longer be answered, whether it was answered or
      timed out. */
  lemma LateAnswerRejected(s: State, id: string, late: Submission)
    requires Consistent(s) && late.requestId == id
    ensures var r := Resolved(s, id);
      SubmitReply(r.state, id) == Rejected(NotFound) && Submitted(r.state, late) == r.state
  {
    ResolveLeavesNothing(s, id);
  }

  // ---------------------------------------------------------------------------
  // Serving a tick's submissions

  lemma {:induction false} DeliverKeepsConsistent(s: State, batch: seq<Submission>)
    requires Consistent(s)
    ensures Consistent(Deliver(s, batch))
    decreases |batch|
  {
    if batch != [] {
      DeliverKeepsConsistent(s, batch[..|batch| - 1]);
      SubmitKeepsConsistent(Deliver(s, batch[..|batch| - 1]), batch[|batch| - 1]);
    }
  }

  lemma {:induction false} FirstInSnoc(batch: seq<Submission>, x: Submission, id: string)
    ensures FirstIn(batch + [x], id) ==
      if FirstIn(batch, id).Some? then FirstIn(batch, id)
      else if x.requestId == id then Some(x.answer)
      else None
    decreases |batch|
  {
    if batch == [] {
      assert [] + [x] == [x];
      assert [x][1..] == [];
    } else {
      assert (batch + [x])[1..] == batch[1..] + [x];
      FirstInSnoc(batch[1..], x, id);
    }
  }

  /** While `id` waits, a tick's submissions answer it with the first
      submission for it, if any; later ones for it are rejected. */
  lemma {:induction false} DeliverFor(s: State, batch: seq<Submission>, id: string)
    requires id in s.pending && id !in s.completed
    ensures var r := Deliver(s, batch);
      match FirstIn(batch, id)
      case Some(a) => id !in r.pending && id in r.completed && r.completed[id] == a
      case None => id in r.pending && id !in r.completed
    decreases |batch|
  {
    if batch != [] {
      var prefix, x := batch[..|batch| - 1], batch[|batch| - 1];
      assert batch == prefix + [x];
      DeliverFor(s, prefix, id);
      FirstInSnoc(prefix, x, id);
    }
  }

  // ---------------------------------------------------------------------------
  // The polling loop

  /** The loop stops within `MaxWait` ticks, and only when an answer is stored
      or the ticks are used up. */
  lemma {:induction false} WaitBounded(s: State, id: string, schedule: seq<seq<Submission>>, waited: nat)
    requires waited <= MaxWait
    ensures var r := Waited(s, id, schedule, waited);
      && waited <= r.waited <= MaxWait
      && (id in r.state.completed || r.waited == MaxWait)
    decreases MaxWait - waited
  {
    if id !in s.completed && waited < MaxWait {
      WaitBounded(Deliver(s, Tick(schedule, waited)), id, schedule, waited + 1);
    }
  }

  lemma {:induction false} WaitKeepsConsistent(s: State, id: string, schedule: seq<seq<Submission>>, waited: nat)
    requires waited <= MaxWait && Consistent(s)
    ensures Consistent(Waited(s, id, schedule, waited).state)
    decreases MaxWait - waited
  {
    if id !in s.completed && waited < MaxWait {
      DeliverKeepsConsistent(s, Tick(schedule, waited));
      WaitKeepsConsistent(Deliver(s, Tick(schedule, waited)), id, schedule, waited + 1);
    }
  }

  /** A waiting request ends the loop answered by the first answer given in
      time, or still listed as pending after `MaxWait` ticks. */
  lemma {:induction false} WaitOutcome(s: State, id: string, schedule: seq<seq<Submission>>, waited: nat)
    requires waited <= MaxWait
    requires id in s.pending && id !in s.completed
    ensures var r := Waited(s, id, schedule, waited);
      match FirstAnswer(schedule, id, waited)
      case Some(a) => id !in r.state.pending && id in r.state.completed && r.state.completed[id] == a
      case None => id in r.state.pending && id !in r.state.completed && r.waited == MaxWait
    decreases MaxWait - waited
  {
    if waited < MaxWait {
      var batch := Tick(schedule, waited);
      DeliverFor(s, batch, id);
      var next := Deliver(s, batch);
      match FirstIn(batch, id)
      case Some(a) =>
        assert Waited(next, id, schedule, waited + 1) == WaitEnd(next, waited + 1);
      case None =>
        WaitOutcome(next, id, schedule, waited + 1);
    }
  }

  // ---------------------------------------------------------------------------
  // A whole call

  /** Every call ends in exactly one outcome, fixed by the first answer given
      in time; afterwards its id is in neither map and a consistent state
      stays consistent. */
  lemma CallOutcome(s: State, id: string, req: Request, schedule: seq<seq<Submission>>)
    requires Fresh(s, id)
    ensures var r := HandleCall(s, id, req, schedule);
      && r.outcome == Expected(FirstAnswer(schedule, id, 0))
      && id !in r.state.pending && id !in r.state.completed
      && (Consistent(s) ==> Consistent(r.state))
  {
    var queued := Enqueued(s, id, req);
    WaitOutcome(queued, id, schedule, 0);
    if Consistent(s) {
      WaitKeepsConsistent(queued, id, schedule, 0);
      ResolveLeavesNothing(Waited(queued, id, schedule, 0).state, id);
    }
  }

  /** After a call has returned, an answer for its id is "Request not found". */
  lemma AnswerAfterCallRejected(s: State, id: string, req: Request, schedule: seq<seq<Submission>>, late: Submission)
    requires Fresh(s, id) && late.requestId == id
    ensures var r := HandleCall(s, id, req, schedule);
      SubmitReply(r.state, id) == Rejected(NotFound) && Submitted(r.state, late) == r.state
  {
    CallOutcome(s, id, req, schedule);
  }

  /** `ForId` keeps the order of the submissions it picks: it distributes over
      concatenation, so the picks from an earlier part come first. */
  lemma {:induction false} ForIdConcat(a: seq<Submission>, b: seq<Submission>, id: string)
    ensures ForId(a + b, id) == ForId(a, id) + ForId(b, id)
    decreases |a|
  {
    if a == [] {
      assert [] + b == b;
    } else {
      assert (a + b)[0] == a[0];
      assert (a + b)[1..] == a[1..] + b;
      ForIdConcat(a[1..], b, id);
    }
  }

  lemma {:induction false} FirstInOwn(batch: seq<Submission>, id: string)
    ensures FirstIn(batch, id) == FirstIn(ForId(batch, id), id)
    decreases |batch|
  {
    if batch != [] {
      FirstInOwn(batch[1..], id);
      if batch[0].requestId == id {
        assert ForId(batch, id) == [batch[0]] + ForId(batch[1..], id);
        assert ForId(batch, id)[0] == batch[0];
      } else {
        assert ForId(batch, id) == ForId(batch[1..], id);
      }
    }
  }

  lemma {:induction false} FirstAnswerOwn(schedule1: seq<seq<Submission>>, schedule2: seq<seq<Submission>>, id: string, from: nat)
    requires forall t :: from <= t < MaxWait ==> ForId(Tick(schedule1, t), id) == ForId(Tick(schedule2, t), id)
    ensures FirstAnswer(schedule1, id, from) == FirstAnswer(schedule2, id, from)
    decreases MaxWait - from
  {
    if from < MaxWait {
      FirstInOwn(Tick(schedule1, from), id);
      FirstInOwn(Tick(schedule2, from), id);
      FirstAnswerOwn(schedule1, schedule2, id, from + 1);
    }
  }

  /** A call's outcome depends only on the submissions that target its own id:
      not on other ids' answers, on what else is queued, or on which tool was
      called with which arguments. */
  lemma OutcomeDependsOnOwnId(
    s1: State, s2: State, id: string, req1: Request, req2: Request,
    schedule1: seq<seq<Submission>>, schedule2: seq<seq<Submission>>)
    requires Fresh(s1, id) && Fresh(s2, id)
    requires forall t :: 0 <= t < MaxWait ==> ForId(Tick(schedule1, t), id) == ForId(Tick(schedule2, t), id)
    ensures HandleCall(s1, id, req1, schedule1).outcome == HandleCall(s2, id, req2, schedule2).outcome
  {
    CallOutcome(s1, id, req1, schedule1);
    CallOutcome(s2, id, req2, schedule2);
    FirstAnswerOwn(schedule1, schedule2, id, 0);
  }

  /** What the protocol layer receives for a whole call: the human's text,
      flagged as an error exactly when the human said so, or the timeout
      message flagged as an error when no answer came in time. */
  lemma CallToolResult(s: State, id: string, req: Request, schedule: seq<seq<Submission>>)
    requires Fresh(s, id)
    ensures ToolResult(HandleCall(s, id, req, schedule).outcome) ==
      match FirstAnswer(schedule, id, 0)
      case Some(a) => (a.isError, a.response)
      case None => (true, TimeoutMessage)
  {
    CallOutcome(s, id, req, schedule);
  }
}

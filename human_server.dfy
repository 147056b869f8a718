/** The broker as the server runs it: two maps updated in place by the web
    routes and by the tool-call handler. */
module HumanServer {
  import opened Messages
  import opened BrokerState

  class Broker {
    /** `pending_requests`: requests waiting for the human, by request id. */
    var pending: map<string, Request>
    /** `completed_responses`: answers the waiting call has not collected yet. */
    var completed: map<string, Answer>

    /** The two maps as one value. */
    function Snapshot(): State
      reads this
    {
      State(pending, completed)
    }

    /** Both maps start empty when the server starts. */
    constructor ()
      ensures pending == map[] && completed == map[]
      ensures Consistent(Snapshot())
    {
      pending := map[];
      completed := map[];
    }

    /** `/get_requests`: what the web page lists. */
    method GetRequests() returns (requests: map<string, Request>)
      ensures requests.Keys == pending.Keys
      ensures forall id :: id in requests ==> requests[id] == pending[id]
    {
      requests := pending;
    }

    /** `/submit_response`: accept an answer only for a request that is still
        pending, moving it from the pending map to the answers. */
    method SubmitResponse(requestId: string, response: string, isError: bool) returns (reply: Reply)
      modifies this
      ensures reply == SubmitReply(old(Snapshot()), requestId)
      ensures reply == Accepted <==> old(requestId in pending)
      ensures reply != Accepted ==> reply == Rejected(NotFound)
      ensures Snapshot() == Submitted(old(Snapshot()), Submission(requestId, Answer(response, isError)))
      ensures requestId !in pending
      ensures old(Consistent(Snapshot())) ==> Consistent(Snapshot())
    {
      if requestId in pending {
        completed := completed[requestId := Answer(response, isError)];
        pending := pending - {requestId};
        reply := Accepted;
      } else {
        reply := Rejected(NotFound);
      }
    }

    /** The start of `handle_call_tool`: queue the call under a fresh id. */
    method Enqueue(id: string, toolName: string, arguments: map<string, Json>, timestamp: string)
      requires id !in pending && id !in completed
      modifies this
      ensures pending == old(pending)[id := Request(toolName, arguments, timestamp)]
      ensures completed == old(completed)
      ensures Snapshot() == Enqueued(old(Snapshot()), id, Request(toolName, arguments, timestamp))
      ensures old(Consistent(Snapshot())) ==> Consistent(Snapshot())
    {
      pending := pending[id := Request(toolName, arguments, timestamp)];
    }

    /** The web server handling the human's submissions during one tick. */
    method Serve(batch: seq<Submission>)
      modifies this
      ensures Snapshot() == Deliver(old(Snapshot()), batch)
    {
      for j := 0 to |batch|
        invariant Snapshot() == Deliver(old(Snapshot()), batch[..j])
      {
        assert batch[..j + 1][..j] == batch[..j];
        var _ := SubmitResponse(batch[j].requestId, batch[j].answer.response, batch[j].answer.isError);
      }
      assert batch[..|batch|] == batch;
    }

    /** The polling loop of `handle_call_tool`: one tick per iteration, with the
        human's submissions for that tick served while the call sleeps. */
    method Wait(id: string, schedule: seq<seq<Submission>>) returns (waited: nat)
      modifies this
      ensures waited <= MaxWait
      ensures id in completed || waited == MaxWait
      ensures WaitEnd(Snapshot(), waited) == Waited(old(Snapshot()), id, schedule, 0)
    {
      waited := 0;
      while id !in completed && waited < MaxWait
        invariant waited <= MaxWait
        invariant Waited(Snapshot(), id, schedule, waited) == Waited(old(Snapshot()), id, schedule, 0)
        decreases MaxWait - waited
      {
        Serve(Tick(schedule, waited));
        waited := waited + 1;
      }
    }

    /** The end of `handle_call_tool`: consume a stored answer, or clean up
        after a timeout. */
    method Resolve(id: string) returns (outcome: Outcome)
      modifies this
      ensures Resolution(outcome, Snapshot()) == Resolved(old(Snapshot()), id)
      ensures old(id in completed) ==> outcome == Verdict(old(completed[id])) && pending == old(pending)
      ensures old(id !in completed) ==> outcome == Timeout && completed == old(completed)
      ensures id !in completed
      ensures old(Consistent(Snapshot())) ==> id !in pending && Consistent(Snapshot())
    {
      if id in completed {
        var answer := completed[id];
        completed := completed - {id};
        if answer.isError {
          outcome := HumanError(answer.response);
        } else {
          outcome := Success(answer.response);
        }
      } else {
        if id in pending {
          pending := pending - {id};
        }
        outcome := Timeout;
      }
    }

    /** `handle_call_tool`: queue the call, wait for the human, resolve.  The
        outcome is fixed by the first answer submitted for `id` within
        `MaxWait` ticks, and the id is gone from both maps afterwards. */
    method HandleCallTool(
      id: string, toolName: string, arguments: map<string, Json>, timestamp: string,
      schedule: seq<seq<Submission>>)
      returns (outcome: Outcome)
      requires id !in pending && id !in completed
      modifies this
      ensures Resolution(outcome, Snapshot())
        == HandleCall(old(Snapshot()), id, Request(toolName, arguments, timestamp), schedule)
      ensures outcome == Expected(FirstAnswer(schedule, id, 0))
      ensures id !in pending && id !in completed
      ensures old(Consistent(Snapshot())) ==> Consistent(Snapshot())
    {
      ghost var start := Snapshot();
      Enqueue(id, toolName, arguments, timestamp);
      var _ := Wait(id, schedule);
      outcome := Resolve(id);
      CallOutcome(start, id, Request(toolName, arguments, timestamp), schedule);
    }
  }
}

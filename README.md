# Human-controlled MCP server: the pending-request broker

The server lets an automated agent call three "tools" whose answers come from
a human operator on a web page. Every tool call goes through one broker made of
two process-wide maps:

- `pending_requests` holds requests that are waiting for the human.
- `completed_responses` holds answers that the waiting call has not collected yet.

Three operations act on them:

- `handle_call_tool` queues a call under a fresh id. It then polls once a second,
  for at most `max_wait = 300` ticks, until an answer is stored. At the end it
  consumes the answer or cleans up after a timeout.
- `/submit_response` accepts an answer only while its id is pending.
- `/get_requests` lists the pending map.

This project models that broker and proves what it guarantees when each step
(a submission, a resolution) runs atomically, one after another:

- every id is pending, answered-but-uncollected, or gone;
- every call ends in exactly one outcome, and that outcome is fixed by the
  first answer submitted in time;
- late and duplicate answers are rejected;
- the loop stops within 300 ticks (this one holds as written, too);
- nothing is left in either map once a call has returned.

The code as written does not run these steps atomically. Under "## Findings",
three interleavings of threads break the second, third and fifth guarantees.

Files:

- `messages.dfy` (module `Messages`) holds the values: requests, answers,
  submissions, replies and outcomes, plus the constants `MaxWait` (300), the
  "Request not found" error and the timeout message.
- `broker_state.dfy` (module `BrokerState`) treats the two maps as one value
  `State`. It defines each step as a function: `Enqueued`, `Submitted`,
  `Deliver`, `Waited`, `Resolved` and `HandleCall`. It also gives an
  independent reference for a call's outcome (`FirstAnswer`, `Expected`) and the
  lemmas.
- `human_server.dfy` (module `HumanServer`) has the class `Broker`. Its two map
  fields are updated in place by methods that mirror the route handlers and
  `handle_call_tool`, including the polling `while` loop. Each method is proved
  against the functions of `BrokerState`.
- `timeout_race.dfy` (module `TimeoutRace`) models the resolution step and
  `/submit_response` as written, with another thread running between a test
  and the update that follows it (see Findings). `app.run` does not turn off
  Flask's threaded mode, so every web request runs on a request thread of its
  own, beside the tool-call handler.

Time is a tick counter. The web server's request threads appear as the list of
human submissions served, one after another, during each tick: `schedule[t]` is
what is served while the call sleeps through tick `t`. The id that
`uuid.uuid4()` generates becomes a precondition: the id is in neither map. The timestamp is a parameter. The two
exceptions that `handle_call_tool` raises become the `HumanError` and `Timeout`
outcomes.

## Model

| member | source | states |
|---|---|---|
| `HumanServer.Broker.constructor` | human_mcp_server.py:26-27 | both maps start empty (hence consistent) |
| `HumanServer.Broker.GetRequests` | human_mcp_server.py:474-476 | the listing is exactly the pending map, key by key |
| `HumanServer.Broker.SubmitResponse` | human_mcp_server.py:478-493 | accepted iff the id was pending, otherwise "Request not found"; the new maps are `Submitted` of the old ones; afterwards the id is never pending; consistency is kept |
| `HumanServer.Broker.Enqueue` | human_mcp_server.py:570-577 | for a fresh id, the pending map gains exactly that entry (tool name, arguments, timestamp); the answers are unchanged |
| `HumanServer.Broker.Serve` | human_mcp_server.py:478-493 | serving a tick's submissions in order leaves the maps at `Deliver` of the old ones |
| `HumanServer.Broker.Wait` | human_mcp_server.py:582-587 | the loop exits with `waited <= 300`, and either an answer is stored or `waited == 300`; the final maps and count are those of `Waited` |
| `HumanServer.Broker.Resolve` | human_mcp_server.py:589-605 | a stored answer is consumed and mapped by its error flag with the pending map untouched; otherwise the outcome is Timeout and the answers are untouched; afterwards the id is in neither map of a consistent state |
| `HumanServer.Broker.HandleCallTool` | human_mcp_server.py:566-605 | the outcome is the verdict on the first answer submitted for the id within 300 ticks, or Timeout; the id is in neither map afterwards; consistency is kept |
| `Messages.Verdict` | human_mcp_server.py:594-600 | an answer becomes an error exactly when its flag is set, carrying the human's text verbatim; it is never a timeout |
| `Messages.ToolResult` | human_mcp_server.py:594-605 | the result is an error for every outcome but success; its text is the human's text, or the timeout message |
| `BrokerState.ForId` | human_mcp_server.py:566-605 | helper of `OutcomeDependsOnOwnId`: the result holds exactly the submissions of the batch that target the given id, and no more than the batch has |
| `BrokerState.ForIdConcat` | human_mcp_server.py:566-605 | helper of `OutcomeDependsOnOwnId`: `ForId` distributes over concatenation, so it keeps the batch's order |
| `BrokerState.Enqueued` | human_mcp_server.py:573-577 | the queuing step; its meaning is stated by `EnqueueAddsOne` |
| `BrokerState.SubmitReply` | human_mcp_server.py:485-493 | the route's reply; its meaning is stated by `SubmitAccepted` and `SubmitRejected` |
| `BrokerState.Submitted` | human_mcp_server.py:485-490 | the route's effect on the maps; its meaning is stated by `SubmitAccepted`, `SubmitRejected`, `SubmitKeepsConsistent` and `SecondAnswerRejected` |
| `BrokerState.Deliver` | human_mcp_server.py:478-493 | one tick's submissions served in order; its meaning is stated by `DeliverFor` and `DeliverKeepsConsistent` |
| `BrokerState.Waited` | human_mcp_server.py:585-587 | the polling loop; its meaning is stated by `WaitBounded`, `WaitOutcome` and `WaitKeepsConsistent` |
| `BrokerState.Resolved` | human_mcp_server.py:589-605 | the resolution step; its meaning is stated by `ResolveAnswered`, `ResolveTimedOut` and `ResolveLeavesNothing` |
| `BrokerState.HandleCall` | human_mcp_server.py:566-605 | a whole tool call; its meaning is stated by `CallOutcome`, `CallToolResult` and `OutcomeDependsOnOwnId` |
| `BrokerState.EnqueueAddsOne` | human_mcp_server.py:570-577 | enqueuing a fresh id adds exactly one pending entry holding the request, changes no other entry, and keeps the state consistent |
| `BrokerState.SubmitAccepted` | human_mcp_server.py:485-491 | a pending id is accepted, leaves the pending map, and its answer is stored; other answers are unchanged |
| `BrokerState.SubmitRejected` | human_mcp_server.py:485-493 | an id that is not pending gets "Request not found" and neither map changes |
| `BrokerState.SubmitKeepsConsistent` | human_mcp_server.py:485-490 | a submission keeps every id in at most one of the two maps |
| `BrokerState.SecondAnswerRejected` | human_mcp_server.py:485-493 | after an accepted answer, a second answer for the same id is rejected and changes nothing |
| `BrokerState.ResolveAnswered` | human_mcp_server.py:590-600 | a stored answer is consumed exactly once; success iff its flag is false, error iff true, both with its text; the pending map is unchanged |
| `BrokerState.ResolveTimedOut` | human_mcp_server.py:601-605 | with no stored answer the outcome is Timeout, the id leaves the pending map, the answers are unchanged |
| `BrokerState.ResolveLeavesNothing` | human_mcp_server.py:590-605 | in a consistent state, resolution removes the id from both maps, changes no other id, and keeps consistency |
| `BrokerState.LateAnswerRejected` | human_mcp_server.py:485-493 | once an id is resolved (answered or timed out), an answer for it is rejected and changes nothing |
| `BrokerState.DeliverKeepsConsistent` | human_mcp_server.py:485-490 | serving any list of submissions keeps the state consistent |
| `BrokerState.FirstInSnoc` | human_mcp_server.py:585-587 | helper of `DeliverFor`: appending a submission changes the first answer for an id only if there was none and it targets that id |
| `BrokerState.DeliverFor` | human_mcp_server.py:485-490 | while an id waits, a tick's submissions leave it answered with the first submission for it, or still pending if none targets it |
| `BrokerState.WaitBounded` | human_mcp_server.py:582-587 | the loop stops after at most 300 ticks, never before its start count, and only when an answer is stored or the ticks are spent |
| `BrokerState.WaitKeepsConsistent` | human_mcp_server.py:585-587 | the state stays consistent through the whole wait |
| `BrokerState.WaitOutcome` | human_mcp_server.py:585-587 | a waiting id ends the loop answered by the first answer given in time, or still pending with `waited == 300` |
| `BrokerState.CallOutcome` | human_mcp_server.py:566-605 | for a fresh id, a call's outcome equals `Expected(FirstAnswer(...))`; the id is in neither map afterwards; consistency is kept |
| `BrokerState.AnswerAfterCallRejected` | human_mcp_server.py:485-493 | after a call has returned, any answer for its id is "Request not found" and changes nothing |
| `BrokerState.FirstInOwn` | human_mcp_server.py:566-605 | helper of `OutcomeDependsOnOwnId`: the first answer for an id depends only on the submissions that target it |
| `BrokerState.FirstAnswerOwn` | human_mcp_server.py:566-605 | helper of `OutcomeDependsOnOwnId`: two schedules that agree on the submissions for an id give it the same first answer |
| `BrokerState.CallToolResult` | human_mcp_server.py:589-605 | the protocol layer receives the first timely answer's text, flagged as an error exactly when the human flagged it, or the timeout message flagged as an error when no answer came |
| `BrokerState.OutcomeDependsOnOwnId` | human_mcp_server.py:566-605 | a call's outcome does not depend on other ids' answers, on what else is queued, or on the tool and arguments of the call |
| `TimeoutRace.ResolvedAsWritten` | human_mcp_server.py:590-605 | the resolution as written, with request threads serving submissions between the tests at 590 and 603; its meaning is stated by `AsWrittenUninterrupted` and `AnswerBetweenTestsStranded` |
| `TimeoutRace.AsWrittenUninterrupted` | human_mcp_server.py:590-605 | with no submission between its two tests, the resolution as written equals the atomic one |
| `TimeoutRace.AnswerBetweenTestsStranded` | human_mcp_server.py:590-605 | an answer submitted between the two tests is accepted, yet the call times out and the answer stays stored |
| `TimeoutRace.StrandedAnswerExample` | human_mcp_server.py:590-605 | on concrete values: "yes" for a pending `ask_human` is accepted, the call times out, and `completed_responses` keeps it |
| `TimeoutRace.SubmitAsWritten` | human_mcp_server.py:485-490 | the route as written, with an optional timeout cleanup between its test and its update; its meaning is stated by `SubmitAsWrittenUninterrupted` and `CleanupDuringSubmitStrands` |
| `TimeoutRace.SubmitAsWrittenUninterrupted` | human_mcp_server.py:485-493 | with no cleanup between its test and its update, the route as written equals the atomic step |
| `TimeoutRace.CleanupDuringSubmitStrands` | human_mcp_server.py:485-490 | a timeout cleanup between the route's test and its `del` ends the route in a KeyError, with the answer stored and never collected |
| `TimeoutRace.DuplicateSubmitAsWritten` | human_mcp_server.py:485-490 | two posts for the same id on two request threads, both tested before either updates; its meaning is stated by `DuplicateSubmitOverwrites` |
| `TimeoutRace.DuplicateSubmitOverwrites` | human_mcp_server.py:485-490 | both posts pass the test; the first is told Accepted, the second's answer replaces the first's, and the second ends in a KeyError |

## Findings

| source | as written | input that shows it | evidently intended | confidence | as-written member | corrected member |
|---|---|---|---|---|---|---|
| human_mcp_server.py:590-604 | The timeout branch tests `completed_responses` (590) and then `pending_requests` (603) in two separate steps. The web server's request threads can run `submit_response` between them. | Request `r1` is pending and no answer is stored. The tool-call handler takes the timeout branch at 590. The human then posts `r1`/"yes", which is Accepted. The handler finds `r1` no longer pending at 603 and raises the timeout. | A late answer is either delivered or rejected. An accepted answer is never silently dropped, and the id leaves both maps. | medium; not executed | `TimeoutRace.ResolvedAsWritten` (shown by `TimeoutRace.AnswerBetweenTestsStranded`, `TimeoutRace.StrandedAnswerExample`) | `BrokerState.Resolved` (proved by `BrokerState.ResolveLeavesNothing`, `BrokerState.LateAnswerRejected`, `BrokerState.CallOutcome`) |
| human_mcp_server.py:485-490 | `submit_response` tests `pending_requests` (485), stores the answer (486), then deletes the request (490), all in separate steps. The timeout cleanup (603-604) can run between 485 and 490. | Request `r1` is pending and the tool-call handler has taken the timeout branch. The human posts `r1`; the test at 485 passes. The handler deletes `r1` at 604. The route stores the answer and its `del` raises KeyError. | The test and the move happen in one step. An answer is then either accepted for a still-waiting call or rejected as "Request not found". | medium; not executed | `TimeoutRace.SubmitAsWritten` (shown by `TimeoutRace.CleanupDuringSubmitStrands`) | `BrokerState.Submitted` (proved by `BrokerState.SubmitAccepted`, `BrokerState.SubmitRejected`, `BrokerState.SecondAnswerRejected`) |
| human_mcp_server.py:485-490 | Two posts for the same id run on two request threads of the threaded Flask server. Both can pass the test at 485 before either deletes at 490. | Request `r1` is pending. The human posts `r1`/"yes" twice (two tabs, or a double click). Both threads pass 485. The first stores "yes", deletes `r1` and replies success. The second stores its answer over the first and its `del` raises KeyError. If the call collected the first answer in between, the second answer is stranded instead. | One answer per id: the first post is accepted and kept, and every later post is rejected as "Request not found". | medium; not executed | `TimeoutRace.DuplicateSubmitAsWritten` (shown by `TimeoutRace.DuplicateSubmitOverwrites`) | `BrokerState.Submitted` (proved by `BrokerState.SecondAnswerRejected`, `BrokerState.SubmitAccepted`) |

The rest of the model uses the atomic steps `Submitted` and `Resolved`. Within
one asyncio task, the resolution block has no `await`, so other tool calls cannot
interrupt it. The web server's request threads can run in the middle of it,
and in the middle of one another.

## Left out

- The HTML page with its CSS and JavaScript polling client is not modelled. That includes its own check that the answer text is not empty.
- The Flask routing and the JSON handling are not modelled. The routes are modelled as methods over plain values. So a missing `request_id` or `response` field, and an `is_error` that is truthy but not a boolean, are not modelled: the fields are a string, a string and a bool.
- The server bootstrap is not modelled: `run_flask`, `main`, the MCP `Server` and stdio wiring, and starting the threads.
- The `logger.info` call that records each queued request is not modelled. It writes a log line and changes no state of the broker.
- `handle_list_tools` is not modelled. It only returns the static schemas of the three tools.
- `uuid.uuid4()` becomes the precondition that the id is in neither map, and `datetime.now().isoformat()` becomes a timestamp parameter.
- Real time and sleeping are not modelled. Time is the `waited` counter, and the web server's request threads are the list of submissions served during each tick.
- Threads interleaving inside a step are modelled only in `TimeoutRace`, at the three points listed under Findings. Elsewhere each step is atomic, and the submissions of one tick are served one after another.
- `SecondAnswerRejected`: holds only for two answers served one after the other. Two request threads that both pass the test at line 485 are the third finding (`DuplicateSubmitOverwrites`).
- Other tool calls running while a call sleeps are not interleaved in `schedule`. They only add and remove their own fresh ids. `OutcomeDependsOnOwnId` shows that a call's outcome depends only on submissions for its own id.
- Turning an exception into an error result is done by the MCP library, which is not part of this model. `ToolResult` states the exception's message as the text of that error result.
- JSON numbers in tool arguments are modelled as integers. The broker never inspects the arguments.
- The source hardcodes the deadline as the literal 300 (`max_wait`), so it is the constant `MaxWait` here, not a broker parameter.
- The source waits by polling once a second, and the model follows that polling design. An event-driven wait is not modelled.

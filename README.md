# Robot command dispatch and task sequencing, modelled in Dafny

This project models two pieces of sequential logic around a MuJoCo robot simulator.

* The **task executor** (`agent/src/runner/executor.py`) takes a planner's list of
  `{subgoal, tasks}` groups and flattens it into one ordered task list. It checks each
  task's `target` against a fixed snapshot of the scene, then checks its `skill`
  (`GoToObject`, `PickObject` or `PlaceObject`). For each task it builds one `run_code`
  envelope whose code moves to, picks at or places at the target's `pos`, and posts the
  envelope to the robot server. It returns every task copied with `result = "Ok"`. The
  first task that raises aborts the whole run. `KeyError` covers an unknown target or a
  missing key, `ValueError` an unknown skill.
* The **robot server** (`robot/llm_main.py`) has two intake endpoints.
  `/send_action` checks an envelope's format and enqueues it. `/llm_command` turns a
  natural-language command into code and can enqueue a `run_code` envelope for it. One
  worker takes envelopes off the head of the FIFO action queue, one per loop iteration.
  It hands the code of `run_code` envelopes to the simulator's code executor. It drops
  other types, and it swallows every `Exception`.

Modules:

* `Envelope` (envelope.dfy): JSON values, request bodies and the `run_code` envelope.
  It also holds Python truthiness and the substring test of `in`.
* `Executor` (executor.dfy): the `TaskExecutor` class, whose `submitted` field is the
  trace of envelopes posted to `/send_action`. Beside it are the specification
  functions `Concat`, `FirstBadGroup`, `TaskCode`, `FirstFailure`, `Envelopes` and
  `Results`, and the lemmas about them.
* `Server` (server.dfy): the `RobotServer` class. It holds the queue, the queue's count
  of unfinished envelopes and `execLog`, the codes handed to the code executor in call
  order. Beside it are the worker's reading of an envelope (`Classify`) and lemmas
  about `RunCodes`, the codes a queue will run.
* `Pipeline` (pipeline.dfy): the two sides together, plus worked examples.
* `Wrappers` (wrappers.dfy): `Option` and `Result`.

Interfaces to things outside the model:

* The executor's HTTP POST is an append to `submitted`. The server's acknowledgement
  is not modelled.
* `code_repository.exec_code` is the parameter `execCode: Json -> bool`. It says
  whether the call returns normally.
* `llm_agent.generate_code` is the parameter `generate: Json -> string`.
* The scene snapshot is passed to the constructor as data. Each object's `pos` is the
  text `str(pos)` gives for it, which is what the f-strings interpolate. For a list of
  numbers this equals its `repr`.

Key invariants:

* `RobotServer.Pending()` is `execLog + RunCodes(queue)`. No worker step changes it.
  An accepted envelope extends it by that envelope's code. `ProcessActionsUntilEmpty`
  runs the worker loop until the queue is empty. It ends with `execLog` equal to the
  `Pending()` it started from. So every queued `run_code` envelope is executed exactly
  once, in arrival order, whether or not earlier executions failed.
* `Execute` submits exactly the envelopes of tasks `0..k-1`, where `k` is the first
  failing task (`FirstFailure`). It returns results only when no task fails.

The docstring of `receive_action` (robot/llm_main.py:121-127) gives the expected body as
an `"action"` object holding `"type"` and `"payload"`. The check at robot/llm_main.py:129
accepts, answering 200, an `"action"` that is a string or list containing those words.
On a number, boolean or null it raises, answering 500 rather than 400 (see Findings). The model
records the code's check exactly (`AcceptsAsWritten`), and uses the corrected check
for `ReceiveAction`.

## Model

| member | source | states |
|---|---|---|
| `Executor.FirstBadGroup` | agent/src/runner/executor.py:19-21 | the index of the first group lacking "subgoal" or "tasks" (or the number of groups): every earlier group is well formed and the group at that index is not |
| `Executor.TaskExecutor.MakeTaskSequence` | agent/src/runner/executor.py:16-25 | with all groups well formed, returns exactly the concatenation of the groups' tasks; otherwise raises the KeyError of the first malformed group ("subgoal" is read before "tasks") |
| `Executor.ConcatLength` | agent/src/runner/executor.py:16-25 | the flattened list's length is the sum of the groups' lengths |
| `Executor.ConcatOrder` | agent/src/runner/executor.py:19-23 | task `ti` of group `gi` sits at position (tasks in groups before `gi`) + `ti`: group order, then in-group order |
| `Executor.ConcatIgnoresSubgoal` | agent/src/runner/executor.py:20 | groups with the same task lists flatten to the same list, whatever their subgoal labels |
| `Executor.GoToCode` | agent/src/runner/executor.py:33-36 | the GoToObject code calls `plan_mobile_path` on the target's position and then `follow_mobile_path(path)` |
| `Executor.GoToPlansBeforeFollowing` | agent/src/runner/executor.py:33-36 | in the GoToObject code the `plan_mobile_path` call on the position ends before the `follow_mobile_path(path)` call begins |
| `Executor.PickCode` | agent/src/runner/executor.py:50-52 | the PickObject code calls `pick_object` on the target's position with tolerances 0.1 and 0.2 |
| `Executor.PlaceCode` | agent/src/runner/executor.py:66-68 | the PlaceObject code calls `place_object` on the target's position with tolerances 0.1 and 0.2 |
| `Executor.SkillCodeInjective` | agent/src/runner/executor.py:27-74 | the code of a skill envelope determines both the skill and the position it was built from |
| `Executor.SkillCodeMentionsPos` | agent/src/runner/executor.py:27-74 | the code of every skill envelope contains the target's position text |
| `Executor.TargetCheckedBeforeSkill` | agent/src/runner/executor.py:86-102 | a task whose target is not in the snapshot raises the KeyError naming the target and all available object names, whatever its skill |
| `Executor.UnknownSkillRejected` | agent/src/runner/executor.py:95-102 | with a known target, a skill other than the three raises ValueError |
| `Executor.TaskCode` | agent/src/runner/executor.py:86-100 | one task's outcome, checked in the source's order. A task that does not raise has a known target, a known skill and a target "pos", and its code is that skill's code for that position. An unknown-object error names the task's target and lists every snapshot name. An unknown skill or a missing "skill" or "pos" key is only reported for a known target |
| `Executor.FirstFailure` | agent/src/runner/executor.py:82-102 | the index of the first task that raises (or the number of tasks): every earlier task succeeds and the task at that index raises |
| `Executor.FirstFailureAt` | agent/src/runner/executor.py:82-105 | if tasks 0..i-1 succeed and task i raises, the run stops exactly at task i |
| `Executor.FirstFailureNone` | agent/src/runner/executor.py:82-108 | if no task raises, the whole list is run |
| `Executor.SuccessfulRun` | agent/src/runner/executor.py:103-108 | a successful run has one result per task, each the task marked "Ok", and one envelope per task carrying that task's code, in task order |
| `Executor.MarkOk` | agent/src/runner/executor.py:103-104 | a result keeps every field of its task and sets "result" to "Ok" |
| `Executor.TaskExecutor.constructor` | agent/src/runner/executor.py:11-14 | the executor holds the given snapshot and has submitted nothing |
| `Executor.TaskExecutor.SendAction` | agent/src/runner/executor.py:40 | posting an envelope appends it to the submitted trace |
| `Executor.TaskExecutor.GoToObject` | agent/src/runner/executor.py:27-40 | submits one run_code envelope that plans and follows a mobile path to the target's pos; without a "pos" it raises KeyError and submits nothing |
| `Executor.TaskExecutor.PickObject` | agent/src/runner/executor.py:44-56 | submits one run_code envelope that picks at the target's pos with tolerances 0.1 and 0.2; without a "pos" it raises KeyError and submits nothing |
| `Executor.TaskExecutor.PlaceObject` | agent/src/runner/executor.py:60-72 | submits one run_code envelope that places at the target's pos with tolerances 0.1 and 0.2; without a "pos" it raises KeyError and submits nothing |
| `Executor.TaskExecutor.RunTask` | agent/src/runner/executor.py:86-102 | runs one task's checks in the source's order; on failure it raises the task's error and submits nothing, otherwise it submits exactly the task's envelope |
| `Executor.TaskExecutor.Execute` | agent/src/runner/executor.py:76-108 | a malformed group raises before anything is submitted. Otherwise it submits exactly the envelopes of the tasks before the first failing one, in order. It returns all tasks marked "Ok" when none fails, and the first failure's exception otherwise |
| `Server.PyContains` | robot/llm_main.py:129 | Python's `in` raises TypeError exactly on a number, boolean or null. On an object it tests the keys, on a list the elements |
| `Server.AcceptsAsWritten` | robot/llm_main.py:129 | the check as written raises exactly when "action" is a number, boolean or null. When "action" is absent or an object, it accepts exactly the bodies whose action holds "type" and "payload" |
| `Server.AsWrittenAcceptsText` | robot/llm_main.py:129 | as written, the check accepts an action that is the text "type payload", which the worker then cannot read |
| `Server.AsWrittenAcceptsList` | robot/llm_main.py:129 | as written, the check accepts an action that is the list ["type", "payload"], which the worker then cannot read |
| `Server.AsWrittenRaisesOnNumber` | robot/llm_main.py:129 | as written, the check raises on a numeric action instead of rejecting it |
| `Server.WellFormedReachesDispatch` | robot/llm_main.py:57-63 | an envelope admitted by the corrected check reaches the worker's type test; it can fault only as a run_code whose payload is not an object |
| `Server.Classify` | robot/llm_main.py:56-63 | the worker runs code only for a well-formed envelope of type "run_code" with an object payload. It drops an envelope whose action object has another type, and faults when the action is missing, is not an object or lacks "type" |
| `Envelope.Truthy` | robot/llm_main.py:164 | the falsy JSON values are exactly null, false, 0, "", [] and {} |
| `Server.LlmCommandDefaults` | robot/llm_main.py:161-162 | `request.get` (`DictGet`) returns a present key's value. A missing "command" reads as the empty string, which is falsy; a missing "execute" reads as true |
| `Server.IsErrorCode` | robot/llm_main.py:178 | the generated code is an error exactly when its first seven characters are "# ERROR" |
| `Server.RunCodesAppend` | robot/llm_main.py:48 | the codes run for two queues one after the other are the first queue's codes, then the second's |
| `Server.RunCodesAtMostOnce` | robot/llm_main.py:54-75 | a queue yields no more codes than it has envelopes |
| `Server.FifoOrder` | robot/llm_main.py:54-65 | for run_code envelopes at queue positions i < j, each one's code sits at its own slot of the execution order, one slot per earlier run_code envelope, and i's slot comes before j's |
| `Server.RunCodeBodyRuns` | robot/llm_main.py:191-196 | the envelope built by /llm_command passes the format check and makes the worker run exactly the generated code |
| `Server.RobotServer.constructor` | robot/llm_main.py:48 | the action queue starts empty, with nothing unfinished and nothing executed |
| `Server.RobotServer.Put` | robot/llm_main.py:130 | put appends at the tail, counts one more unfinished envelope and extends the pending codes by the envelope's code |
| `Server.RobotServer.Get` | robot/llm_main.py:56 | get removes and returns the head; on an empty queue it reports it empty and changes nothing |
| `Server.RobotServer.TaskDone` | robot/llm_main.py:75 | task_done lowers the unfinished count by one |
| `Server.RobotServer.ReceiveAction` | robot/llm_main.py:116-138 | a well-formed envelope is enqueued with 200; anything else gets 400 and leaves the queue unchanged |
| `Server.RobotServer.LlmCommand` | robot/llm_main.py:141-207 | a missing or falsy command gives 400 and a generated "# ERROR" code gives 500, neither enqueuing anything. Otherwise, when "execute" (default true) is truthy, exactly one run_code envelope with the generated code is appended and executed is true; when falsy the queue is unchanged and executed is false |
| `Server.RobotServer.ProcessActionsStep` | robot/llm_main.py:51-82 | one worker iteration. An empty poll changes nothing. Otherwise the head is removed and never put back. Only a run_code envelope reaches the code executor, whose failure is swallowed; other types are dropped. An unreadable envelope is logged without task_done. The pending codes are unchanged |
| `Server.RobotServer.ProcessActionsUntilEmpty` | robot/llm_main.py:53-82 | running the worker loop until the queue is empty hands the executor exactly the codes pending at the start, in order, whatever the executions returned; the unfinished count falls by the number of queued envelopes that were not faulty |
| `Pipeline.SubmittedEnvelopesRunInOrder` | agent/src/runner/executor.py:29-39 | every envelope the executor posts passes /send_action's check, and the worker runs exactly the tasks' skill codes in task order |
| `Pipeline.TableExample` | agent/src/runner/executor.py:76-108 | one GoToObject task on "table" at "[1, 2, 0]" yields one "Ok" result and one envelope that plans and follows a path to "[1, 2, 0]" |
| `Pipeline.UnknownObjectExample` | agent/src/runner/executor.py:86-91 | with only "red_cup" in the snapshot, picking "blue_mug" raises KeyError listing "red_cup" and stops at the first task |
| `Pipeline.FlattenExample` | agent/src/runner/executor.py:16-25 | [{subgoal: s1, tasks: [a, b]}, {subgoal: s2, tasks: [c]}] flattens to [a, b, c] |
| `Pipeline.NoSubgoalRaises` | agent/src/runner/executor.py:19-20 | the same groups without a "subgoal" key stop at the first group with KeyError('subgoal') |

## Left out

- Server.RobotServer.ProcessActionsUntilEmpty: stops once the queue is empty. The source loop keeps polling forever, and each further empty poll changes nothing (`ProcessActionsStep`).
- `code_repository.exec_code` raising a `BaseException` that is not an `Exception`, such as `SystemExit` from `exit()` in submitted code. It escapes both handlers (robot/llm_main.py:67, 79) and ends the worker loop (robot/llm_main.py:54-82), after which envelopes are still accepted but never run. `execCode` covers only a normal return or an `Exception`, so `ProcessActionsUntilEmpty`'s exactly-once result assumes no such exit.
- Threads, daemon start-up, `time.sleep` and the 0.1 s poll timeout (robot/llm_main.py:515-550, 56). The queue is used sequentially, and producers running concurrently with the worker are not modelled. The single-consumer FIFO discipline is modelled.
- FastAPI, uvicorn and CORS set-up, the `/` and `/ui` endpoints and the HTML/JS page: transport and presentation only.
- `simulator.run` and `run_simulator`: the simulator is outside the model. `code_repository.exec_code` is the parameter `execCode`, which gives only whether the call returns normally; its effect on the simulator is not modelled.
- `llm_agent.generate_code` is the parameter `generate`, a total function. An exception raised by it, which the endpoint's outer handler turns into a 500, is not modelled.
- The `/env` request in the executor's constructor and the `url` field: the snapshot is a constructor parameter. The `[]` default for a missing "objects" key is not modelled; the snapshot is always a map.
- Reading `response.json()["result"]` after each post (agent/src/runner/executor.py:41, 57, 73), and every print, log and `pprint` call. The reply of `/send_action` (robot/llm_main.py:131-134) has no "result" key, so against this server the first post is followed by a KeyError and `execute` returns no results. `Executor.TaskExecutor.Execute`'s success branch and `Pipeline.SubmittedEnvelopesRunInOrder` describe an executor whose server's reply carries "result".
- Position formatting: `pos` is kept as the text `str(pos)` gives.
- Executor.ExecError: the exception messages are structured data, not text. The available object names form a set, so the dict's key order in the message is not modelled.
- Executor.Task: task fields are strings and group fields are a string and a list of tasks. Planner output of other JSON types (such as a non-list "tasks") is not modelled.
- Envelope.Json: JSON numbers are integers, so floats (and the falsity of 0.0) are not modelled.
- Server.RobotServer.ReceiveAction: uses the corrected format check. The source's behaviour on string, list and scalar actions is captured by `Server.AcceptsAsWritten` and its lemmas (see Findings).
- The reply bodies' fixed texts (`"action_feedback": "good"`, error messages): only status codes and the data-bearing fields are modelled.

## Findings

| source | as written | input that shows it | evidently intended | confidence | as-written member | corrected member |
|---|---|---|---|---|---|---|
| robot/llm_main.py:129 | `"type" in action["action"] and "payload" in action["action"]` applies Python's `in` to whatever "action" holds. On a string that is a substring test, on a list an element test, and on a number, boolean or null it raises TypeError | `{"action": "type payload"}` or `{"action": ["type", "payload"]}` gets 200 and is enqueued, then the worker faults on it without running anything or calling task_done; `{"action": 5}` gets 500 instead of 400 | accept only an "action" object that has both "type" and "payload" keys, and answer 400 to everything else | medium, not executed | `Server.AcceptsAsWritten`, `Server.AsWrittenAcceptsText` | `Server.WellFormed`, `Server.WellFormedReachesDispatch` |

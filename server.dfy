/**
 * The robot server's action intake and dispatch: the /send_action and
 * /llm_command endpoints put envelopes on one FIFO action queue, and a single
 * worker takes them off the head one at a time, hands the code of `run_code`
 * envelopes to the simulator's code executor and survives every failure.
 */
module Server {
  import opened Wrappers
  import opened Envelope

  // ---------------------------------------------------------------------------
  // The /send_action format check

  /**
   * Python's `key in container` on a JSON value: a key test on an object, a
   * substring test on a string, an element test on a list; None stands for
   * the TypeError raised on a number, a boolean or null.
   */
  function PyContains(container: Json, key: string): (r: Option<bool>)
    ensures r.None? <==> container.JNull? || container.JBool? || container.JNum?
    ensures container.JObject? ==> r == Some(key in container.fields)
    ensures container.JList? ==> r == Some(exists k :: 0 <= k < |container.items| && container.items[k] == JStr(key))
  {
    match container
    case JObject(fields) => Some(key in fields)
    case JStr(s) => Some(HasSubstring(s, key))
    case JList(items) => Some(JStr(key) in items)
    case _ => None
  }

  /**
   * The check `"action" in a and "type" in a["action"] and "payload" in a["action"]`
   * as written, short-circuiting left to right; None when it raises.
   */
  function AcceptsAsWritten(body: Body): (r: Option<bool>)
    ensures ("action" in body ==> body["action"].JObject?) ==> r == Some(WellFormed(body))
    ensures r.None? <==> "action" in body && (body["action"].JNull? || body["action"].JBool? || body["action"].JNum?)
  {
    if "action" !in body then Some(false)
    else match PyContains(body["action"], "type")
      case None => None
      case Some(found) => if !found then Some(false) else PyContains(body["action"], "payload")
  }

  /** The corrected check: "action" is an object holding both "type" and "payload". */
  predicate WellFormed(body: Body)
  {
    "action" in body && body["action"].JObject?
    && "type" in body["action"].fields && "payload" in body["action"].fields
  }

  /** As written, a text action containing both words passes the check, and the worker then faults on it. */
  lemma AsWrittenAcceptsText()
    ensures AcceptsAsWritten(map["action" := JStr("type payload")]) == Some(true)
    ensures !WellFormed(map["action" := JStr("type payload")])
    ensures Classify(map["action" := JStr("type payload")]) == Faulty
  {
    var s := "type payload";
    assert s[..4] == "type";
    assert s[5..][..7] == "payload";
    assert s[1..][1..][1..][1..][1..] == s[5..];
  }

  /** As written, a list of the two words passes the check, and the worker then faults on it. */
  lemma AsWrittenAcceptsList()
    ensures AcceptsAsWritten(map["action" := JList([JStr("type"), JStr("payload")])]) == Some(true)
    ensures !WellFormed(map["action" := JList([JStr("type"), JStr("payload")])])
    ensures Classify(map["action" := JList([JStr("type"), JStr("payload")])]) == Faulty
  {
  }

  /** As written, a numeric action makes the check raise (an HTTP 500) instead of answering 400. */
  lemma AsWrittenRaisesOnNumber()
    ensures AcceptsAsWritten(map["action" := JNum(5)]) == None
  {
  }

  /**
   * The corrected check admits only envelopes the worker can read up to the
   * type: an admitted envelope faults only when it is a `run_code` whose
   * payload is not an object.
   */
  lemma WellFormedReachesDispatch(body: Body)
    requires WellFormed(body)
    ensures Classify(body).Faulty? ==>
      body["action"].fields["type"] == JStr("run_code") && !body["action"].fields["payload"].JObject?
  {
  }

  // ---------------------------------------------------------------------------
  // What the worker does with one envelope

  /** How the worker treats an envelope: run its code, drop it, or fault in its outer handler. */
  datatype Kind = RunCode(code: Json) | OtherType | Faulty

  /**
   * The worker's reading of `action["action"]`, its "type" and
   * `["payload"].get("code")`: a missing key, a non-object action or a
   * non-object payload raises; a type other than "run_code" is skipped.
   */
  function Classify(env: Body): (k: Kind)
    ensures k.RunCode? ==> WellFormed(env) && env["action"].fields["type"] == JStr("run_code")
    ensures k.RunCode? ==> env["action"].fields["payload"].JObject?
    ensures k.OtherType? ==>
      "action" in env && env["action"].JObject? && "type" in env["action"].fields
      && env["action"].fields["type"] != JStr("run_code")
    ensures !("action" in env && env["action"].JObject? && "type" in env["action"].fields) ==> k.Faulty?
    ensures ("action" in env && env["action"].JObject? && "type" in env["action"].fields
             && env["action"].fields["type"] != JStr("run_code")) ==> k == OtherType
  {
    if "action" !in env then Faulty
    else match env["action"]
      case JObject(action) =>
        if "type" !in action then Faulty
        else if action["type"] != JStr("run_code") then OtherType
        else if "payload" !in action then Faulty
        else (match action["payload"]
          case JObject(payload) => RunCode(DictGet(payload, "code", JNull))
          case _ => Faulty)
      case _ => Faulty
  }

  /** The codes the worker hands to the executor for a queue, in queue order. */
  function RunCodes(queue: seq<Body>): seq<Json>
  {
    if queue == [] then []
    else (match Classify(queue[0]) case RunCode(c) => [c] case _ => []) + RunCodes(queue[1..])
  }

  lemma {:induction false} RunCodesAppend(a: seq<Body>, b: seq<Body>)
    ensures RunCodes(a + b) == RunCodes(a) + RunCodes(b)
  {
    if a == [] {
      assert a + b == b;
    } else {
      assert (a + b)[1..] == a[1..] + b;
      assert (a + b)[0] == a[0];
      RunCodesAppend(a[1..], b);
    }
  }

  /** The number of envelopes in a queue that the worker marks done: all but the faulty ones. */
  function DoneCount(queue: seq<Body>): (n: nat)
    ensures n <= |queue|
  {
    if queue == [] then 0
    else (if Classify(queue[0]).Faulty? then 0 else 1) + DoneCount(queue[1..])
  }

  /** A queue yields no more codes than it holds envelopes. */
  lemma {:induction false} RunCodesAtMostOnce(queue: seq<Body>)
    ensures |RunCodes(queue)| <= |queue|
  {
    if queue != [] {
      RunCodesAtMostOnce(queue[1..]);
    }
  }

  /**
   * FIFO: of two `run_code` envelopes, the one enqueued first has its code
   * executed first.
   */
  lemma FifoOrder(queue: seq<Body>, i: nat, j: nat)
    requires i < j < |queue|
    requires Classify(queue[i]).RunCode? && Classify(queue[j]).RunCode?
    ensures |RunCodes(queue[..i])| < |RunCodes(queue[..j])| < |RunCodes(queue)|
    ensures RunCodes(queue)[|RunCodes(queue[..i])|] == Classify(queue[i]).code
    ensures RunCodes(queue)[|RunCodes(queue[..j])|] == Classify(queue[j]).code
  {
    assert queue == queue[..i] + [queue[i]] + queue[i + 1..j] + [queue[j]] + queue[j + 1..];
    RunCodesAppend(queue[..i] + [queue[i]] + queue[i + 1..j] + [queue[j]], queue[j + 1..]);
    RunCodesAppend(queue[..i] + [queue[i]] + queue[i + 1..j], [queue[j]]);
    RunCodesAppend(queue[..i] + [queue[i]], queue[i + 1..j]);
    RunCodesAppend(queue[..i], [queue[i]]);
    assert queue[..j] == queue[..i] + [queue[i]] + queue[i + 1..j];
  }

  /** An envelope built by /llm_command passes the check and runs exactly the generated code. */
  lemma RunCodeBodyRuns(code: string)
    ensures WellFormed(RunCodeBody(code))
    ensures Classify(RunCodeBody(code)) == RunCode(JStr(code))
    ensures RunCodes([RunCodeBody(code)]) == [JStr(code)]
  {
  }

  // ---------------------------------------------------------------------------
  // Endpoint replies and worker steps

  /**
   * /llm_command's defaults: a request without "command" is treated as having
   * an empty one and so has no command; one without "execute" enqueues.
   */
  lemma LlmCommandDefaults(request: Body)
    ensures "command" !in request ==> !Truthy(DictGet(request, "command", JStr("")))
    ensures "execute" !in request ==> Truthy(DictGet(request, "execute", JBool(true)))
    ensures "command" in request ==> DictGet(request, "command", JStr("")) == request["command"]
    ensures "execute" in request ==> DictGet(request, "execute", JBool(true)) == request["execute"]
  {
  }

  datatype SendReply = Accepted | InvalidFormat
  {
    function Status(): int { if Accepted? then 200 else 400 }
  }

  datatype LlmReply =
    | NoCommand                                         // 400
    | GenerationError(command: Json, error: string)     // 500
    | Generated(command: Json, code: string, executed: bool)  // 200
  {
    function Status(): int
    {
      match this
      case NoCommand => 400
      case GenerationError(_, _) => 500
      case Generated(_, _, _) => 200
    }
  }

  /** The generator signals failure by code starting with "# ERROR". */
  predicate IsErrorCode(code: string)
    ensures IsErrorCode(code) <==> |code| >= 7 && code[..7] == "# ERROR"
  {
    "# ERROR" <= code
  }

  /** What one iteration of the worker loop did. */
  datatype StepResult =
    | Idle                                  // the poll found the queue empty
    | Executed(code: Json, succeeded: bool) // a run_code envelope was handed to the executor
    | Dropped                               // an envelope of another type was consumed unexecuted
    | Faulted                               // the envelope could not be read; the error was logged

  class RobotServer {
    /** The action queue, head first. */
    var queue: seq<Body>
    /** The queue's count of envelopes put and not yet marked done. */
    var unfinished: nat
    /** Every code handed to the simulator's code executor, in call order. */
    var execLog: seq<Json>

    ghost predicate Valid()
      reads this
    {
      |queue| <= unfinished
    }

    /** The codes executed so far followed by those still waiting in the queue. */
    ghost function Pending(): seq<Json>
      reads this
    {
      execLog + RunCodes(queue)
    }

    constructor ()
      ensures Valid() && queue == [] && unfinished == 0 && execLog == []
    {
      queue, unfinished, execLog := [], 0, [];
    }

    /** `actions_queue.put`: appends at the tail. */
    method Put(env: Body)
      requires Valid()
      modifies this
      ensures Valid()
      ensures queue == old(queue) + [env] && unfinished == old(unfinished) + 1 && execLog == old(execLog)
      ensures Pending() == old(Pending()) + RunCodes([env])
    {
      RunCodesAppend(queue, [env]);
      queue := queue + [env];
      unfinished := unfinished + 1;
    }

    /** `actions_queue.get(timeout)`: removes the head, or reports the queue empty. */
    method Get() returns (env: Option<Body>)
      requires Valid()
      modifies this
      ensures old(queue) == [] ==> env == None && queue == old(queue)
      ensures old(queue) != [] ==> env == Some(old(queue)[0]) && queue == old(queue)[1..]
      ensures unfinished == old(unfinished) && execLog == old(execLog)
      ensures env.Some? ==> |queue| < unfinished
    {
      if queue == [] {
        return None;
      }
      env := Some(queue[0]);
      queue := queue[1..];
    }

    /** `actions_queue.task_done`, called once per envelope taken. */
    method TaskDone()
      requires |queue| < unfinished
      modifies this
      ensures Valid()
      ensures unfinished == old(unfinished) - 1 && queue == old(queue) && execLog == old(execLog)
    {
      unfinished := unfinished - 1;
    }

    /** POST /send_action: enqueues a well-formed envelope (200), rejects anything else (400). */
    method ReceiveAction(body: Body) returns (reply: SendReply)
      requires Valid()
      modifies this
      ensures Valid()
      ensures reply == (if WellFormed(body) then Accepted else InvalidFormat)
      ensures WellFormed(body) ==>
        queue == old(queue) + [body] && unfinished == old(unfinished) + 1
        && Pending() == old(Pending()) + RunCodes([body])
      ensures !WellFormed(body) ==> queue == old(queue) && unfinished == old(unfinished)
      ensures execLog == old(execLog)
    {
      if WellFormed(body) {
        Put(body);
        return Accepted;
      }
      return InvalidFormat;
    }

    /**
     * POST /llm_command: a missing or falsy "command" answers 400; code from
     * the generator starting with "# ERROR" answers 500; otherwise, when
     * "execute" (default true) is truthy, one run_code envelope carrying the
     * generated code is enqueued, and the reply says whether it was.
     */
    method LlmCommand(request: Body, generate: Json -> string) returns (reply: LlmReply)
      requires Valid()
      modifies this
      ensures Valid() && execLog == old(execLog)
      ensures var command := DictGet(request, "command", JStr(""));
        !Truthy(command) ==>
          reply == NoCommand && queue == old(queue) && unfinished == old(unfinished)
      ensures var command := DictGet(request, "command", JStr(""));
        Truthy(command) && IsErrorCode(generate(command)) ==>
          reply == GenerationError(command, generate(command))
          && queue == old(queue) && unfinished == old(unfinished)
      ensures var command := DictGet(request, "command", JStr(""));
        var auto := Truthy(DictGet(request, "execute", JBool(true)));
        Truthy(command) && !IsErrorCode(generate(command)) ==>
          reply == Generated(command, generate(command), auto)
          && queue == old(queue) + (if auto then [RunCodeBody(generate(command))] else [])
          && unfinished == old(unfinished) + (if auto then 1 else 0)
          && Pending() == old(Pending()) + (if auto then [JStr(generate(command))] else [])
    {
      var userCommand := DictGet(request, "command", JStr(""));
      var autoExecute := DictGet(request, "execute", JBool(true));
      if !Truthy(userCommand) {
        return NoCommand;
      }
      var generatedCode := generate(userCommand);
      if IsErrorCode(generatedCode) {
        return GenerationError(userCommand, generatedCode);
      }
      var executed := false;
      if Truthy(autoExecute) {
        RunCodeBodyRuns(generatedCode);
        Put(RunCodeBody(generatedCode));
        executed := true;
      }
      return Generated(userCommand, generatedCode, executed);
    }

    /**
     * The worker loop run until the queue is empty: every code pending at the
     * start, and only those, has been handed to the executor, in queue order,
     * whatever the executions returned. Every envelope but the faulty ones
     * has been marked done.
     */
    method ProcessActionsUntilEmpty(execCode: Json -> bool)
      requires Valid()
      modifies this
      ensures Valid() && queue == [] && execLog == old(Pending())
      ensures unfinished == old(unfinished) - DoneCount(old(queue))
    {
      while queue != []
        invariant Valid() && Pending() == old(Pending())
        invariant unfinished + DoneCount(old(queue)) == old(unfinished) + DoneCount(queue)
        decreases |queue|
      {
        var step := ProcessActionsStep(execCode);
      }
    }

    /**
     * One iteration of the worker loop. `execCode` tells whether the
     * simulator's code executor returns normally on a code; when it raises,
     * the error is swallowed and the envelope is not put back.
     */
    method ProcessActionsStep(execCode: Json -> bool) returns (step: StepResult)
      requires Valid()
      modifies this
      ensures Valid()
      ensures Pending() == old(Pending())
      ensures old(queue) == [] ==>
        step == Idle && queue == old(queue) && unfinished == old(unfinished) && execLog == old(execLog)
      ensures old(queue) != [] ==> queue == old(queue)[1..]
      ensures old(queue) != [] && Classify(old(queue)[0]).RunCode? ==>
        var c := Classify(old(queue)[0]).code;
        step == Executed(c, execCode(c)) && execLog == old(execLog) + [c] && unfinished == old(unfinished) - 1
      ensures old(queue) != [] && Classify(old(queue)[0]).OtherType? ==>
        step == Dropped && execLog == old(execLog) && unfinished == old(unfinished) - 1
      ensures old(queue) != [] && Classify(old(queue)[0]).Faulty? ==>
        step == Faulted && execLog == old(execLog) && unfinished == old(unfinished)
    {
      var taken := Get();
      if taken.None? {
        return Idle;
      }
      assert old(queue) == [taken.value] + queue;
      RunCodesAppend([taken.value], queue);
      match Classify(taken.value)
      case Faulty =>
        step := Faulted;
      case OtherType =>
        TaskDone();
        step := Dropped;
      case RunCode(code) =>
        execLog := execLog + [code];
        var succeeded := execCode(code);
        TaskDone();
        step := Executed(code, succeeded);
    }
  }
}

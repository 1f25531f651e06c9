/**
 * The client-side task executor: it flattens a planner's task groups into one
 * ordered task list, checks every task against a fixed snapshot of the scene,
 * turns each skill into a `run_code` envelope and submits the envelopes to the
 * robot server one by one, returning the tasks marked "Ok".
 */
module Executor {
  import opened Wrappers
  import opened Envelope

  /** A task as the planner produces it: a dict with at least "skill" and "target". */
  type Task = map<string, string>

  /** One planner output `{"subgoal": ..., "tasks": [...]}`; None is a missing key. */
  datatype TaskGroup = TaskGroup(subgoal: Option<string>, tasks: Option<seq<Task>>)

  /**
   * An entry of the scene snapshot; `pos` is the text `str()` gives for the
   * object's position (the f-strings format it that way), None when the entry
   * has no "pos" key.
   */
  datatype SceneObject = SceneObject(pos: Option<string>)

  /** The three skills the executor can translate. */
  datatype Skill = GoTo | Pick | Place

  /** The exceptions `execute` raises. */
  datatype ExecError =
    | MissingKey(key: string)                              // KeyError on a dict lookup
    | UnknownObject(target: string, available: set<string>) // KeyError for an unknown target
    | UnknownSkill(skill: string)                          // ValueError
  {
    /** Both lookup failures surface as Python's KeyError. */
    predicate IsKeyError() { MissingKey? || UnknownObject? }
  }

  // ---------------------------------------------------------------------------
  // Flattening the task groups

  predicate GroupOk(g: TaskGroup)
  {
    g.subgoal.Some? && g.tasks.Some?
  }

  /** The KeyError a malformed group raises: "subgoal" is read before "tasks". */
  function GroupError(g: TaskGroup): ExecError
  {
    if g.subgoal.None? then MissingKey("subgoal") else MissingKey("tasks")
  }

  function TasksOf(g: TaskGroup): seq<Task>
  {
    if g.tasks.Some? then g.tasks.value else []
  }

  /** Reference definition: the groups' task lists, concatenated in group order. */
  function Concat(groups: seq<TaskGroup>): seq<Task>
  {
    if groups == [] then [] else TasksOf(groups[0]) + Concat(groups[1..])
  }

  /** The sum of the groups' lengths. */
  function TotalTasks(groups: seq<TaskGroup>): nat
  {
    if groups == [] then 0 else |TasksOf(groups[0])| + TotalTasks(groups[1..])
  }

  /** The index of the first malformed group, or |groups| when every group is well formed. */
  function FirstBadGroup(groups: seq<TaskGroup>): (k: nat)
    ensures k <= |groups|
    ensures forall j :: 0 <= j < k ==> GroupOk(groups[j])
    ensures k < |groups| ==> !GroupOk(groups[k])
  {
    if groups == [] then 0
    else if !GroupOk(groups[0]) then 0
    else 1 + FirstBadGroup(groups[1..])
  }

  lemma {:induction false} ConcatSnoc(groups: seq<TaskGroup>, g: TaskGroup)
    ensures Concat(groups + [g]) == Concat(groups) + TasksOf(g)
  {
    if groups == [] {
      assert [g][1..] == [];
    } else {
      assert (groups + [g])[1..] == groups[1..] + [g];
      ConcatSnoc(groups[1..], g);
    }
  }

  /** The flattened list is as long as all the groups together. */
  lemma {:induction false} ConcatLength(groups: seq<TaskGroup>)
    ensures |Concat(groups)| == TotalTasks(groups)
  {
    if groups != [] {
      ConcatLength(groups[1..]);
    }
  }

  /**
   * Group order, then in-group order: task `ti` of group `gi` sits after all
   * tasks of the earlier groups.
   */
  lemma {:induction false} ConcatOrder(groups: seq<TaskGroup>, gi: nat, ti: nat)
    requires gi < |groups| && ti < |TasksOf(groups[gi])|
    ensures TotalTasks(groups[..gi]) + ti < |Concat(groups)|
    ensures Concat(groups)[TotalTasks(groups[..gi]) + ti] == TasksOf(groups[gi])[ti]
  {
    ConcatLength(groups);
    if gi == 0 {
      assert groups[..0] == [];
    } else {
      var rest := groups[1..];
      assert groups[..gi][1..] == rest[..gi - 1];
      assert groups[..gi][0] == groups[0];
      assert rest[gi - 1] == groups[gi];
      ConcatOrder(rest, gi - 1, ti);
    }
  }

  /** The subgoal labels play no part in the flattened list. */
  lemma {:induction false} ConcatIgnoresSubgoal(groups: seq<TaskGroup>, relabelled: seq<TaskGroup>)
    requires |relabelled| == |groups|
    requires forall j :: 0 <= j < |groups| ==> relabelled[j].tasks == groups[j].tasks
    ensures Concat(relabelled) == Concat(groups)
  {
    if groups != [] {
      ConcatIgnoresSubgoal(groups[1..], relabelled[1..]);
    }
  }

  // ---------------------------------------------------------------------------
  // Skill translation

  /** The skill a task's "skill" string names, if it is one of the three. */
  function ParseSkill(name: string): Option<Skill>
  {
    if name == "GoToObject" then Some(GoTo)
    else if name == "PickObject" then Some(Pick)
    else if name == "PlaceObject" then Some(Place)
    else None
  }

  /** Code submitted for GoToObject: plan a mobile path to `pos`, then follow it. */
  function GoToCode(pos: string): (code: string)
    ensures HasSubstring(code, "plan_mobile_path(" + pos + ")")
    ensures HasSubstring(code, "follow_mobile_path(path)")
  {
    var plan := "plan_mobile_path(" + pos + ")";
    TwoStatements("\npath = ", plan, "\nresult = ", "follow_mobile_path(path)", "\n");
    "\npath = " + plan + "\nresult = " + "follow_mobile_path(path)" + "\n"
  }

  /** Both calls of a two-statement snippet `a b c d e` are found in it. */
  lemma TwoStatements(a: string, b: string, c: string, d: string, e: string)
    ensures HasSubstring(a + b + c + d + e, b) && HasSubstring(a + b + c + d + e, d)
  {
    assert a + b + (c + d + e) == a + b + c + d + e;
    SubstringOfSandwich(a, b, c + d + e);
    SubstringOfSandwich(a + b + c, d, e);
  }

  /** In a two-statement snippet `a b c d e`, `b` lies before the cut after it and `d` after that cut. */
  lemma TwoStatementsOrdered(a: string, b: string, c: string, d: string, e: string)
    ensures var s := a + b + c + d + e;
      HasSubstring(s[..|a + b|], b) && HasSubstring(s[|a + b|..], d)
  {
    var s := a + b + c + d + e;
    assert s[..|a + b|] == a + b + [];
    assert s[|a + b|..] == c + d + e;
    SubstringOfSandwich(a, b, []);
    SubstringOfSandwich(c, d, e);
  }

  /** GoToObject's code plans the path before following it: the first call ends before the second begins. */
  lemma GoToPlansBeforeFollowing(pos: string)
    ensures var code := GoToCode(pos);
      var cut := |"\npath = " + ("plan_mobile_path(" + pos + ")")|;
      cut <= |code|
      && HasSubstring(code[..cut], "plan_mobile_path(" + pos + ")")
      && HasSubstring(code[cut..], "follow_mobile_path(path)")
  {
    TwoStatementsOrdered("\npath = ", "plan_mobile_path(" + pos + ")", "\nresult = ", "follow_mobile_path(path)", "\n");
  }

  /** The position inside the first call of a two-statement snippet is found in it. */
  lemma PosInFirstCall(a: string, q: string, x: string, r: string, c: string, d: string, e: string)
    ensures HasSubstring(a + (q + x + r) + c + d + e, x)
  {
    assert a + (q + x + r) + c + d + e == (a + q) + x + (r + c + d + e);
    SubstringOfSandwich(a + q, x, r + c + d + e);
  }

  /** Two two-statement snippets that differ only in the first call's argument have equal arguments. */
  lemma FirstCallInjective(a: string, q: string, x: string, y: string, r: string, c: string, d: string, e: string)
    requires a + (q + x + r) + c + d + e == a + (q + y + r) + c + d + e
    ensures x == y
  {
    assert a + (q + x + r) + c + d + e == (a + q) + x + (r + c + d + e);
    assert a + (q + y + r) + c + d + e == (a + q) + y + (r + c + d + e);
    Sandwich(a + q, x, y, r + c + d + e);
  }

  /** Code submitted for PickObject: grasp at `pos` with the fixed tolerances 0.1 and 0.2. */
  function PickCode(pos: string): (code: string)
    ensures HasSubstring(code, "pick_object(" + pos + ", 0.1, 0.2)")
  {
    var code := "\nresult = pick_object(" + pos + ", 0.1, 0.2)\n";
    assert code == "\nresult = " + ("pick_object(" + pos + ", 0.1, 0.2)") + "\n";
    SubstringOfSandwich("\nresult = ", "pick_object(" + pos + ", 0.1, 0.2)", "\n");
    code
  }

  /** Code submitted for PlaceObject: release at `pos` with the fixed tolerances 0.1 and 0.2. */
  function PlaceCode(pos: string): (code: string)
    ensures HasSubstring(code, "place_object(" + pos + ", 0.1, 0.2)")
  {
    var code := "\nresult = place_object(" + pos + ", 0.1, 0.2)\n";
    assert code == "\nresult = " + ("place_object(" + pos + ", 0.1, 0.2)") + "\n";
    SubstringOfSandwich("\nresult = ", "place_object(" + pos + ", 0.1, 0.2)", "\n");
    code
  }

  function SkillCode(skill: Skill, pos: string): string
  {
    match skill
    case GoTo => GoToCode(pos)
    case Pick => PickCode(pos)
    case Place => PlaceCode(pos)
  }

  lemma Sandwich(pre: string, a: string, b: string, post: string)
    requires pre + a + post == pre + b + post
    ensures a == b
  {
    var c := pre + a + post;
    assert |a| == |b|;
    assert a == c[|pre|..|pre| + |a|];
    assert b == (pre + b + post)[|pre|..|pre| + |b|];
  }

  /** The submitted code determines both the skill and the position. */
  lemma SkillCodeInjective(s1: Skill, p1: string, s2: Skill, p2: string)
    requires SkillCode(s1, p1) == SkillCode(s2, p2)
    ensures s1 == s2 && p1 == p2
  {
    var c := SkillCode(s1, p1);
    assert c == SkillCode(s2, p2);
    assert SkillCode(GoTo, p1)[1] == 'p' && SkillCode(GoTo, p2)[1] == 'p';
    assert SkillCode(Pick, p1)[1] == 'r' && SkillCode(Pick, p2)[1] == 'r';
    assert SkillCode(Place, p1)[1] == 'r' && SkillCode(Place, p2)[1] == 'r';
    assert SkillCode(Pick, p1)[11] == 'i' && SkillCode(Pick, p2)[11] == 'i';
    assert SkillCode(Place, p1)[11] == 'l' && SkillCode(Place, p2)[11] == 'l';
    assert s1 == s2;
    match s1
    case GoTo =>
      FirstCallInjective("\npath = ", "plan_mobile_path(", p1, p2, ")", "\nresult = ", "follow_mobile_path(path)", "\n");
    case Pick => Sandwich("\nresult = pick_object(", p1, p2, ", 0.1, 0.2)\n");
    case Place => Sandwich("\nresult = place_object(", p1, p2, ", 0.1, 0.2)\n");
  }

  /** Every skill's code mentions the target's position. */
  lemma SkillCodeMentionsPos(skill: Skill, pos: string)
    ensures HasSubstring(SkillCode(skill, pos), pos)
  {
    match skill
    case GoTo => PosInFirstCall("\npath = ", "plan_mobile_path(", pos, ")", "\nresult = ", "follow_mobile_path(path)", "\n");
    case Pick => SubstringOfSandwich("\nresult = pick_object(", pos, ", 0.1, 0.2)\n");
    case Place => SubstringOfSandwich("\nresult = place_object(", pos, ", 0.1, 0.2)\n");
  }

  // ---------------------------------------------------------------------------
  // What executing one task and a whole list means

  /**
   * The code submitted for one task, or the exception raised for it, checked
   * in the source's order: target key, known target, skill key, known skill,
   * then the target's "pos".
   */
  function TaskCode(objectMap: map<string, SceneObject>, task: Task): (r: Result<string, ExecError>)
    ensures r.Success? ==>
      "target" in task && task["target"] in objectMap && "skill" in task
      && ParseSkill(task["skill"]).Some? && objectMap[task["target"]].pos.Some?
      && r.value == SkillCode(ParseSkill(task["skill"]).value, objectMap[task["target"]].pos.value)
    ensures r.Failure? && r.error.UnknownObject? ==>
      "target" in task && r.error.target == task["target"] && task["target"] !in objectMap
      && r.error.available == objectMap.Keys
    ensures r.Failure? && (r.error.UnknownSkill? || r.error == MissingKey("skill") || r.error == MissingKey("pos")) ==>
      "target" in task && task["target"] in objectMap
  {
    if "target" !in task then Failure(MissingKey("target"))
    else if task["target"] !in objectMap then Failure(UnknownObject(task["target"], objectMap.Keys))
    else if "skill" !in task then Failure(MissingKey("skill"))
    else match ParseSkill(task["skill"])
      case None => Failure(UnknownSkill(task["skill"]))
      case Some(skill) =>
        match objectMap[task["target"]].pos
        case None => Failure(MissingKey("pos"))
        case Some(pos) => Success(SkillCode(skill, pos))
  }

  predicate AllSucceed(objectMap: map<string, SceneObject>, tasks: seq<Task>)
  {
    forall j :: 0 <= j < |tasks| ==> TaskCode(objectMap, tasks[j]).Success?
  }

  /** The index of the first task that raises, or |tasks| when none does. */
  function FirstFailure(objectMap: map<string, SceneObject>, tasks: seq<Task>): (k: nat)
    ensures k <= |tasks|
    ensures forall j :: 0 <= j < k ==> TaskCode(objectMap, tasks[j]).Success?
    ensures k < |tasks| ==> TaskCode(objectMap, tasks[k]).Failure?
  {
    if tasks == [] then 0
    else if TaskCode(objectMap, tasks[0]).Failure? then 0
    else 1 + FirstFailure(objectMap, tasks[1..])
  }

  /** The envelopes submitted for tasks that all succeed, one per task, in order. */
  function Envelopes(objectMap: map<string, SceneObject>, tasks: seq<Task>): seq<Body>
    requires AllSucceed(objectMap, tasks)
  {
    seq(|tasks|, j requires 0 <= j < |tasks| => RunCodeBody(TaskCode(objectMap, tasks[j]).value))
  }

  /** A copy of the task with its "result" set to "Ok". */
  function MarkOk(task: Task): (result: Task)
    ensures result.Keys == task.Keys + {"result"}
    ensures result["result"] == "Ok"
    ensures forall key :: key in task && key != "result" ==> result[key] == task[key]
  {
    task["result" := "Ok"]
  }

  function Results(tasks: seq<Task>): seq<Task>
  {
    seq(|tasks|, j requires 0 <= j < |tasks| => MarkOk(tasks[j]))
  }

  lemma EnvelopesSnoc(objectMap: map<string, SceneObject>, tasks: seq<Task>, i: nat)
    requires i < |tasks| && AllSucceed(objectMap, tasks[..i]) && TaskCode(objectMap, tasks[i]).Success?
    ensures AllSucceed(objectMap, tasks[..i + 1])
    ensures Envelopes(objectMap, tasks[..i + 1])
         == Envelopes(objectMap, tasks[..i]) + [RunCodeBody(TaskCode(objectMap, tasks[i]).value)]
    ensures Results(tasks[..i + 1]) == Results(tasks[..i]) + [MarkOk(tasks[i])]
  {
    assert tasks[..i + 1] == tasks[..i] + [tasks[i]];
  }

  /** An unknown target is reported as such whatever the task's skill is. */
  lemma TargetCheckedBeforeSkill(objectMap: map<string, SceneObject>, task: Task)
    requires "target" in task && task["target"] !in objectMap
    ensures TaskCode(objectMap, task) == Failure(UnknownObject(task["target"], objectMap.Keys))
    ensures TaskCode(objectMap, task).error.IsKeyError()
  {
  }

  /** A skill other than the three raises ValueError once the target is known. */
  lemma UnknownSkillRejected(objectMap: map<string, SceneObject>, task: Task)
    requires "target" in task && task["target"] in objectMap
    requires "skill" in task && task["skill"] !in {"GoToObject", "PickObject", "PlaceObject"}
    ensures TaskCode(objectMap, task) == Failure(UnknownSkill(task["skill"]))
  {
  }

  /**
   * The run stops at the first failing task: if tasks 0..i-1 succeed and task
   * i fails, the failure index is i, so exactly tasks 0..i-1 were submitted.
   */
  lemma FirstFailureAt(objectMap: map<string, SceneObject>, tasks: seq<Task>, i: nat)
    requires i < |tasks|
    requires forall j :: 0 <= j < i ==> TaskCode(objectMap, tasks[j]).Success?
    requires TaskCode(objectMap, tasks[i]).Failure?
    ensures FirstFailure(objectMap, tasks) == i
  {
  }

  /** No failing task means the whole list is executed. */
  lemma FirstFailureNone(objectMap: map<string, SceneObject>, tasks: seq<Task>)
    requires AllSucceed(objectMap, tasks)
    ensures FirstFailure(objectMap, tasks) == |tasks|
  {
  }

  /** A successful run yields one result per task, each the task marked "Ok", and one envelope per task. */
  lemma SuccessfulRun(objectMap: map<string, SceneObject>, tasks: seq<Task>)
    requires AllSucceed(objectMap, tasks)
    ensures |Results(tasks)| == |tasks| && |Envelopes(objectMap, tasks)| == |tasks|
    ensures forall j :: 0 <= j < |tasks| ==> Results(tasks)[j] == MarkOk(tasks[j])
    ensures forall j :: 0 <= j < |tasks| ==>
      Envelopes(objectMap, tasks)[j] == RunCodeBody(TaskCode(objectMap, tasks[j]).value)
  {
  }

  // ---------------------------------------------------------------------------
  // The executor

  class TaskExecutor {
    /** The scene snapshot, name to object, fixed for the executor's lifetime. */
    const objectMap: map<string, SceneObject>
    /** Every envelope posted to the robot server's /send_action, in posting order. */
    var submitted: seq<Body>

    constructor (objectMap: map<string, SceneObject>)
      ensures this.objectMap == objectMap && submitted == []
    {
      this.objectMap := objectMap;
      submitted := [];
    }

    /** POST /send_action; the server's acknowledgement is not modelled. */
    method SendAction(body: Body)
      modifies this
      ensures submitted == old(submitted) + [body]
    {
      submitted := submitted + [body];
    }

    method GoToObject(target: SceneObject) returns (err: Option<ExecError>)
      modifies this
      ensures target.pos.None? ==> err == Some(MissingKey("pos")) && submitted == old(submitted)
      ensures target.pos.Some? ==>
        err == None && submitted == old(submitted) + [RunCodeBody(GoToCode(target.pos.value))]
    {
      if target.pos.None? {
        return Some(MissingKey("pos"));
      }
      SendAction(RunCodeBody(GoToCode(target.pos.value)));
      return None;
    }

    method PickObject(target: SceneObject) returns (err: Option<ExecError>)
      modifies this
      ensures target.pos.None? ==> err == Some(MissingKey("pos")) && submitted == old(submitted)
      ensures target.pos.Some? ==>
        err == None && submitted == old(submitted) + [RunCodeBody(PickCode(target.pos.value))]
    {
      if target.pos.None? {
        return Some(MissingKey("pos"));
      }
      SendAction(RunCodeBody(PickCode(target.pos.value)));
      return None;
    }

    method PlaceObject(target: SceneObject) returns (err: Option<ExecError>)
      modifies this
      ensures target.pos.None? ==> err == Some(MissingKey("pos")) && submitted == old(submitted)
      ensures target.pos.Some? ==>
        err == None && submitted == old(submitted) + [RunCodeBody(PlaceCode(target.pos.value))]
    {
      if target.pos.None? {
        return Some(MissingKey("pos"));
      }
      SendAction(RunCodeBody(PlaceCode(target.pos.value)));
      return None;
    }

    /**
     * Appends every group's tasks, group by group; a group without "subgoal"
     * or "tasks" raises KeyError and no list is returned.
     */
    method MakeTaskSequence(groups: seq<TaskGroup>) returns (r: Result<seq<Task>, ExecError>)
      ensures FirstBadGroup(groups) == |groups| ==> r == Success(Concat(groups))
      ensures FirstBadGroup(groups) < |groups| ==> r == Failure(GroupError(groups[FirstBadGroup(groups)]))
    {
      var taskSequence: seq<Task> := [];
      for i := 0 to |groups|
        invariant forall j :: 0 <= j < i ==> GroupOk(groups[j])
        invariant taskSequence == Concat(groups[..i])
      {
        var group := groups[i];
        if group.subgoal.None? {
          return Failure(MissingKey("subgoal"));
        }
        if group.tasks.None? {
          return Failure(MissingKey("tasks"));
        }
        var tasks := group.tasks.value;
        for j := 0 to |tasks|
          invariant taskSequence == Concat(groups[..i]) + tasks[..j]
        {
          taskSequence := taskSequence + [tasks[j]];
        }
        assert groups[..i + 1] == groups[..i] + [group];
        ConcatSnoc(groups[..i], group);
      }
      assert groups[..|groups|] == groups;
      return Success(taskSequence);
    }

    /**
     * One iteration of `execute`: validates the task against the snapshot and
     * the three skills, and submits the skill's envelope; None when it succeeds.
     */
    method RunTask(task: Task) returns (err: Option<ExecError>)
      modifies this
      ensures TaskCode(objectMap, task).Failure? ==>
        err == Some(TaskCode(objectMap, task).error) && submitted == old(submitted)
      ensures TaskCode(objectMap, task).Success? ==>
        err == None && submitted == old(submitted) + [RunCodeBody(TaskCode(objectMap, task).value)]
    {
      if "target" !in task {
        return Some(MissingKey("target"));
      }
      var targetName := task["target"];
      if targetName !in objectMap {
        return Some(UnknownObject(targetName, objectMap.Keys));
      }
      var target := objectMap[targetName];
      if "skill" !in task {
        return Some(MissingKey("skill"));
      }
      if task["skill"] == "GoToObject" {
        err := GoToObject(target);
      } else if task["skill"] == "PickObject" {
        err := PickObject(target);
      } else if task["skill"] == "PlaceObject" {
        err := PlaceObject(target);
      } else {
        return Some(UnknownSkill(task["skill"]));
      }
    }

    /**
     * Runs the flattened task list in order, submitting one envelope per task
     * and stopping at the first task that raises.
     */
    method Execute(groups: seq<TaskGroup>) returns (r: Result<seq<Task>, ExecError>)
      modifies this
      ensures FirstBadGroup(groups) < |groups| ==>
        r == Failure(GroupError(groups[FirstBadGroup(groups)])) && submitted == old(submitted)
      ensures FirstBadGroup(groups) == |groups| ==>
        var tasks := Concat(groups);
        var k := FirstFailure(objectMap, tasks);
        AllSucceed(objectMap, tasks[..k]) &&
        submitted == old(submitted) + Envelopes(objectMap, tasks[..k]) &&
        r == if k == |tasks| then Success(Results(tasks)) else Failure(TaskCode(objectMap, tasks[k]).error)
    {
      var flat := MakeTaskSequence(groups);
      if flat.Failure? {
        return Failure(flat.error);
      }
      var tasks := flat.value;
      var results: seq<Task> := [];
      for i := 0 to |tasks|
        invariant AllSucceed(objectMap, tasks[..i])
        invariant submitted == old(submitted) + Envelopes(objectMap, tasks[..i])
        invariant results == Results(tasks[..i])
      {
        var task := tasks[i];
        var err := RunTask(task);
        if err.Some? {
          FirstFailureAt(objectMap, tasks, i);
          return Failure(err.value);
        }
        EnvelopesSnoc(objectMap, tasks, i);
        results := results + [MarkOk(task)];
      }
      assert tasks[..|tasks|] == tasks;
      FirstFailureNone(objectMap, tasks);
      return Success(results);
    }
  }
}

/**
 * The executor and the server together: every envelope the executor posts
 * passes the server's format check, and the worker runs the submitted skill
 * codes in task order.
 */
module Pipeline {
  import opened Wrappers
  import opened Envelope
  import opened Executor
  import opened Server

  /** The codes a successful task list submits, in task order. */
  function SkillCodes(objectMap: map<string, SceneObject>, tasks: seq<Task>): seq<Json>
    requires AllSucceed(objectMap, tasks)
  {
    seq(|tasks|, j requires 0 <= j < |tasks| => JStr(TaskCode(objectMap, tasks[j]).value))
  }

  /**
   * The executor's envelopes are all admitted by /send_action, and once they
   * reach the worker it executes exactly the tasks' skill codes, in task order.
   */
  lemma {:induction false} SubmittedEnvelopesRunInOrder(objectMap: map<string, SceneObject>, tasks: seq<Task>)
    requires AllSucceed(objectMap, tasks)
    ensures forall j :: 0 <= j < |tasks| ==> WellFormed(Envelopes(objectMap, tasks)[j])
    ensures RunCodes(Envelopes(objectMap, tasks)) == SkillCodes(objectMap, tasks)
  {
    if tasks != [] {
      var rest := tasks[1..];
      assert AllSucceed(objectMap, rest) by {
        forall j | 0 <= j < |rest| ensures TaskCode(objectMap, rest[j]).Success? {
          assert rest[j] == tasks[j + 1];
        }
      }
      var head := RunCodeBody(TaskCode(objectMap, tasks[0]).value);
      assert Envelopes(objectMap, tasks) == [head] + Envelopes(objectMap, rest);
      assert SkillCodes(objectMap, tasks) == [JStr(TaskCode(objectMap, tasks[0]).value)] + SkillCodes(objectMap, rest);
      RunCodeBodyRuns(TaskCode(objectMap, tasks[0]).value);
      SubmittedEnvelopesRunInOrder(objectMap, rest);
      assert ([head] + Envelopes(objectMap, rest))[1..] == Envelopes(objectMap, rest);
      forall j | 0 <= j < |tasks| ensures WellFormed(Envelopes(objectMap, tasks)[j]) {
        RunCodeBodyRuns(TaskCode(objectMap, tasks[j]).value);
      }
    }
  }

  /**
   * One GoToObject task on an object "table" at [1, 2, 0]: one result marked
   * "Ok", and one envelope whose code plans and follows a path to that position.
   */
  lemma TableExample()
    ensures
      var task: Task := map["skill" := "GoToObject", "target" := "table"];
      var groups := [TaskGroup(Some("move"), Some([task]))];
      var objectMap := map["table" := SceneObject(Some("[1, 2, 0]"))];
      FirstBadGroup(groups) == |groups| && Concat(groups) == [task]
      && FirstFailure(objectMap, [task]) == 1
      && Results([task]) == [map["skill" := "GoToObject", "target" := "table", "result" := "Ok"]]
      && Envelopes(objectMap, [task]) == [RunCodeBody(GoToCode("[1, 2, 0]"))]
      && RunCodes(Envelopes(objectMap, [task])) == [JStr(GoToCode("[1, 2, 0]"))]
  {
  }

  /** A snapshot holding only "red_cup" rejects a pick of "blue_mug", listing "red_cup" as available. */
  lemma UnknownObjectExample()
    ensures
      var objectMap := map["red_cup" := SceneObject(Some("[0, 0, 0]"))];
      var task: Task := map["skill" := "PickObject", "target" := "blue_mug"];
      TaskCode(objectMap, task) == Failure(UnknownObject("blue_mug", {"red_cup"}))
      && FirstFailure(objectMap, [task]) == 0
  {
    var objectMap := map["red_cup" := SceneObject(Some("[0, 0, 0]"))];
    assert objectMap.Keys == {"red_cup"};
    var task: Task := map["skill" := "PickObject", "target" := "blue_mug"];
    assert task["target"] !in objectMap;
  }

  /** Flattening [{tasks: [a, b]}, {tasks: [c]}] gives [a, b, c]. */
  lemma FlattenExample(a: Task, b: Task, c: Task, s1: string, s2: string)
    ensures
      var groups := [TaskGroup(Some(s1), Some([a, b])), TaskGroup(Some(s2), Some([c]))];
      FirstBadGroup(groups) == |groups| && Concat(groups) == [a, b, c]
  {
    var groups := [TaskGroup(Some(s1), Some([a, b])), TaskGroup(Some(s2), Some([c]))];
    assert groups[1..][1..] == [];
    assert Concat(groups) == [a, b] + ([c] + Concat([]));
  }

  /**
   * The same groups without "subgoal" keys stop at the first group with
   * KeyError('subgoal'): the subgoal's value is unused, but the key is required.
   */
  lemma NoSubgoalRaises(a: Task, b: Task, c: Task)
    ensures
      var groups := [TaskGroup(None, Some([a, b])), TaskGroup(None, Some([c]))];
      FirstBadGroup(groups) == 0 && GroupError(groups[0]) == MissingKey("subgoal")
  {
  }
}

/** The second modal ("モーダル"), a task manager: a button fetches the tasks
    the workflow extracted from the channel history; once tasks are known the
    modal shows them one per line for editing, an input for requested
    changes, and a button to send the request. */
module App2View {
  import opened Json
  import opened BlockKit

  const CallbackId := "APP2_CALLBACK_ID"
  const Title := "モーダル"
  const FetchBlockId := "APP2_MODAL1_BLOCK1_ID"
  const FetchActionId := "APP2_MODAL1_BLOCK1_ACTIONID"
  const TasksBlockId := "APP2_MODAL1_BLOCK2_ID"
  const TasksActionId := "APP2_MODAL1_BLOCK2_ACTIONID"
  const ChangesBlockId := "APP2_MODAL1_BLOCK3_ID"
  const ChangesActionId := "APP2_MODAL1_BLOCK3_ACTIONID"
  const RequestBlockId := "APP2_MODAL1_BLOCK4_ID"
  const RequestActionId := "APP2_MODAL1_BLOCK4_ACTIONID"

  /** `f"{task['term']} {task['description']} {task['status']}"`: the three
      subscripts are evaluated left to right and the first failing one raises. */
  function TaskLine(task: Json): (r: Result<string>)
    ensures r.Ok? <==>
      task.JObj? && "term" in task.fields && "description" in task.fields && "status" in task.fields
    ensures !task.JObj? ==> r == Err(TypeError)
    ensures r.Ok? ==>
      && r.value == Str(task.fields["term"]) + " " + Str(task.fields["description"]) + " " + Str(task.fields["status"])
      && |r.value| >= 2
  {
    var term :- Index(task, "term");
    var description :- Index(task, "description");
    var status :- Index(task, "status");
    Ok(Str(term) + " " + Str(description) + " " + Str(status))
  }

  /** The list comprehension over the task list: one line per task, in order. */
  function TaskLines(tasks: seq<Json>): (r: Result<seq<string>>)
    ensures r.Ok? <==> forall i :: 0 <= i < |tasks| ==> TaskLine(tasks[i]).Ok?
    ensures r.Ok? ==> |r.value| == |tasks|
    ensures r.Ok? ==> forall i :: 0 <= i < |tasks| ==> r.value[i] == TaskLine(tasks[i]).value
  {
    if tasks == [] then Ok([])
    else
      var head :- TaskLine(tasks[0]);
      var tail :- TaskLines(tasks[1..]);
      Ok([head] + tail)
  }

  /** The total length of the lines. */
  function TotalLength(lines: seq<string>): nat {
    if lines == [] then 0 else |lines[0]| + TotalLength(lines[1..])
  }

  /** `"\n".join(lines)`: the lines with one separator between each two
      neighbours and none before the first or after the last. */
  function JoinLines(lines: seq<string>): (r: string)
    ensures |r| == TotalLength(lines) + if lines == [] then 0 else |lines| - 1
  {
    if lines == [] then ""
    else if |lines| == 1 then lines[0]
    else lines[0] + "\n" + JoinLines(lines[1..])
  }

  /** `s.split("\n")`: the pieces between newlines, always at least one. */
  function SplitLines(s: string): (pieces: seq<string>)
    ensures |pieces| >= 1
  {
    if s == [] then [""]
    else
      var rest := SplitLines(s[1..]);
      if s[0] == '\n' then [""] + rest
      else [[s[0]] + rest[0]] + rest[1..]
  }

  /** The task text that `app2_create_view` puts in the task input: the
      comprehension iterates `task_list`; iterating a dict yields string keys
      and iterating a string yields one-character strings, whose string
      subscript raises TypeError, and None, a bool or an int is not iterable. */
  function TaskText(taskList: Json): (r: Result<string>)
    ensures taskList.JArr? ==> (r.Ok? <==> TaskLines(taskList.items).Ok?)
    ensures taskList.JArr? && r.Ok? ==> r.value == JoinLines(TaskLines(taskList.items).value)
    ensures !taskList.JArr? ==> (r.Ok? <==> taskList in {JStr(""), JObj(map[])})
  {
    match taskList
    case JArr(tasks) =>
      var lines :- TaskLines(tasks);
      Ok(JoinLines(lines))
    case JStr(s) => if s == "" then Ok("") else Err(TypeError)
    case JObj(fields) => if fields == map[] then Ok("") else Err(TypeError)
    case _ => Err(TypeError)
  }

  lemma {:induction false} SplitNoNewline(s: string)
    requires '\n' !in s
    ensures SplitLines(s) == [s]
  {
    if s != [] {
      SplitNoNewline(s[1..]);
      assert [s[0]] + s[1..] == s;
    }
  }

  lemma {:induction false} SplitAtNewline(a: string, b: string)
    requires '\n' !in a
    ensures SplitLines(a + "\n" + b) == [a] + SplitLines(b)
  {
    if a == [] {
      assert a + "\n" + b == "\n" + b;
      assert ("\n" + b)[1..] == b;
    } else {
      SplitAtNewline(a[1..], b);
      assert (a + "\n" + b)[1..] == a[1..] + "\n" + b;
      assert [a[0]] + a[1..] == a;
    }
  }

  /** Splitting the joined text at its newlines gives the lines back, when no
      line contains a newline itself: one line per entry, none lost, none
      reordered. */
  lemma {:induction false} SplitJoin(lines: seq<string>)
    requires lines != []
    requires forall i :: 0 <= i < |lines| ==> '\n' !in lines[i]
    ensures SplitLines(JoinLines(lines)) == lines
  {
    if |lines| == 1 {
      SplitNoNewline(lines[0]);
    } else {
      SplitAtNewline(lines[0], JoinLines(lines[1..]));
      SplitJoin(lines[1..]);
    }
  }

  /** The joined text ends with the last line and adds no newline after it,
      and it starts with the first line. */
  lemma {:induction false} JoinEnds(lines: seq<string>)
    requires lines != []
    ensures |JoinLines(lines)| >= |lines[|lines| - 1]|
    ensures JoinLines(lines)[|JoinLines(lines)| - |lines[|lines| - 1]|..] == lines[|lines| - 1]
    ensures JoinLines(lines)[..|lines[0]|] == lines[0]
  {
    if |lines| > 1 {
      JoinEnds(lines[1..]);
    }
  }

  /** `app2_create_view`. Only the fetch button while the task list is falsy;
      otherwise the fetch button, the task input pre-filled with the task
      text, the change-request input and the request button. */
  method CreateView(callbackId: string, taskList: Json) returns (r: Result<View>)
    ensures !Truthy(taskList) ==> r.Ok?
    ensures Truthy(taskList) ==> (r.Ok? <==> TaskText(taskList).Ok?)
    ensures r.Err? ==> r.error == TaskText(taskList).error
    ensures r.Ok? ==> IsModal(r.value, callbackId, Title)
    ensures r.Ok? ==> |r.value.blocks| == if Truthy(taskList) then 4 else 1
    ensures r.Ok? ==>
      && r.value.blocks[0].Actions? && r.value.blocks[0].actionsBlockId == Some(FetchBlockId)
      && |r.value.blocks[0].elements| == 1
      && r.value.blocks[0].elements[0].Button?
      && r.value.blocks[0].elements[0].actionId == FetchActionId
    ensures r.Ok? && Truthy(taskList) ==>
      && r.value.blocks[1].Input? && r.value.blocks[1].blockId == TasksBlockId
      && r.value.blocks[1].element == PlainTextInput(TasksActionId, true, Some(JStr(TaskText(taskList).value)))
      && r.value.blocks[2].Input? && r.value.blocks[2].blockId == ChangesBlockId
      && r.value.blocks[2].element == PlainTextInput(ChangesActionId, true, None)
      && r.value.blocks[3].Actions? && r.value.blocks[3].actionsBlockId == Some(RequestBlockId)
      && |r.value.blocks[3].elements| == 1
      && r.value.blocks[3].elements[0].Button?
      && r.value.blocks[3].elements[0].actionId == RequestActionId
    ensures r.Ok? ==> forall i :: 0 <= i < |r.value.blocks| ==> (HasInitialValue(r.value.blocks[i]) <==> i == 1)
  {
    var blocks := [];

    var fetchBlock := Actions(Some(FetchBlockId), [
      Button(PlainText("タスク取得", None), "click_me_123", FetchActionId)
    ]);
    blocks := blocks + [fetchBlock];

    if Truthy(taskList) {
      var text := TaskText(taskList);
      if text.Err? {
        return Err(text.error);
      }

      var tasksBlock := Input(
        TasksBlockId,
        PlainTextInput(TasksActionId, true, Some(JStr(text.value))),
        PlainText("タスク", None));
      blocks := blocks + [tasksBlock];

      var changesBlock := Input(
        ChangesBlockId,
        PlainTextInput(ChangesActionId, true, None),
        PlainText("変更ある？？", None));
      blocks := blocks + [changesBlock];

      var requestBlock := Actions(Some(RequestBlockId), [
        Button(PlainText("お願い！", None), "click_me_123", RequestActionId)
      ]);
      blocks := blocks + [requestBlock];
      assert blocks == [fetchBlock, tasksBlock, changesBlock, requestBlock];
    }

    r := Ok(View(
      "modal",
      callbackId,
      PlainText(Title, None),
      PlainText(SubmitLabel, None),
      PlainText(CloseLabel, None),
      blocks));
  }

  /** A joined text whose last line is non-empty and newline-free does not
      end with a newline. */
  lemma NoTrailingNewline(lines: seq<string>)
    requires lines != []
    requires lines[|lines| - 1] != "" && '\n' !in lines[|lines| - 1]
    ensures JoinLines(lines) != ""
    ensures JoinLines(lines)[|JoinLines(lines)| - 1] != '\n'
  {
    JoinEnds(lines);
    var text := JoinLines(lines);
    var last := lines[|lines| - 1];
    assert text[|text| - 1] == last[|last| - 1] by {
      assert text[|text| - |last|..][|last| - 1] == last[|last| - 1];
    }
  }

  /** For a non-empty list of well-formed tasks whose field texts hold no
      newline, the task input's text has exactly one line per task, in the
      task list's order. */
  lemma OneLinePerTask(tasks: seq<Json>)
    requires tasks != []
    requires TaskLines(tasks).Ok?
    requires forall i :: 0 <= i < |tasks| ==> '\n' !in TaskLine(tasks[i]).value
    ensures TaskText(JArr(tasks)).Ok?
    ensures |SplitLines(TaskText(JArr(tasks)).value)| == |tasks|
    ensures forall i :: 0 <= i < |tasks| ==>
      SplitLines(TaskText(JArr(tasks)).value)[i] ==
        Str(tasks[i].fields["term"]) + " " + Str(tasks[i].fields["description"]) + " " + Str(tasks[i].fields["status"])
  {
    var lines := TaskLines(tasks).value;
    SplitJoin(lines);
  }
}

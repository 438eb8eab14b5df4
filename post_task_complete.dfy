/** The post-task-complete hook (hooks/heimdall/post_task_complete.py):
    recognising that a TaskMaster task was set to done, the facts taken from
    the event and the lesson memory built from them. */
module PostTaskComplete {
  import opened Wrappers
  import opened Text

  // ---------------------------------------------------------------------
  // is_task_completion_event
  // ---------------------------------------------------------------------

  /** A task-status change: the tool name holds `set_task_status` or
      `task-master`, and the new status (empty when missing) is `done`. */
  function IsTaskCompletionEvent(toolName: string, status: string): (b: bool)
  {
    if Contains(toolName, "set_task_status") || Contains(toolName, "task-master") then status == "done"
    else false
  }

  /** Both conditions are needed and together they suffice. */
  lemma IsTaskCompletionEventIff(toolName: string, status: string)
    ensures IsTaskCompletionEvent(toolName, status) <==>
              (exists k :: StartsAt(toolName, "set_task_status", k) || StartsAt(toolName, "task-master", k))
              && status == "done"
  {
    ContainsIff(toolName, "set_task_status");
    ContainsIff(toolName, "task-master");
  }

  // ---------------------------------------------------------------------
  // extract_task_info
  // ---------------------------------------------------------------------

  /** A task of `tool_result["data"]["tasks"]`; a missing title is `None`,
      a missing description or details is empty. */
  datatype TaskRecord = TaskRecord(title: Option<string>, description: string, details: string)

  datatype TaskInfo = TaskInfo(taskId: string, title: string, description: string, details: string)

  /** extract_task_info on `tool_input["id"]` (empty when missing) and the
      tasks of the result (empty when missing). */
  method ExtractTaskInfo(taskId: string, tasks: seq<TaskRecord>) returns (info: Option<TaskInfo>)
    ensures info.None? <==> taskId == ""
    ensures info.Some? ==> info.value.taskId == taskId
    ensures info.Some? && tasks == [] ==>
              info.value.title == "" && info.value.description == "" && info.value.details == ""
    ensures info.Some? && tasks != [] ==>
              && info.value.title == tasks[0].title.GetOr("Task " + taskId)
              && info.value.description == tasks[0].description
              && info.value.details == tasks[0].details
  {
    if taskId == "" {
      return None;
    }
    var taskInfo := TaskInfo(taskId, "", "", "");
    if |tasks| > 0 {
      var task := tasks[0];
      taskInfo := taskInfo.(title := task.title.GetOr("Task " + taskId));
      taskInfo := taskInfo.(description := task.description);
      taskInfo := taskInfo.(details := task.details);
    }
    info := Some(taskInfo);
  }

  // ---------------------------------------------------------------------
  // create_task_memory_content
  // ---------------------------------------------------------------------

  function DescriptionSection(description: string): seq<string> {
    if description != "" then ["## Description", description, ""] else []
  }

  function DetailsSection(details: string): seq<string> {
    if details != "" then ["## Implementation Details", details, ""] else []
  }

  /** The lines of the memory content, joined with newlines. */
  function TaskParts(info: TaskInfo, now: string): seq<string> {
    ["# Task Completed: " + info.title, ""]
    + DescriptionSection(info.description)
    + DetailsSection(info.details)
    + ["## Completion", "Completed at: " + now, "Task ID: " + info.taskId]
  }

  method AppendDescriptionSection(parts: seq<string>, description: string) returns (out: seq<string>)
    ensures out == parts + DescriptionSection(description)
  {
    out := parts;
    if description != "" {
      out := out + ["## Description", description, ""];
    } else {
      assert out == parts + [];
    }
  }

  method AppendDetailsSection(parts: seq<string>, details: string) returns (out: seq<string>)
    ensures out == parts + DetailsSection(details)
  {
    out := parts;
    if details != "" {
      out := out + ["## Implementation Details", details, ""];
    } else {
      assert out == parts + [];
    }
  }

  /** create_task_memory_content; `now` stands for the clock. */
  method CreateTaskMemoryContent(info: TaskInfo, now: string) returns (content: string)
    ensures content == Join("\n", TaskParts(info, now))
  {
    var parts := ["# Task Completed: " + info.title, ""];
    parts := AppendDescriptionSection(parts, info.description);
    parts := AppendDetailsSection(parts, info.details);
    parts := parts + ["## Completion", "Completed at: " + now, "Task ID: " + info.taskId];
    content := Join("\n", parts);
  }

  /** The parts list has 5, 8 or 11 entries (a multi-line description or
      details entry spans more lines once joined): it opens with the title, then the
      description and the details sections, each exactly when non-empty,
      and it closes with the task id. */
  lemma TaskPartsShape(info: TaskInfo, now: string)
    ensures var parts := TaskParts(info, now);
      && |parts| == 5 + (if info.description != "" then 3 else 0) + (if info.details != "" then 3 else 0)
      && parts[0] == "# Task Completed: " + info.title
      && parts[|parts| - 1] == "Task ID: " + info.taskId
      && (info.description != "" ==> parts[2..5] == ["## Description", info.description, ""])
      && (info.details != "" ==> parts[|parts| - 6..|parts| - 3] == ["## Implementation Details", info.details, ""])
  {
    var parts := TaskParts(info, now);
    var head := ["# Task Completed: " + info.title, ""];
    var tail := ["## Completion", "Completed at: " + now, "Task ID: " + info.taskId];
    var d := DescriptionSection(info.description);
    var t := DetailsSection(info.details);
    assert parts == (head + d) + (t + tail);
    if info.details != "" {
      var n := |head + d|;
      assert |parts| == n + 6;
      assert parts[n..n + 3] == t;
    }
  }

  /** An event without task details still yields a memory; its heading
      then carries an empty title. */
  lemma NoTasksHeading(taskId: string, now: string)
    requires taskId != ""
    ensures TaskParts(TaskInfo(taskId, "", "", ""), now)
            == ["# Task Completed: ", "", "## Completion", "Completed at: " + now, "Task ID: " + taskId]
  {
    assert "# Task Completed: " + "" == "# Task Completed: ";
  }

  /** The additional tags `main` passes on. */
  const CompletionTags: seq<string> := ["task-complete", "implementation"]
}

/** The post-agent-task hook (hooks/heimdall/post_agent_task.py): the facts
    of a finished sub-agent, the lessons found in its result and the memory
    content built from them. */
module PostAgentTask {
  import opened Wrappers
  import opened Text

  // ---------------------------------------------------------------------
  // extract_agent_info
  // ---------------------------------------------------------------------

  /** A result value: a string, or any other JSON value together with its
      `json.dumps(..., indent=2)` rendering. */
  datatype Payload = Text(text: string) | Json(rendered: string)

  /** The keys of the event the hook reads; `None` is a missing key. */
  datatype AgentEvent = AgentEvent(subagentType: Option<string>, agentType: Option<string>,
                                   result: Option<Payload>, output: Option<Payload>,
                                   task: Option<string>, prompt: Option<string>,
                                   duration: Option<string>)

  datatype AgentInfo = AgentInfo(agentType: string, result: string, task: string, duration: string)

  /** A payload as text: a string as it is, anything else rendered. */
  function PayloadText(p: Payload): string {
    match p
    case Text(s) => s
    case Json(rendered) => rendered
  }

  /** extract_agent_info. Each key falls back to the second name only when
      the first is missing: `data.get(a, data.get(b, ""))`. */
  function ExtractAgentInfo(e: AgentEvent): Option<AgentInfo> {
    var agentType := if e.subagentType.Some? then e.subagentType.value else e.agentType.GetOr("");
    var result := if e.result.Some? then e.result.value else e.output.GetOr(Text(""));
    var taskDescription := if e.task.Some? then e.task.value else e.prompt.GetOr("");
    if agentType == "" then None
    else Some(AgentInfo(agentType, PayloadText(result), taskDescription, e.duration.GetOr("")))
  }

  /** No info exactly when the agent type is empty; `agent_type` is read
      only when `subagent_type` is missing, so an empty `subagent_type`
      wins over any `agent_type`. The result falls back to `output` and the
      task to `prompt` in the same way, and each is `""` when both keys are
      missing. */
  lemma ExtractAgentInfoSpec(e: AgentEvent)
    ensures ExtractAgentInfo(e).None? <==>
              (e.subagentType == Some("") || (e.subagentType.None? && e.agentType.GetOr("") == ""))
    ensures ExtractAgentInfo(e).Some? ==>
              ExtractAgentInfo(e).value.agentType != ""
              && (e.subagentType.Some? ==> ExtractAgentInfo(e).value.agentType == e.subagentType.value)
    ensures ExtractAgentInfo(e).Some? && e.subagentType.None? ==>
              e.agentType.Some? && ExtractAgentInfo(e).value.agentType == e.agentType.value
    ensures ExtractAgentInfo(e).Some? ==>
              ExtractAgentInfo(e).value.result
              == (if e.result.Some? then PayloadText(e.result.value)
                  else if e.output.Some? then PayloadText(e.output.value) else "")
    ensures ExtractAgentInfo(e).Some? ==>
              ExtractAgentInfo(e).value.task
              == (if e.task.Some? then e.task.value else if e.prompt.Some? then e.prompt.value else "")
    ensures ExtractAgentInfo(e).Some? ==> ExtractAgentInfo(e).value.duration == e.duration.GetOr("")
    ensures ExtractAgentInfo(e).Some? && e.result == Some(Text("")) ==> ExtractAgentInfo(e).value.result == ""
  {
  }

  // ---------------------------------------------------------------------
  // extract_lessons_from_result
  // ---------------------------------------------------------------------

  const LessonIndicators: seq<string> :=
    ["learned", "discovered", "found that", "realized", "important to", "should always",
     "should never", "best practice", "pattern", "solution was", "fixed by", "resolved by"]

  /** At most this many lessons are returned. */
  const LessonsCap: nat := 5

  /** A line is a lesson when its lower-cased form holds an indicator and
      its stripped form is longer than 20. */
  predicate IsLesson(line: string) {
    var clean := Strip(line);
    ContainsAny(Lower(line), LessonIndicators) && clean != [] && |clean| > 20
  }

  /** The stripped lesson lines, in input order. */
  function Lessons(lines: seq<string>): seq<string> {
    if lines == [] then []
    else
      var line := lines[|lines| - 1];
      Lessons(lines[..|lines| - 1]) + (if IsLesson(line) then [Strip(line)] else [])
  }

  /** Every lesson is the stripped form of a lesson line. */
  lemma {:induction false} LessonsSound(lines: seq<string>, l: string)
    requires l in Lessons(lines)
    ensures exists line :: line in lines && IsLesson(line) && l == Strip(line)
  {
    var init := lines[..|lines| - 1];
    var line := lines[|lines| - 1];
    assert lines == init + [line];
    if l in Lessons(init) {
      LessonsSound(init, l);
    } else {
      assert line in lines;
    }
  }

  /** Every lesson line gives a lesson. */
  lemma {:induction false} LessonsComplete(lines: seq<string>, line: string)
    requires line in lines && IsLesson(line)
    ensures Strip(line) in Lessons(lines)
  {
    var init := lines[..|lines| - 1];
    var last := lines[|lines| - 1];
    var tail := if IsLesson(last) then [Strip(last)] else [];
    assert Lessons(lines) == Lessons(init) + tail;
    if line != last {
      InInit(lines, line);
      LessonsComplete(init, line);
    }
    InAppend(Lessons(init), tail, Strip(line));
  }

  /** Filtering keeps input order. */
  lemma {:induction false} LessonsAppend(xs: seq<string>, ys: seq<string>)
    ensures Lessons(xs + ys) == Lessons(xs) + Lessons(ys)
    decreases |ys|
  {
    if ys == [] {
      assert xs + ys == xs;
    } else {
      var init := ys[..|ys| - 1];
      var line := ys[|ys| - 1];
      assert (xs + ys)[..|xs + ys| - 1] == xs + init;
      LessonsAppend(xs, init);
      AppendAssoc(Lessons(xs), Lessons(init), if IsLesson(line) then [Strip(line)] else []);
    }
  }

  /** A lesson is longer than 20 and neither starts nor ends with white space. */
  lemma LessonShape(lines: seq<string>, l: string)
    requires l in Lessons(lines)
    ensures |l| > 20 && !IsSpace(l[0]) && !IsSpace(l[|l| - 1])
  {
    LessonsSound(lines, l);
  }

  /** The filtering loop over the lines. */
  method FilterLessons(lines: seq<string>) returns (lessons: seq<string>)
    ensures lessons == Lessons(lines)
  {
    lessons := [];
    var i := 0;
    while i < |lines|
      invariant 0 <= i <= |lines|
      invariant lessons == Lessons(lines[..i])
    {
      var line := lines[i];
      TakeSnoc(lines, i);
      assert lines[..i + 1][..i] == lines[..i];
      var lineLower := Lower(line);
      if ContainsAny(lineLower, LessonIndicators) {
        var cleanLine := Strip(line);
        if cleanLine != [] && |cleanLine| > 20 {
          lessons := lessons + [cleanLine];
        }
      }
      i := i + 1;
    }
    assert lines[..i] == lines;
  }

  /** extract_lessons_from_result: the first five lesson lines. */
  method ExtractLessonsFromResult(result: string) returns (lessons: seq<string>)
    ensures lessons == Take(Lessons(Lines(result)), LessonsCap)
  {
    var all := FilterLessons(Lines(result));
    lessons := Take(all, LessonsCap);
  }

  // ---------------------------------------------------------------------
  // create_agent_memory_content
  // ---------------------------------------------------------------------

  const TaskChars: nat := 500
  const LessonChars: nat := 200
  const ResultChars: nat := 1000

  /** `f"- {lesson[:200]}"` for each lesson. */
  function LessonLines(lessons: seq<string>): seq<string> {
    if lessons == [] then []
    else LessonLines(lessons[..|lessons| - 1]) + ["- " + Take(lessons[|lessons| - 1], LessonChars)]
  }

  lemma {:induction false} LessonLinesSpec(lessons: seq<string>)
    ensures |LessonLines(lessons)| == |lessons|
    ensures forall k :: 0 <= k < |lessons| ==> LessonLines(lessons)[k] == "- " + Take(lessons[k], LessonChars)
    ensures forall k :: 0 <= k < |lessons| ==> |LessonLines(lessons)[k]| <= 2 + LessonChars
  {
    if lessons != [] {
      LessonLinesSpec(lessons[..|lessons| - 1]);
    }
  }

  /** The first thousand characters of the result, with `...` when cut. */
  function ResultSummary(result: string): string {
    Take(result, ResultChars) + (if |result| > ResultChars then "..." else "")
  }

  /** The summary is the whole result when it is short enough, and
      otherwise its first thousand characters followed by `...`. */
  lemma ResultSummarySpec(result: string)
    ensures |result| <= ResultChars ==> ResultSummary(result) == result
    ensures |result| > ResultChars ==>
              |ResultSummary(result)| == ResultChars + 3
              && ResultSummary(result)[..ResultChars] == result[..ResultChars]
              && ResultSummary(result)[ResultChars..] == "..."
  {
  }

  function TaskSection(task: string): seq<string> {
    if task != "" then ["## Task", Take(task, TaskChars), ""] else []
  }

  function InsightsSection(lessons: seq<string>): seq<string> {
    if lessons == [] then [] else ["## Key Insights"] + LessonLines(lessons) + [""]
  }

  function ResultSection(result: string): seq<string> {
    if result == "" then []
    else InsightsSection(Take(Lessons(Lines(result)), LessonsCap))
         + ["## Result Summary", ResultSummary(result), ""]
  }

  function DurationLine(duration: string): seq<string> {
    if duration != "" then ["Duration: " + duration] else []
  }

  /** The lines of the agent memory, before they are joined; `now` is the
      ISO time of the clock. */
  function AgentParts(info: AgentInfo, now: string): seq<string> {
    ["# Agent Session: " + info.agentType, ""]
    + TaskSection(info.task)
    + ResultSection(info.result)
    + ["## Session Info", "Agent: " + info.agentType, "Completed: " + now]
    + DurationLine(info.duration)
  }

  /** The loop over the lessons. */
  method AppendLessonLines(parts: seq<string>, lessons: seq<string>) returns (out: seq<string>)
    ensures out == parts + LessonLines(lessons)
  {
    out := parts;
    var i := 0;
    while i < |lessons|
      invariant 0 <= i <= |lessons|
      invariant out == parts + LessonLines(lessons[..i])
    {
      TakeSnoc(lessons, i);
      assert lessons[..i + 1][..i] == lessons[..i];
      var line := "- " + Take(lessons[i], LessonChars);
      AppendAssoc(parts, LessonLines(lessons[..i]), [line]);
      out := out + [line];
      i := i + 1;
    }
    assert lessons[..i] == lessons;
  }

  method AppendTaskSection(parts: seq<string>, task: string) returns (out: seq<string>)
    ensures out == parts + TaskSection(task)
  {
    out := parts;
    if task != "" {
      out := out + ["## Task", Take(task, TaskChars), ""];
    } else {
      assert out == parts + [];
    }
  }

  method AppendInsightsSection(parts: seq<string>, lessons: seq<string>) returns (out: seq<string>)
    ensures out == parts + InsightsSection(lessons)
  {
    out := parts;
    if lessons != [] {
      out := AppendLessonLines(out + ["## Key Insights"], lessons);
      out := out + [""];
      AppendAssoc(parts, ["## Key Insights"], LessonLines(lessons));
      AppendAssoc(parts, ["## Key Insights"] + LessonLines(lessons), [""]);
    } else {
      assert out == parts + [];
    }
  }

  /** The truncated result, with `...` when it was cut. */
  method SummarizeResult(result: string) returns (resultSummary: string)
    ensures resultSummary == ResultSummary(result)
  {
    resultSummary := Take(result, ResultChars);
    if |result| > ResultChars {
      resultSummary := resultSummary + "...";
    } else {
      assert resultSummary == resultSummary + "";
    }
  }

  method AppendResultSection(parts: seq<string>, result: string) returns (out: seq<string>)
    ensures out == parts + ResultSection(result)
  {
    out := parts;
    if result != "" {
      var lessons := ExtractLessonsFromResult(result);
      out := AppendInsightsSection(out, lessons);
      var resultSummary := SummarizeResult(result);
      var tail := ["## Result Summary", resultSummary, ""];
      out := out + tail;
      AppendAssoc(parts, InsightsSection(lessons), tail);
    } else {
      assert out == parts + [];
    }
  }

  /** create_agent_memory_content; `now` stands for `datetime.now().isoformat()`. */
  method CreateAgentMemoryContent(info: AgentInfo, now: string) returns (content: string)
    ensures content == Join("\n", AgentParts(info, now))
  {
    var parts := ["# Agent Session: " + info.agentType, ""];
    parts := AppendTaskSection(parts, info.task);
    parts := AppendResultSection(parts, info.result);
    parts := parts + ["## Session Info", "Agent: " + info.agentType, "Completed: " + now];
    if info.duration != "" {
      parts := parts + ["Duration: " + info.duration];
    } else {
      assert parts == parts + [];
    }
    content := Join("\n", parts);
  }

  /** The task section appears only for a non-empty task and holds at
      most its first 500 characters. */
  lemma TaskSectionSpec(task: string)
    ensures TaskSection(task) == [] <==> task == ""
    ensures task != "" ==> |TaskSection(task)[1]| <= TaskChars
                           && TaskSection(task)[1] == task[..|TaskSection(task)[1]|]
  {
  }

  /** The result section appears only for a non-empty result. It opens
      with the Key Insights block when there are lessons: the heading and
      one `- ` line for each of at most five lessons, each lesson cut to
      200 characters. It ends with the Result Summary block. */
  lemma ResultSectionSpec(result: string)
    ensures ResultSection(result) == [] <==> result == ""
    ensures result != "" ==>
      var lessons := Take(Lessons(Lines(result)), LessonsCap);
      var section := ResultSection(result);
      && |lessons| <= LessonsCap
      && |section| == (if lessons == [] then 3 else |lessons| + 5)
      && section[|section| - 3..] == ["## Result Summary", ResultSummary(result), ""]
      && (lessons != [] ==> section[0] == "## Key Insights")
      && (forall k :: 0 <= k < |lessons| ==> section[k + 1] == "- " + Take(lessons[k], LessonChars))
  {
    if result != "" {
      var lessons := Take(Lessons(Lines(result)), LessonsCap);
      LessonLinesSpec(lessons);
    }
  }

  /** The insights section is a heading, one line of at most 202
      characters per lesson, and a blank line. */
  lemma InsightsSectionSpec(lessons: seq<string>)
    ensures lessons != [] ==> |InsightsSection(lessons)| == |lessons| + 2
    ensures forall k :: 1 <= k < |InsightsSection(lessons)| ==> |InsightsSection(lessons)[k]| <= 2 + LessonChars
  {
    LessonLinesSpec(lessons);
    if lessons != [] {
      var section := InsightsSection(lessons);
      forall k | 1 <= k < |section| ensures |section[k]| <= 2 + LessonChars {
        if k <= |lessons| {
          assert section[k] == LessonLines(lessons)[k - 1];
        }
      }
    }
  }

  /** The content ends with the Duration line when there is a duration, and
      with the Completed line otherwise. */
  lemma AgentPartsLast(info: AgentInfo, now: string)
    ensures var parts := AgentParts(info, now);
      && (info.duration != "" ==> parts[|parts| - 1] == "Duration: " + info.duration)
      && (info.duration == "" ==> parts[|parts| - 1] == "Completed: " + now)
  {
  }
}

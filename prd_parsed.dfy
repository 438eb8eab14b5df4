/** The PRD-parsed hook (hooks/heimdall/prd_parsed.py): recognising the
    event, the PRD facts taken from it, the requirement lines found in the
    PRD text and the memory content built from them. */
module PrdParsed {
  import opened Wrappers
  import opened Text

  // ---------------------------------------------------------------------
  // is_prd_parsed_event
  // ---------------------------------------------------------------------

  /** is_prd_parsed_event, on `data.get("tool_name", "")`. */
  predicate IsPrdParsedEvent(toolName: string) {
    Contains(Lower(toolName), "parse_prd") || Contains(Lower(toolName), "parse-prd")
  }

  /** The test ignores case: a name and its lower-case form agree. */
  lemma IsPrdParsedEventIgnoresCase(toolName: string)
    ensures IsPrdParsedEvent(Lower(toolName)) <==> IsPrdParsedEvent(toolName)
  {
    assert NoUpper(Lower(toolName));
    LowerOfLower(Lower(toolName));
  }

  /** Either spelling anywhere in the name, in any case, makes a PRD event. */
  lemma IsPrdParsedEventAt(toolName: string, k: nat)
    requires StartsAt(Lower(toolName), "parse_prd", k) || StartsAt(Lower(toolName), "parse-prd", k)
    ensures IsPrdParsedEvent(toolName)
  {
    if StartsAt(Lower(toolName), "parse_prd", k) {
      ContainsAt(Lower(toolName), "parse_prd", k);
    } else {
      ContainsAt(Lower(toolName), "parse-prd", k);
    }
  }

  // ---------------------------------------------------------------------
  // extract_prd_info
  // ---------------------------------------------------------------------

  /** One generated task; only its title is read. */
  datatype PrdTask = PrdTask(title: Option<string>)

  /** `tool_result["data"]`: a dictionary, possibly without `tasks`, or any
      other JSON value. */
  datatype ResultData = DataDict(tasks: Option<seq<PrdTask>>) | NotDict

  /** The PRD facts; every key is always present. */
  datatype PrdInfo = PrdInfo(inputFile: string, tasksGenerated: nat, taskTitles: seq<string>,
                             projectName: string)

  /** `data.get("tasks", [])` when the data is a dictionary, else none. */
  function TasksOf(data: ResultData): seq<PrdTask> {
    match data
    case DataDict(tasks) => tasks.GetOr([])
    case NotDict => []
  }

  /** At most this many task titles are kept. */
  const KeptTitles: nat := 20

  /** `[t.get("title", "") for t in tasks]` */
  function Titles(tasks: seq<PrdTask>): seq<string> {
    if tasks == [] then [] else Titles(tasks[..|tasks| - 1]) + [tasks[|tasks| - 1].title.GetOr("")]
  }

  lemma {:induction false} TitlesSpec(tasks: seq<PrdTask>)
    ensures |Titles(tasks)| == |tasks|
    ensures forall k :: 0 <= k < |tasks| ==> Titles(tasks)[k] == tasks[k].title.GetOr("")
  {
    if tasks != [] {
      TitlesSpec(tasks[..|tasks| - 1]);
    }
  }

  /** extract_prd_info. `inputFile` is `tool_input.get("input")`, `data` is
      `tool_result.get("data")` (`None` for a missing key, read as an empty
      dictionary) and `projectName` what get_project_name returns. It counts
      every task but keeps the titles of the first twenty only; result data
      that is not a dictionary leaves no tasks. */
  method ExtractPrdInfo(inputFile: Option<string>, data: Option<ResultData>, projectName: string)
    returns (prdInfo: PrdInfo)
    ensures prdInfo.inputFile == inputFile.GetOr("")
    ensures prdInfo.projectName == projectName
    ensures data.None? ==> prdInfo.tasksGenerated == 0 && prdInfo.taskTitles == []
    ensures data.Some? && data.value.NotDict? ==> prdInfo.tasksGenerated == 0 && prdInfo.taskTitles == []
    ensures data.Some? && data.value.DataDict? ==>
              prdInfo.tasksGenerated == |data.value.tasks.GetOr([])|
    ensures prdInfo.taskTitles == Titles(Take(TasksOf(data.GetOr(DataDict(None))), KeptTitles))
    ensures |prdInfo.taskTitles| <= KeptTitles && |prdInfo.taskTitles| <= prdInfo.tasksGenerated
  {
    prdInfo := PrdInfo(inputFile.GetOr(""), 0, [], projectName);
    var resultData := data.GetOr(DataDict(None));
    if resultData.DataDict? {
      var tasks := resultData.tasks.GetOr([]);
      prdInfo := prdInfo.(tasksGenerated := |tasks|);
      prdInfo := prdInfo.(taskTitles := Titles(Take(tasks, KeptTitles)));
      TitlesSpec(Take(tasks, KeptTitles));
    }
  }

  // ---------------------------------------------------------------------
  // load_prd_content: the truncation
  // ---------------------------------------------------------------------

  const PrdReadCap: nat := 2000
  const TruncationMark: string := "...\n[Content truncated]"

  /** load_prd_content, given the path and what reading it gives (`None`
      when the file is missing or unreadable): at most 2000 characters of
      the text, marked when it was cut. */
  function LoadPrdContent(prdPath: string, file: Option<string>): (r: string)
  {
    if prdPath == "" || file.None? then ""
    else if |file.value| > PrdReadCap then file.value[..PrdReadCap] + TruncationMark
    else file.value
  }

  lemma LoadPrdContentSpec(prdPath: string, file: Option<string>)
    ensures |LoadPrdContent(prdPath, file)| <= PrdReadCap + |TruncationMark|
    ensures prdPath != "" && file.Some? && |file.value| <= PrdReadCap ==>
              LoadPrdContent(prdPath, file) == file.value
    ensures prdPath != "" && file.Some? && |file.value| > PrdReadCap ==>
              && |LoadPrdContent(prdPath, file)| == PrdReadCap + |TruncationMark|
              && LoadPrdContent(prdPath, file)[..PrdReadCap] == file.value[..PrdReadCap]
              && EndsWith(LoadPrdContent(prdPath, file), TruncationMark)
    ensures prdPath == "" || file.None? ==> LoadPrdContent(prdPath, file) == ""
  {
  }

  // ---------------------------------------------------------------------
  // extract_requirements
  // ---------------------------------------------------------------------

  const RequirementPatterns: seq<string> :=
    ["must ", "should ", "will ", "need to ", "required to ", "requirement:", "- [ ]"]

  /** At most this many requirements are returned. */
  const RequirementsCap: nat := 20

  /** A line is a requirement when its lower-cased, stripped form holds a
      pattern and its stripped form is longer than 10 and shorter than 200. */
  predicate IsRequirement(line: string) {
    var clean := Strip(line);
    ContainsAny(Strip(Lower(line)), RequirementPatterns) && clean != [] && 10 < |clean| < 200
  }

  /** The stripped requirement lines, in input order. */
  function Requirements(lines: seq<string>): seq<string> {
    if lines == [] then []
    else
      var line := lines[|lines| - 1];
      Requirements(lines[..|lines| - 1]) + (if IsRequirement(line) then [Strip(line)] else [])
  }

  /** Every requirement is the stripped form of a requirement line. */
  lemma {:induction false} RequirementsSound(lines: seq<string>, r: string)
    requires r in Requirements(lines)
    ensures exists line :: line in lines && IsRequirement(line) && r == Strip(line)
  {
    var init := lines[..|lines| - 1];
    var line := lines[|lines| - 1];
    assert lines == init + [line];
    if r in Requirements(init) {
      RequirementsSound(init, r);
    } else {
      assert line in lines;
    }
  }

  /** Every requirement line gives a requirement. */
  lemma {:induction false} RequirementsComplete(lines: seq<string>, line: string)
    requires line in lines && IsRequirement(line)
    ensures Strip(line) in Requirements(lines)
  {
    var init := lines[..|lines| - 1];
    var last := lines[|lines| - 1];
    var tail := if IsRequirement(last) then [Strip(last)] else [];
    assert Requirements(lines) == Requirements(init) + tail;
    if line == last {
      InAppend(Requirements(init), tail, Strip(line));
    } else {
      InInit(lines, line);
      RequirementsComplete(init, line);
      InAppend(Requirements(init), tail, Strip(line));
    }
  }

  /** A requirement is longer than 10, shorter than 200, and neither starts
      nor ends with white space. */
  lemma RequirementShape(lines: seq<string>, r: string)
    requires r in Requirements(lines)
    ensures 10 < |r| < 200 && !IsSpace(r[0]) && !IsSpace(r[|r| - 1])
  {
    RequirementsSound(lines, r);
  }

  /** Filtering keeps input order: the requirements of two runs of lines
      are those of the first run followed by those of the second. */
  lemma {:induction false} RequirementsAppend(xs: seq<string>, ys: seq<string>)
    ensures Requirements(xs + ys) == Requirements(xs) + Requirements(ys)
    decreases |ys|
  {
    if ys == [] {
      assert xs + ys == xs;
    } else {
      var init := ys[..|ys| - 1];
      var line := ys[|ys| - 1];
      assert (xs + ys)[..|xs + ys| - 1] == xs + init;
      RequirementsAppend(xs, init);
      AppendAssoc(Requirements(xs), Requirements(init), if IsRequirement(line) then [Strip(line)] else []);
    }
  }

  /** The filtering loop over the lines. */
  method FilterRequirements(lines: seq<string>) returns (requirements: seq<string>)
    ensures requirements == Requirements(lines)
  {
    requirements := [];
    var i := 0;
    while i < |lines|
      invariant 0 <= i <= |lines|
      invariant requirements == Requirements(lines[..i])
    {
      var line := lines[i];
      TakeSnoc(lines, i);
      assert lines[..i + 1][..i] == lines[..i];
      var lineLower := Strip(Lower(line));
      if ContainsAny(lineLower, RequirementPatterns) {
        var cleanLine := Strip(line);
        if cleanLine != [] && |cleanLine| > 10 && |cleanLine| < 200 {
          requirements := requirements + [cleanLine];
        }
      }
      i := i + 1;
    }
    assert lines[..i] == lines;
  }

  /** extract_requirements: the first twenty requirement lines of the text. */
  method ExtractRequirements(prdContent: string) returns (requirements: seq<string>)
    ensures requirements == Take(Requirements(Lines(prdContent)), RequirementsCap)
  {
    var all := FilterRequirements(Lines(prdContent));
    requirements := Take(all, RequirementsCap);
  }

  // ---------------------------------------------------------------------
  // create_prd_memory_content
  // ---------------------------------------------------------------------

  const ListedTitles: nat := 15
  const ListedRequirements: nat := 10
  const SummaryChars: nat := 1500

  /** `f"{i}. {title}" for i, title in enumerate(titles, 1)` */
  function NumberedTitles(titles: seq<string>): seq<string> {
    if titles == [] then []
    else NumberedTitles(titles[..|titles| - 1]) + [NatToString(|titles|) + ". " + titles[|titles| - 1]]
  }

  lemma {:induction false} NumberedTitlesSpec(titles: seq<string>)
    ensures |NumberedTitles(titles)| == |titles|
    ensures forall k :: 0 <= k < |titles| ==>
              NumberedTitles(titles)[k] == NatToString(k + 1) + ". " + titles[k]
  {
    if titles != [] {
      NumberedTitlesSpec(titles[..|titles| - 1]);
    }
  }

  function SourceSection(inputFile: string): seq<string> {
    if inputFile != "" then ["## Source: " + inputFile, ""] else []
  }

  function OverviewSection(titles: seq<string>): seq<string> {
    if titles == [] then []
    else ["### Task Overview"] + NumberedTitles(Take(titles, ListedTitles))
         + MoreLine(|titles|, ListedTitles, "... and ", " more tasks") + [""]
  }

  function TasksSection(info: PrdInfo): seq<string> {
    if info.tasksGenerated == 0 then []
    else ["## Tasks Generated: " + NatToString(info.tasksGenerated), ""] + OverviewSection(info.taskTitles)
  }

  function RequirementsSection(requirements: seq<string>): seq<string> {
    if requirements == [] then []
    else ["## Key Requirements"] + Bullets(Take(requirements, ListedRequirements)) + [""]
  }

  function SummarySection(prdContent: string): seq<string> {
    if prdContent == "" then [] else ["## PRD Summary", "```", Take(prdContent, SummaryChars), "```", ""]
  }

  /** The lines of the PRD memory, before they are joined; `now` is the ISO
      time of the clock. */
  function PrdParts(info: PrdInfo, prdContent: string, now: string): seq<string> {
    ["# PRD Parsed: " + info.projectName, ""]
    + SourceSection(info.inputFile)
    + TasksSection(info)
    + RequirementsSection(Take(Requirements(Lines(prdContent)), RequirementsCap))
    + SummarySection(prdContent)
    + ["## Metadata", "Parsed at: " + now, "Project: " + info.projectName]
  }

  /** The numbering loop over the first fifteen titles. */
  method AppendNumberedTitles(parts: seq<string>, titles: seq<string>) returns (out: seq<string>)
    ensures out == parts + NumberedTitles(titles)
  {
    out := parts;
    var i := 0;
    while i < |titles|
      invariant 0 <= i <= |titles|
      invariant out == parts + NumberedTitles(titles[..i])
    {
      TakeSnoc(titles, i);
      assert titles[..i + 1][..i] == titles[..i];
      var line := NatToString(i + 1) + ". " + titles[i];
      AppendAssoc(parts, NumberedTitles(titles[..i]), [line]);
      out := out + [line];
      i := i + 1;
    }
    assert titles[..i] == titles;
  }

  method AppendOverviewSection(parts: seq<string>, titles: seq<string>) returns (out: seq<string>)
    ensures out == parts + OverviewSection(titles)
  {
    out := parts;
    if titles != [] {
      var listed := Take(titles, ListedTitles);
      out := AppendNumberedTitles(out + ["### Task Overview"], listed);
      var more := MoreLine(|titles|, ListedTitles, "... and ", " more tasks");
      if |titles| > ListedTitles {
        out := out + ["... and " + NatToString(|titles| - ListedTitles) + " more tasks"];
        assert [out[|out| - 1]] == more;
      } else {
        assert more == [];
      }
      out := out + [""];
      AppendAssoc(parts, ["### Task Overview"], NumberedTitles(listed));
      AppendAssoc(parts, ["### Task Overview"] + NumberedTitles(listed), more);
      AppendAssoc(parts, ["### Task Overview"] + NumberedTitles(listed) + more, [""]);
    } else {
      assert out == parts + [];
    }
  }

  method AppendTasksSection(parts: seq<string>, info: PrdInfo) returns (out: seq<string>)
    ensures out == parts + TasksSection(info)
  {
    out := parts;
    if info.tasksGenerated != 0 {
      var heading := ["## Tasks Generated: " + NatToString(info.tasksGenerated), ""];
      out := AppendOverviewSection(out + heading, info.taskTitles);
      AppendAssoc(parts, heading, OverviewSection(info.taskTitles));
    } else {
      assert out == parts + [];
    }
  }

  method AppendRequirementsSection(parts: seq<string>, requirements: seq<string>) returns (out: seq<string>)
    ensures out == parts + RequirementsSection(requirements)
  {
    out := parts;
    if requirements != [] {
      var listed := Take(requirements, ListedRequirements);
      out := AppendBullets(out + ["## Key Requirements"], listed);
      out := out + [""];
      AppendAssoc(parts, ["## Key Requirements"], Bullets(listed));
      AppendAssoc(parts, ["## Key Requirements"] + Bullets(listed), [""]);
    } else {
      assert out == parts + [];
    }
  }

  method AppendSourceSection(parts: seq<string>, inputFile: string) returns (out: seq<string>)
    ensures out == parts + SourceSection(inputFile)
  {
    out := parts;
    if inputFile != "" {
      out := out + ["## Source: " + inputFile, ""];
    } else {
      assert out == parts + [];
    }
  }

  method AppendSummarySection(parts: seq<string>, prdContent: string) returns (out: seq<string>)
    ensures out == parts + SummarySection(prdContent)
  {
    out := parts;
    if prdContent != "" {
      var summary := if |prdContent| > SummaryChars then prdContent[..SummaryChars] else prdContent;
      out := out + ["## PRD Summary", "```", summary, "```", ""];
    } else {
      assert out == parts + [];
    }
  }

  /** create_prd_memory_content; `now` stands for `datetime.now().isoformat()`. */
  method CreatePrdMemoryContent(info: PrdInfo, prdContent: string, now: string) returns (content: string)
    ensures content == Join("\n", PrdParts(info, prdContent, now))
  {
    var parts := ["# PRD Parsed: " + info.projectName, ""];
    parts := AppendSourceSection(parts, info.inputFile);
    parts := AppendTasksSection(parts, info);
    var requirements := ExtractRequirements(prdContent);
    parts := AppendRequirementsSection(parts, requirements);
    parts := AppendSummarySection(parts, prdContent);
    parts := parts + ["## Metadata", "Parsed at: " + now, "Project: " + info.projectName];
    content := Join("\n", parts);
  }

  /** The Source section appears only for an input file, the task section
      only when tasks were generated, and the summary holds at most the
      first 1500 characters of the PRD. */
  lemma PrdSectionsSpec(info: PrdInfo, prdContent: string)
    ensures SourceSection(info.inputFile) == [] <==> info.inputFile == ""
    ensures TasksSection(info) == [] <==> info.tasksGenerated == 0
    ensures SummarySection(prdContent) == [] <==> prdContent == ""
    ensures prdContent != "" ==> |SummarySection(prdContent)[2]| <= SummaryChars
                                 && SummarySection(prdContent)[2] == prdContent[..|SummarySection(prdContent)[2]|]
  {
  }

  /** The overview lists at most fifteen titles, numbered from 1, and a
      line counting the rest exactly when there are more. */
  lemma OverviewSectionSpec(titles: seq<string>)
    ensures var o := OverviewSection(titles);
      && (o == [] <==> titles == [])
      && (titles != [] ==>
            && |o| == 2 + (if |titles| > ListedTitles then ListedTitles + 1 else |titles|)
            && (forall k :: 0 <= k < |titles| && k < ListedTitles ==>
                  o[1 + k] == NatToString(k + 1) + ". " + titles[k])
            && (|titles| > ListedTitles ==>
                  o[|o| - 2] == "... and " + NatToString(|titles| - ListedTitles) + " more tasks"))
  {
    NumberedTitlesSpec(Take(titles, ListedTitles));
  }

  /** At most ten requirements are listed, each as a bullet. */
  lemma RequirementsSectionSpec(requirements: seq<string>)
    ensures var r := RequirementsSection(requirements);
      && (r == [] <==> requirements == [])
      && |r| <= ListedRequirements + 2
      && (forall k :: 0 <= k < |requirements| && k < ListedRequirements ==> r[1 + k] == "- " + requirements[k])
  {
  }
}

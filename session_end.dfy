/** The session-end hook (hooks/heimdall/session_end.py): the session
    summary, its duration, the memory content built from it and the
    decision whether the session is worth storing. */
module SessionEnd {
  import opened Wrappers
  import opened Text

  /** One entry of `tasks_completed`; either key may be missing. */
  datatype Task = Task(id: Option<string>, title: Option<string>)

  /** The summary dictionary. `None` is a key that is absent. */
  datatype Summary = Summary(startTime: Option<string>, endTime: Option<string>,
                             turns: Option<int>, toolsUsed: Option<seq<string>>,
                             filesModified: Option<seq<string>>,
                             tasksCompleted: Option<seq<Task>>,
                             keyActivities: Option<seq<string>>)

  /** The dictionary without keys. */
  const NoKeys: Summary := Summary(None, None, None, None, None, None, None)

  // ---------------------------------------------------------------------
  // extract_session_summary
  // ---------------------------------------------------------------------

  /** One key of `base.update(over)`. */
  function Override<T>(base: Option<T>, over: Option<T>): Option<T> {
    if over.Some? then over else base
  }

  /** `base.update(over)`: every key of `over` replaces the one of `base`. */
  function Update(base: Summary, over: Summary): Summary {
    Summary(Override(base.startTime, over.startTime), Override(base.endTime, over.endTime),
            Override(base.turns, over.turns), Override(base.toolsUsed, over.toolsUsed),
            Override(base.filesModified, over.filesModified),
            Override(base.tasksCompleted, over.tasksCompleted),
            Override(base.keyActivities, over.keyActivities))
  }

  /** Updating with no keys changes nothing, updating twice with the same
      dictionary is updating once, and two updates in a row are one update
      with the second merged into the first. */
  lemma UpdateLaws(a: Summary, b: Summary, c: Summary)
    ensures Update(a, NoKeys) == a
    ensures Update(Update(a, b), b) == Update(a, b)
    ensures Update(Update(a, b), c) == Update(a, Update(b, c))
  {
  }

  /** extract_session_summary; `now` stands for `datetime.now().isoformat()`
      and `stored` for what load_session_data read, `None` when there is no
      session file or it does not parse. */
  function ExtractSessionSummary(data: Summary, now: string, stored: Option<Summary>): Summary {
    var summary := Summary(Some(data.startTime.GetOr(now)), Some(now), Some(data.turns.GetOr(0)),
                           Some(data.toolsUsed.GetOr([])), Some(data.filesModified.GetOr([])),
                           Some(data.tasksCompleted.GetOr([])), None);
    if stored.Some? then Update(summary, stored.value) else summary
  }

  /** Key by key, the stored session data wins; a key it lacks keeps the
      value taken from the event (or its default), and `key_activities`
      comes only from the stored data. */
  lemma ExtractSessionSummaryKeys(data: Summary, now: string, stored: Option<Summary>)
    ensures var r := ExtractSessionSummary(data, now, stored);
      var s := stored.GetOr(NoKeys);
      && r.startTime == (if s.startTime.Some? then s.startTime else Some(data.startTime.GetOr(now)))
      && r.endTime == (if s.endTime.Some? then s.endTime else Some(now))
      && r.turns == (if s.turns.Some? then s.turns else Some(data.turns.GetOr(0)))
      && r.toolsUsed == (if s.toolsUsed.Some? then s.toolsUsed else Some(data.toolsUsed.GetOr([])))
      && r.filesModified == (if s.filesModified.Some? then s.filesModified
                             else Some(data.filesModified.GetOr([])))
      && r.tasksCompleted == (if s.tasksCompleted.Some? then s.tasksCompleted
                              else Some(data.tasksCompleted.GetOr([])))
      && r.keyActivities == s.keyActivities
  {
  }

  // ---------------------------------------------------------------------
  // calculate_duration
  // ---------------------------------------------------------------------

  /** calculate_duration, from `int(delta.total_seconds())`, or `None` when
      a timestamp does not parse. Python's `divmod` floors; for the positive
      divisors here Dafny's `/` and `%` agree with it, negative seconds
      included. */
  function CalculateDuration(elapsed: Option<int>): string {
    match elapsed
    case None => "unknown"
    case Some(s) =>
      var hours := s / 3600;
      var remainder := s % 3600;
      var minutes := remainder / 60;
      var seconds := remainder % 60;
      if hours > 0 then NatToString(hours) + "h " + NatToString(minutes) + "m"
      else if minutes > 0 then NatToString(minutes) + "m " + NatToString(seconds) + "s"
      else NatToString(seconds) + "s"
  }

  /** For a non-negative number of seconds the three forms split at a
      minute and at an hour, and the parts add back up to the seconds. */
  lemma DurationForms(s: nat)
    ensures s < 60 ==> CalculateDuration(Some(s)) == NatToString(s) + "s"
    ensures 60 <= s < 3600 ==>
              CalculateDuration(Some(s)) == NatToString(s / 60) + "m " + NatToString(s % 60) + "s"
    ensures 3600 <= s ==>
              CalculateDuration(Some(s)) == NatToString(s / 3600) + "h " + NatToString(s % 3600 / 60) + "m"
    ensures s / 3600 * 3600 + s % 3600 / 60 * 60 + s % 3600 % 60 == s
    ensures s % 3600 / 60 < 60
  {
    var hours := s / 3600;
    var remainder := s % 3600;
    assert s == hours * 3600 + remainder;
    assert remainder == remainder / 60 * 60 + remainder % 60;
    if s < 3600 {
      assert hours == 0 && remainder == s;
    }
  }

  // ---------------------------------------------------------------------
  // Tool counts
  // ---------------------------------------------------------------------

  /** The distinct tools in order of first use: the key order of the
      `tool_counts` dictionary. */
  function FirstOccurrences(xs: seq<string>): seq<string> {
    if xs == [] then []
    else
      var init := FirstOccurrences(xs[..|xs| - 1]);
      if xs[|xs| - 1] in init then init else init + [xs[|xs| - 1]]
  }

  lemma {:induction false} FirstOccurrencesSpec(xs: seq<string>)
    ensures NoDuplicates(FirstOccurrences(xs))
    ensures forall x :: x in FirstOccurrences(xs) <==> x in xs
  {
    if xs != [] {
      var init := xs[..|xs| - 1];
      FirstOccurrencesSpec(init);
      assert xs == init + [xs[|xs| - 1]];
    }
  }

  /** The counting loop: `tool_counts[tool] = tool_counts.get(tool, 0) + 1`.
      The keys, in insertion order, are the distinct tools, and each count
      is the number of times the tool occurs. */
  method CountTools(tools: seq<string>) returns (counts: map<string, nat>, keys: seq<string>)
    ensures keys == FirstOccurrences(tools)
    ensures forall t :: t in counts <==> t in tools
    ensures forall t :: t in counts ==> counts[t] == multiset(tools)[t]
  {
    counts := map[];
    keys := [];
    var i := 0;
    while i < |tools|
      invariant 0 <= i <= |tools|
      invariant keys == FirstOccurrences(tools[..i])
      invariant forall t :: t in counts <==> t in tools[..i]
      invariant forall t :: t in counts ==> counts[t] == multiset(tools[..i])[t]
    {
      var tool := tools[i];
      TakeSnoc(tools, i);
      FirstOccurrencesSnoc(tools[..i], tool);
      CountStep(tools[..i], tool, counts);
      if tool !in counts {
        keys := keys + [tool];
      }
      counts := counts[tool := (if tool in counts then counts[tool] else 0) + 1];
      i := i + 1;
    }
    assert tools[..i] == tools;
  }

  /** One more tool is a new key exactly when it was not used before. */
  lemma FirstOccurrencesSnoc(prefix: seq<string>, tool: string)
    ensures FirstOccurrences(prefix + [tool])
            == FirstOccurrences(prefix) + (if tool in prefix then [] else [tool])
  {
    assert (prefix + [tool])[..|prefix|] == prefix;
    FirstOccurrencesSpec(prefix);
  }

  /** One step of the counting loop keeps the counts equal to the
      occurrences. */
  lemma CountStep(prefix: seq<string>, tool: string, counts: map<string, nat>)
    requires forall t :: t in counts <==> t in prefix
    requires forall t :: t in counts ==> counts[t] == multiset(prefix)[t]
    ensures var next := counts[tool := (if tool in counts then counts[tool] else 0) + 1];
      && (forall t :: t in next <==> t in prefix + [tool])
      && (forall t :: t in next ==> next[t] == multiset(prefix + [tool])[t])
  {
    assert multiset(prefix + [tool]) == multiset(prefix) + multiset{tool};
    if tool !in counts {
      assert multiset(prefix)[tool] == 0;
    }
  }

  /** The sum of the counts of `keys` in `m`. */
  function SumCounts(keys: seq<string>, m: multiset<string>): nat {
    if keys == [] then 0 else SumCounts(keys[..|keys| - 1], m) + m[keys[|keys| - 1]]
  }

  /** Counts that do not involve `k` ignore its removal. */
  lemma {:induction false} SumCountsWithout(keys: seq<string>, m: multiset<string>, k: string)
    requires k !in keys
    ensures SumCounts(keys, m[k := 0]) == SumCounts(keys, m)
  {
    if keys != [] {
      var init := keys[..|keys| - 1];
      assert keys == init + [keys[|keys| - 1]];
      SumCountsWithout(init, m, k);
    }
  }

  /** Over distinct keys covering the multiset, the counts add up to its size. */
  lemma {:induction false} SumCountsCovers(keys: seq<string>, m: multiset<string>)
    requires NoDuplicates(keys)
    requires forall x :: x in m ==> x in keys
    ensures SumCounts(keys, m) == |m|
  {
    if keys == [] {
      forall x ensures m[x] == 0 {
        assert x !in keys;
      }
      assert m == multiset{};
    } else {
      var init := keys[..|keys| - 1];
      var k := keys[|keys| - 1];
      var rest := m[k := 0];
      assert keys == init + [k];
      assert k !in init;
      assert m == rest + multiset{}[k := m[k]];
      forall x | x in rest ensures x in init {
        assert x in m && x != k;
      }
      SumCountsCovers(init, rest);
      SumCountsWithout(init, m, k);
    }
  }

  /** The tool counts add up to the number of tool uses. */
  lemma ToolCountsSum(tools: seq<string>)
    ensures SumCounts(FirstOccurrences(tools), multiset(tools)) == |tools|
  {
    FirstOccurrencesSpec(tools);
    SumCountsCovers(FirstOccurrences(tools), multiset(tools));
  }

  // ---------------------------------------------------------------------
  // Ranking: `sorted(tool_counts.items(), key=lambda x: -x[1])`
  // ---------------------------------------------------------------------

  /** Inserts `t` after every entry whose count is at least its own, so
      that ties keep their earlier order (Python's sort is stable). */
  function InsertByCount(t: string, ranked: seq<string>, m: multiset<string>): seq<string> {
    if ranked == [] then [t]
    else if m[ranked[0]] >= m[t] then [ranked[0]] + InsertByCount(t, ranked[1..], m)
    else [t] + ranked
  }

  /** The keys, stably sorted by decreasing count in `m`. */
  function RankByCount(keys: seq<string>, m: multiset<string>): seq<string> {
    if keys == [] then []
    else InsertByCount(keys[|keys| - 1], RankByCount(keys[..|keys| - 1], m), m)
  }

  predicate CountsNonIncreasing(ranked: seq<string>, m: multiset<string>) {
    forall i, j :: 0 <= i < j < |ranked| ==> m[ranked[i]] >= m[ranked[j]]
  }

  lemma {:induction false} InsertByCountSpec(t: string, ranked: seq<string>, m: multiset<string>)
    requires CountsNonIncreasing(ranked, m)
    ensures CountsNonIncreasing(InsertByCount(t, ranked, m), m)
    ensures multiset(InsertByCount(t, ranked, m)) == multiset(ranked) + multiset{t}
  {
    InsertByCountPerm(t, ranked, m);
    InsertByCountSorted(t, ranked, m);
  }

  lemma {:induction false} InsertByCountPerm(t: string, ranked: seq<string>, m: multiset<string>)
    ensures multiset(InsertByCount(t, ranked, m)) == multiset(ranked) + multiset{t}
  {
    if ranked != [] && m[ranked[0]] >= m[t] {
      InsertByCountPerm(t, ranked[1..], m);
      assert ranked == [ranked[0]] + ranked[1..];
    }
  }

  lemma {:induction false} InsertByCountMembers(t: string, ranked: seq<string>, m: multiset<string>, x: string)
    requires x in InsertByCount(t, ranked, m)
    ensures x == t || x in ranked
  {
    if ranked != [] && m[ranked[0]] >= m[t] && x != ranked[0] {
      InsertByCountMembers(t, ranked[1..], m, x);
    }
  }

  lemma {:induction false} InsertByCountSorted(t: string, ranked: seq<string>, m: multiset<string>)
    requires CountsNonIncreasing(ranked, m)
    ensures CountsNonIncreasing(InsertByCount(t, ranked, m), m)
  {
    if ranked == [] {
    } else if m[ranked[0]] >= m[t] {
      var head := ranked[0];
      var tail := ranked[1..];
      assert CountsNonIncreasing(tail, m) by {
        forall i, j | 0 <= i < j < |tail| ensures m[tail[i]] >= m[tail[j]] {
          assert tail[i] == ranked[i + 1] && tail[j] == ranked[j + 1];
        }
      }
      InsertByCountSorted(t, tail, m);
      var rest := InsertByCount(t, tail, m);
      var r := [head] + rest;
      assert InsertByCount(t, ranked, m) == r;
      forall i, j | 0 <= i < j < |r| ensures m[r[i]] >= m[r[j]] {
        var x := rest[j - 1];
        assert r[j] == x;
        if i == 0 {
          InsertByCountMembers(t, tail, m, x);
          if x != t {
            var k :| 0 <= k < |tail| && tail[k] == x;
            assert ranked[k + 1] == x;
          }
        } else {
          assert r[i] == rest[i - 1];
        }
      }
    } else {
      var r := [t] + ranked;
      assert InsertByCount(t, ranked, m) == r;
      forall i, j | 0 <= i < j < |r| ensures m[r[i]] >= m[r[j]] {
        assert r[j] == ranked[j - 1];
        if i > 0 {
          assert r[i] == ranked[i - 1];
        } else if j > 1 {
          assert m[ranked[0]] >= m[ranked[j - 1]];
        }
      }
    }
  }

  /** The ranking is a permutation of the keys in non-increasing count order. */
  lemma {:induction false} RankByCountSpec(keys: seq<string>, m: multiset<string>)
    ensures CountsNonIncreasing(RankByCount(keys, m), m)
    ensures multiset(RankByCount(keys, m)) == multiset(keys)
  {
    if keys != [] {
      var init := keys[..|keys| - 1];
      RankByCountSpec(init, m);
      InsertByCountSpec(keys[|keys| - 1], RankByCount(init, m), m);
      assert keys == init + [keys[|keys| - 1]];
    }
  }

  // ---------------------------------------------------------------------
  // create_session_memory_content
  // ---------------------------------------------------------------------

  const ToolLinesCap: nat := 10
  const FileLinesCap: nat := 15
  const TaskLinesCap: nat := 10
  const ActivityLinesCap: nat := 10

  function ToolLine(tool: string, count: nat): string {
    "- " + tool + ": " + NatToString(count) + "x"
  }

  /** One line per ranked tool with its count. */
  function ToolLines(ranked: seq<string>, m: multiset<string>): seq<string> {
    if ranked == [] then []
    else ToolLines(ranked[..|ranked| - 1], m) + [ToolLine(ranked[|ranked| - 1], m[ranked[|ranked| - 1]])]
  }

  /** The ten most used tools, most used first. */
  function TopTools(tools: seq<string>): seq<string> {
    Take(RankByCount(FirstOccurrences(tools), multiset(tools)), ToolLinesCap)
  }

  /** A task line; a missing id shows as `?`, a missing title as `Untitled`. */
  function TaskLine(task: Task): string {
    "- [" + task.id.GetOr("?") + "] " + task.title.GetOr("Untitled")
  }

  function TaskLines(tasks: seq<Task>): seq<string> {
    if tasks == [] then [] else TaskLines(tasks[..|tasks| - 1]) + [TaskLine(tasks[|tasks| - 1])]
  }

  function InfoSection(summary: Summary, projectName: string, elapsed: Option<int>): seq<string> {
    ["# Session Summary: " + projectName, "", "## Session Info",
     "- Duration: " + CalculateDuration(elapsed),
     "- Started: " + summary.startTime.GetOr("unknown"),
     "- Ended: " + summary.endTime.GetOr("unknown")]
  }

  /** The Turns line, present when the count is there and not zero. */
  function TurnsLine(turns: Option<int>): seq<string> {
    if turns.Some? && turns.value != 0 then ["- Turns: " + IntToString(turns.value)] else []
  }

  function ToolsSection(tools: seq<string>): seq<string> {
    if tools == [] then []
    else ["", "## Tools Used"] + ToolLines(TopTools(tools), multiset(tools))
  }

  function FilesSection(files: seq<string>): seq<string> {
    if files == [] then []
    else ["", "## Files Modified (" + NatToString(|files|) + ")"]
         + Bullets(Take(files, FileLinesCap))
         + MoreLine(|files|, FileLinesCap, "- ... and ", " more")
  }

  function TasksSection(tasks: seq<Task>): seq<string> {
    if tasks == [] then [] else ["", "## Tasks Completed"] + TaskLines(Take(tasks, TaskLinesCap))
  }

  function ActivitiesSection(activities: seq<string>): seq<string> {
    if activities == [] then []
    else ["", "## Key Activities"] + Bullets(Take(activities, ActivityLinesCap))
  }

  /** The lines of the session memory, before they are joined. */
  function SessionParts(summary: Summary, projectName: string, elapsed: Option<int>): seq<string> {
    InfoSection(summary, projectName, elapsed)
    + TurnsLine(summary.turns)
    + ToolsSection(summary.toolsUsed.GetOr([]))
    + FilesSection(summary.filesModified.GetOr([]))
    + TasksSection(summary.tasksCompleted.GetOr([]))
    + ActivitiesSection(summary.keyActivities.GetOr([]))
  }

  /** The loop over the ranked tools. */
  method AppendToolLines(parts: seq<string>, ranked: seq<string>, counts: map<string, nat>,
                         ghost m: multiset<string>)
    returns (out: seq<string>)
    requires forall t :: t in ranked ==> t in counts && counts[t] == m[t]
    ensures out == parts + ToolLines(ranked, m)
  {
    out := parts;
    var i := 0;
    while i < |ranked|
      invariant 0 <= i <= |ranked|
      invariant out == parts + ToolLines(ranked[..i], m)
    {
      var tool := ranked[i];
      TakeSnoc(ranked, i);
      assert ranked[..i + 1][..i] == ranked[..i];
      var line := ToolLine(tool, counts[tool]);
      AppendAssoc(parts, ToolLines(ranked[..i], m), [line]);
      out := out + [line];
      i := i + 1;
    }
    assert ranked[..i] == ranked;
  }

  /** The tools part: counted, ranked and cut to ten. */
  method AppendToolsSection(parts: seq<string>, tools: seq<string>) returns (out: seq<string>)
    ensures out == parts + ToolsSection(tools)
  {
    out := parts;
    if tools != [] {
      out := out + ["", "## Tools Used"];
      var counts, keys := CountTools(tools);
      var ranked := Take(RankByCount(keys, multiset(tools)), ToolLinesCap);
      forall t | t in ranked ensures t in tools {
        RankByCountSpec(keys, multiset(tools));
        FirstOccurrencesSpec(tools);
        assert t in multiset(RankByCount(keys, multiset(tools)));
      }
      out := AppendToolLines(out, ranked, counts, multiset(tools));
      AppendAssoc(parts, ["", "## Tools Used"], ToolLines(ranked, multiset(tools)));
    } else {
      assert out == parts + [];
    }
  }

  /** The files part: at most fifteen files, then a line counting the rest. */
  method AppendFilesSection(parts: seq<string>, files: seq<string>) returns (out: seq<string>)
    ensures out == parts + FilesSection(files)
  {
    out := parts;
    if files != [] {
      var heading := ["", "## Files Modified (" + NatToString(|files|) + ")"];
      var listed := Take(files, FileLinesCap);
      out := AppendBullets(out + heading, listed);
      var more := MoreLine(|files|, FileLinesCap, "- ... and ", " more");
      if |files| > FileLinesCap {
        out := out + ["- ... and " + NatToString(|files| - FileLinesCap) + " more"];
        assert [out[|out| - 1]] == more;
      } else {
        assert more == [];
      }
      AppendAssoc(parts, heading, Bullets(listed));
      AppendAssoc(parts, heading + Bullets(listed), more);
    } else {
      assert out == parts + [];
    }
  }

  /** The loop over the first ten tasks. */
  method AppendTaskLines(parts: seq<string>, tasks: seq<Task>) returns (out: seq<string>)
    ensures out == parts + TaskLines(tasks)
  {
    out := parts;
    var i := 0;
    while i < |tasks|
      invariant 0 <= i <= |tasks|
      invariant out == parts + TaskLines(tasks[..i])
    {
      TakeSnoc(tasks, i);
      assert tasks[..i + 1][..i] == tasks[..i];
      var taskId := tasks[i].id.GetOr("?");
      var title := tasks[i].title.GetOr("Untitled");
      AppendAssoc(parts, TaskLines(tasks[..i]), [TaskLine(tasks[i])]);
      out := out + ["- [" + taskId + "] " + title];
      i := i + 1;
    }
    assert tasks[..i] == tasks;
  }

  method AppendTasksSection(parts: seq<string>, tasks: seq<Task>) returns (out: seq<string>)
    ensures out == parts + TasksSection(tasks)
  {
    out := parts;
    if tasks != [] {
      out := AppendTaskLines(out + ["", "## Tasks Completed"], Take(tasks, TaskLinesCap));
      AppendAssoc(parts, ["", "## Tasks Completed"], TaskLines(Take(tasks, TaskLinesCap)));
    } else {
      assert out == parts + [];
    }
  }

  method AppendActivitiesSection(parts: seq<string>, activities: seq<string>) returns (out: seq<string>)
    ensures out == parts + ActivitiesSection(activities)
  {
    out := parts;
    if activities != [] {
      out := AppendBullets(out + ["", "## Key Activities"], Take(activities, ActivityLinesCap));
      AppendAssoc(parts, ["", "## Key Activities"], Bullets(Take(activities, ActivityLinesCap)));
    } else {
      assert out == parts + [];
    }
  }

  /** create_session_memory_content. `projectName` is what get_project_name
      reads from the file system and `elapsed` the whole seconds between the
      parsed start and end times (`None` when either does not parse). */
  method CreateSessionMemoryContent(summary: Summary, projectName: string, elapsed: Option<int>)
    returns (content: string)
    ensures content == Join("\n", SessionParts(summary, projectName, elapsed))
  {
    var duration := CalculateDuration(elapsed);
    var parts := ["# Session Summary: " + projectName, "", "## Session Info",
                  "- Duration: " + duration,
                  "- Started: " + summary.startTime.GetOr("unknown"),
                  "- Ended: " + summary.endTime.GetOr("unknown")];
    if summary.turns.Some? && summary.turns.value != 0 {
      parts := parts + ["- Turns: " + IntToString(summary.turns.value)];
    } else {
      assert parts == parts + [];
    }
    parts := AppendToolsSection(parts, summary.toolsUsed.GetOr([]));
    parts := AppendFilesSection(parts, summary.filesModified.GetOr([]));
    parts := AppendTasksSection(parts, summary.tasksCompleted.GetOr([]));
    parts := AppendActivitiesSection(parts, summary.keyActivities.GetOr([]));
    content := Join("\n", parts);
  }

  /** The ranked tools: at most ten distinct tools that were used, in
      non-increasing count order. */
  lemma TopToolsSpec(tools: seq<string>)
    ensures var top := TopTools(tools);
      && |top| <= ToolLinesCap
      && NoDuplicates(top)
      && CountsNonIncreasing(top, multiset(tools))
      && (forall t :: t in top ==> t in tools)
  {
    var keys := FirstOccurrences(tools);
    var ranked := RankByCount(keys, multiset(tools));
    FirstOccurrencesSpec(tools);
    RankByCountSpec(keys, multiset(tools));
    PermutationNoDuplicates(keys, ranked);
    PrefixNoDuplicates(ranked, |TopTools(tools)|);
    forall t | t in TopTools(tools) ensures t in tools {
      assert t in multiset(ranked);
    }
  }

  /** Every tool left out was used no more often than any listed one, and
      with ten distinct tools or fewer none is left out. */
  lemma TopToolsLeftOut(tools: seq<string>)
    ensures var top := TopTools(tools); var m := multiset(tools);
      && (forall t, k :: t in tools && t !in top && 0 <= k < |top| ==> m[top[k]] >= m[t])
      && (|FirstOccurrences(tools)| <= ToolLinesCap ==> forall t :: t in tools ==> t in top)
  {
    var m := multiset(tools);
    var keys := FirstOccurrences(tools);
    var ranked := RankByCount(keys, m);
    var top := TopTools(tools);
    FirstOccurrencesSpec(tools);
    RankByCountSpec(keys, m);
    forall t, k | t in tools && t !in top && 0 <= k < |top| ensures m[top[k]] >= m[t] {
      assert t in multiset(ranked);
      var j :| 0 <= j < |ranked| && ranked[j] == t;
      assert j >= |top|;
    }
    if |keys| <= ToolLinesCap {
      assert |ranked| == |keys| by {
        assert |multiset(ranked)| == |multiset(keys)|;
      }
      forall t | t in tools ensures t in top {
        assert t in multiset(ranked);
      }
    }
  }

  /** Each tool line shows its tool with its count. */
  lemma {:induction false} ToolLinesSpec(ranked: seq<string>, m: multiset<string>)
    ensures |ToolLines(ranked, m)| == |ranked|
    ensures forall k :: 0 <= k < |ranked| ==> ToolLines(ranked, m)[k] == ToolLine(ranked[k], m[ranked[k]])
  {
    if ranked != [] {
      ToolLinesSpec(ranked[..|ranked| - 1], m);
    }
  }

  /** Each task line shows its task, with the defaults for missing keys. */
  lemma {:induction false} TaskLinesSpec(tasks: seq<Task>)
    ensures |TaskLines(tasks)| == |tasks|
    ensures forall k :: 0 <= k < |tasks| ==>
              TaskLines(tasks)[k] == "- [" + tasks[k].id.GetOr("?") + "] " + tasks[k].title.GetOr("Untitled")
  {
    if tasks != [] {
      TaskLinesSpec(tasks[..|tasks| - 1]);
    }
  }

  /** The Tools Used section: present exactly for a non-empty tool list,
      and at most ten tool lines under its heading. */
  lemma ToolsSectionBounds(tools: seq<string>)
    ensures ToolsSection(tools) == [] <==> tools == []
    ensures |ToolsSection(tools)| <= 2 + ToolLinesCap
  {
    TopToolsSpec(tools);
    ToolLinesSpec(TopTools(tools), multiset(tools));
  }

  /** The Files Modified section: present exactly for a non-empty file list;
      at most fifteen file lines, followed by a line counting the rest
      exactly when there are more. */
  lemma FilesSectionBounds(files: seq<string>)
    ensures FilesSection(files) == [] <==> files == []
    ensures files != [] ==>
              |FilesSection(files)| == 2 + (if |files| > FileLinesCap then FileLinesCap + 1 else |files|)
    ensures |files| > FileLinesCap ==>
              FilesSection(files)[|FilesSection(files)| - 1]
              == "- ... and " + NatToString(|files| - FileLinesCap) + " more"
  {
  }

  /** The Tasks Completed section: present exactly for a non-empty task
      list, with at most ten task lines. */
  lemma TasksSectionBounds(tasks: seq<Task>)
    ensures TasksSection(tasks) == [] <==> tasks == []
    ensures |TasksSection(tasks)| <= 2 + TaskLinesCap
  {
    TaskLinesSpec(Take(tasks, TaskLinesCap));
  }

  /** The Key Activities section: present exactly for a non-empty activity
      list, with at most ten activity lines; the Turns line appears only for
      a non-zero count. */
  lemma ActivitiesSectionBounds(activities: seq<string>, turns: Option<int>)
    ensures ActivitiesSection(activities) == [] <==> activities == []
    ensures |ActivitiesSection(activities)| <= 2 + ActivityLinesCap
    ensures |TurnsLine(turns)| == (if turns.Some? && turns.value != 0 then 1 else 0)
  {
  }

  // ---------------------------------------------------------------------
  // main: store or skip
  // ---------------------------------------------------------------------

  /** Python truthiness of an optional list: present and not empty. */
  predicate NonEmpty<T>(xs: Option<seq<T>>) {
    xs.Some? && xs.value != []
  }

  /** The skip test in `main`, as nested there: with no modified files and
      no completed tasks, a session is kept only from five tool uses on. */
  predicate ShouldStore(summary: Summary) {
    if !NonEmpty(summary.filesModified) && !NonEmpty(summary.tasksCompleted) then
      |summary.toolsUsed.GetOr([])| >= 5
    else true
  }

  /** The session is skipped exactly when it modified no files, completed no
      tasks and used fewer than five tools. */
  lemma ShouldStoreIff(summary: Summary)
    ensures !ShouldStore(summary) <==>
              && (summary.filesModified.None? || summary.filesModified.value == [])
              && (summary.tasksCompleted.None? || summary.tasksCompleted.value == [])
              && (summary.toolsUsed.None? || |summary.toolsUsed.value| < 5)
  {
  }
}

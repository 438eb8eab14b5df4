/** The session-start hook (hooks/heimdall/session_start.py): the three
    memory searches run when a session opens and the context summary shown
    from their results. Running the searches and the clock stay outside:
    their results and the formatted time are parameters. */
module SessionStart {
  import opened Wrappers
  import opened Text
  import opened Utils

  // ---------------------------------------------------------------------
  // load_project_context / load_recent_lessons / load_error_resolutions
  // ---------------------------------------------------------------------

  /** The search command lines of the three loaders: project memories
      (five, filtered by the project tag), recent lessons (five of type
      `lesson`) and error resolutions (three of type `error`). */
  method LoadQueryArgs(projectName: string)
    returns (projectArgs: seq<string>, lessonArgs: seq<string>, errorArgs: seq<string>)
    ensures |projectArgs| >= 7 && projectArgs[..7] == SearchHead("project context for " + projectName, 5)
    ensures FlagValue(projectArgs[7..], "--tags") == Some(ConstructTag("PROJECT", projectName))
    ensures FlagValue(projectArgs[7..], "--type") == None
    ensures |lessonArgs| >= 7 && lessonArgs[..7] == SearchHead("recent lessons and patterns", 5)
    ensures FlagValue(lessonArgs[7..], "--tags") == None
    ensures FlagValue(lessonArgs[7..], "--type") == Some("lesson")
    ensures |errorArgs| >= 7 && errorArgs[..7] == SearchHead("error resolutions and fixes", 3)
    ensures FlagValue(errorArgs[7..], "--tags") == None
    ensures FlagValue(errorArgs[7..], "--type") == Some("error")
  {
    var projectTag := ConstructTag("PROJECT", projectName);
    projectArgs := SearchArgs("project context for " + projectName, 5, [projectTag], "");
    assert Join(",", [projectTag]) == projectTag;
    lessonArgs := SearchArgs("recent lessons and patterns", 5, [], "lesson");
    errorArgs := SearchArgs("error resolutions and fixes", 3, [], "error");
  }

  // ---------------------------------------------------------------------
  // format_memory_summary
  // ---------------------------------------------------------------------

  /** A search result: its content (empty when missing), its type (`None`
      when missing) and `int(relevanceScore * 100)`, 0 when the score is
      missing or zero. */
  datatype StoredMemory = StoredMemory(content: string, memoryType: Option<string>, relevancePct: int)

  const ShownMemories: nat := 5
  const PreviewChars: nat := 100

  /** The first line of the content, cut to 100 characters, with `...`
      when it was cut. */
  function Preview(content: string): string {
    var first := FirstLine(content);
    Take(first, PreviewChars) + (if |Take(first, PreviewChars)| < |first| then "..." else "")
  }

  /** The preview is one line of at most 103 characters: the whole first
      line when that has at most 100, otherwise its first 100 and `...`. */
  lemma PreviewSpec(content: string)
    ensures '\n' !in Preview(content)
    ensures |FirstLine(content)| <= PreviewChars ==> Preview(content) == FirstLine(content)
    ensures |FirstLine(content)| > PreviewChars ==>
              Preview(content) == content[..PreviewChars] + "..." && |Preview(content)| == PreviewChars + 3
  {
    var first := FirstLine(content);
    if |first| > PreviewChars {
      assert first[..PreviewChars] == content[..PreviewChars];
      assert '.' != '\n';
    } else {
      assert first + "" == first;
    }
  }

  /** The lines shown for one memory. */
  function MemoryLines(mem: StoredMemory): seq<string> {
    ["  [" + mem.memoryType.GetOr("memory") + "] " + Preview(mem.content)]
    + (if mem.relevancePct > 0 then ["    Relevance: " + IntToString(mem.relevancePct) + "%"] else [])
  }

  function MemoriesLines(mems: seq<StoredMemory>): seq<string> {
    if mems == [] then []
    else MemoriesLines(mems[..|mems| - 1]) + MemoryLines(mems[|mems| - 1])
  }

  /** The lines of the summary, joined with newlines; none for no memories. */
  function SummaryLines(memories: seq<StoredMemory>, title: string): seq<string> {
    if memories == [] then []
    else ["\n" + title, Repeat('-', |title|)] + MemoriesLines(Take(memories, ShownMemories))
  }

  /** The loop over the first five memories. */
  method AppendMemoryLines(lines: seq<string>, mems: seq<StoredMemory>) returns (out: seq<string>)
    ensures out == lines + MemoriesLines(mems)
  {
    out := lines;
    var i := 0;
    while i < |mems|
      invariant 0 <= i <= |mems|
      invariant out == lines + MemoriesLines(mems[..i])
    {
      TakeSnoc(mems, i);
      var mem := mems[i];
      var preview := Preview(mem.content);
      var memType := mem.memoryType.GetOr("memory");
      AppendAssoc(lines, MemoriesLines(mems[..i]), MemoryLines(mem));
      out := out + ["  [" + memType + "] " + preview];
      if mem.relevancePct > 0 {
        out := out + ["    Relevance: " + IntToString(mem.relevancePct) + "%"];
      }
      i := i + 1;
    }
    assert mems[..i] == mems;
  }

  /** format_memory_summary. */
  method FormatMemorySummary(memories: seq<StoredMemory>, title: string) returns (summary: string)
    ensures summary == Join("\n", SummaryLines(memories, title))
  {
    if memories == [] {
      return "";
    }
    var lines := ["\n" + title, Repeat('-', |title|)];
    lines := AppendMemoryLines(lines, Take(memories, ShownMemories));
    summary := Join("\n", lines);
  }

  /** How many of the memories carry a relevance line. */
  function RelevantCount(mems: seq<StoredMemory>): nat {
    if mems == [] then 0
    else RelevantCount(mems[..|mems| - 1]) + (if mems[|mems| - 1].relevancePct > 0 then 1 else 0)
  }

  /** One line per memory plus one per memory with a positive relevance
      percentage. */
  lemma {:induction false} MemoriesLinesSpec(mems: seq<StoredMemory>)
    ensures RelevantCount(mems) <= |mems|
    ensures |MemoriesLines(mems)| == |mems| + RelevantCount(mems)
    ensures (forall k :: 0 <= k < |mems| ==> mems[k].relevancePct <= 0) ==> |MemoriesLines(mems)| == |mems|
    ensures (forall k :: 0 <= k < |mems| ==> mems[k].relevancePct > 0) ==> |MemoriesLines(mems)| == 2 * |mems|
  {
    if mems != [] {
      var init := mems[..|mems| - 1];
      MemoriesLinesSpec(init);
      assert forall k :: 0 <= k < |init| ==> init[k] == mems[k];
    }
  }

  /** The lines of two runs of memories are the lines of each, in order. */
  lemma {:induction false} MemoriesLinesAppend(xs: seq<StoredMemory>, ys: seq<StoredMemory>)
    ensures MemoriesLines(xs + ys) == MemoriesLines(xs) + MemoriesLines(ys)
    decreases |ys|
  {
    if ys == [] {
      assert xs + ys == xs;
    } else {
      var init := ys[..|ys| - 1];
      var last := ys[|ys| - 1];
      assert (xs + ys)[..|xs + ys| - 1] == xs + init;
      assert (xs + ys)[|xs + ys| - 1] == last;
      MemoriesLinesAppend(xs, init);
      AppendAssoc(MemoriesLines(xs), MemoriesLines(init), MemoryLines(last));
    }
  }

  /** Where memory `k` sits among the lines: its header (its type in
      brackets, `memory` when it has none, then its preview) comes right
      after the lines of the memories before it, followed by its relevance
      line exactly when its percentage is positive. */
  lemma MemoryLayout(mems: seq<StoredMemory>, k: nat)
    requires k < |mems|
    ensures var j := |MemoriesLines(mems[..k])|;
      var m := mems[k];
      && |MemoriesLines(mems[..k + 1])| == j + 1 + (if m.relevancePct > 0 then 1 else 0)
      && |MemoriesLines(mems[..k + 1])| <= |MemoriesLines(mems)|
      && MemoriesLines(mems)[j] == "  [" + m.memoryType.GetOr("memory") + "] " + Preview(m.content)
      && (m.relevancePct > 0 ==>
            MemoriesLines(mems)[j + 1] == "    Relevance: " + IntToString(m.relevancePct) + "%")
  {
    var pre := mems[..k];
    var m := mems[k];
    var rest := mems[k + 1..];
    assert mems[..k + 1] == pre + [m];
    assert mems == (pre + [m]) + rest;
    assert (pre + [m])[..|pre|] == pre;
    MemoriesLinesAppend(pre + [m], rest);
    var lm := MemoryLines(m);
    SliceAt(MemoriesLines(pre), lm, MemoriesLines(rest));
  }

  /** The entries of a middle part of a concatenation, by index. */
  lemma SliceAt<T>(a: seq<T>, b: seq<T>, c: seq<T>)
    ensures forall i :: 0 <= i < |b| ==> (a + b + c)[|a| + i] == b[i]
  {
  }

  /** The summary is empty exactly for no memories; otherwise it is the
      title, an underline as long as it, and the lines of at most five
      memories. */
  lemma SummaryLinesSpec(memories: seq<StoredMemory>, title: string)
    ensures SummaryLines(memories, title) == [] <==> memories == []
    ensures memories != [] ==>
              && SummaryLines(memories, title)[0] == "\n" + title
              && |SummaryLines(memories, title)[1]| == |title|
              && (forall k :: 0 <= k < |title| ==> SummaryLines(memories, title)[1][k] == '-')
              && 3 <= |SummaryLines(memories, title)| <= 2 + 2 * ShownMemories
  {
    MemoriesLinesSpec(Take(memories, ShownMemories));
  }

  /** Only the first five memories are shown: the ones after them change
      nothing. */
  lemma SummaryIgnoresRest(memories: seq<StoredMemory>, more: seq<StoredMemory>, title: string)
    requires |memories| >= ShownMemories
    ensures SummaryLines(memories + more, title) == SummaryLines(memories, title)
  {
    assert (memories + more)[..ShownMemories] == memories[..ShownMemories];
  }

  // ---------------------------------------------------------------------
  // main: the context report
  // ---------------------------------------------------------------------

  /** One printed summary block per non-empty search result. */
  function SummaryBlock(memories: seq<StoredMemory>, title: string): seq<string> {
    if memories == [] then [] else [Join("\n", SummaryLines(memories, title))]
  }

  /** The lines written for a session with context; `None` when all three
      searches came back empty. `startedAt` is the formatted clock. */
  function ContextReport(projectName: string, startedAt: string, projectContext: seq<StoredMemory>,
                         recentLessons: seq<StoredMemory>, errorResolutions: seq<StoredMemory>)
    : Option<seq<string>>
  {
    if projectContext == [] && recentLessons == [] && errorResolutions == [] then None
    else Some(
      [Repeat('=', 60), "HEIMDALL CONTEXT LOADED", Repeat('=', 60),
       "\nProject: " + projectName, "Session started: " + startedAt]
      + SummaryBlock(projectContext, "Project Memories")
      + SummaryBlock(recentLessons, "Recent Lessons")
      + SummaryBlock(errorResolutions, "Error Resolutions")
      + ["\n" + Repeat('=', 60), "Use `aes-bizzy memory search <query>` for more context", Repeat('=', 60)])
  }

  /** A report is written exactly when some search found something. It
      names the project, holds one summary block per non-empty result in the
      order project, lessons, errors, and ends with the search hint. */
  lemma ContextReportSpec(projectName: string, startedAt: string, projectContext: seq<StoredMemory>,
                          recentLessons: seq<StoredMemory>, errorResolutions: seq<StoredMemory>)
    ensures var r := ContextReport(projectName, startedAt, projectContext, recentLessons, errorResolutions);
      && (r.None? <==> projectContext == [] && recentLessons == [] && errorResolutions == [])
      && (r.Some? ==>
            var n := |SummaryBlock(projectContext, "Project Memories")|;
            && |r.value| == 8 + n + |SummaryBlock(recentLessons, "Recent Lessons")|
                              + |SummaryBlock(errorResolutions, "Error Resolutions")|
            && r.value[3] == "\nProject: " + projectName
            && r.value[|r.value| - 2] == "Use `aes-bizzy memory search <query>` for more context"
            && (projectContext != [] ==>
                  n == 1 && r.value[5] == Join("\n", SummaryLines(projectContext, "Project Memories")))
            && (recentLessons != [] ==>
                  r.value[5 + n] == Join("\n", SummaryLines(recentLessons, "Recent Lessons")))
            && (errorResolutions != [] ==>
                  r.value[|r.value| - 4] == Join("\n", SummaryLines(errorResolutions, "Error Resolutions"))))
  {
    var r := ContextReport(projectName, startedAt, projectContext, recentLessons, errorResolutions);
    if r.Some? {
      FramedIndex([Repeat('=', 60), "HEIMDALL CONTEXT LOADED", Repeat('=', 60),
                   "\nProject: " + projectName, "Session started: " + startedAt],
                  SummaryBlock(projectContext, "Project Memories"),
                  SummaryBlock(recentLessons, "Recent Lessons"),
                  SummaryBlock(errorResolutions, "Error Resolutions"),
                  ["\n" + Repeat('=', 60), "Use `aes-bizzy memory search <query>` for more context", Repeat('=', 60)]);
    }
  }

  /** Where the parts of a five-line header, up to three blocks and a
      three-line footer sit once they are concatenated. */
  lemma FramedIndex(head: seq<string>, b1: seq<string>, b2: seq<string>, b3: seq<string>, foot: seq<string>)
    requires |head| == 5 && |foot| == 3 && |b3| <= 1
    ensures var r := head + b1 + b2 + b3 + foot;
      && |r| == 8 + |b1| + |b2| + |b3|
      && r[3] == head[3] && r[|r| - 2] == foot[1]
      && (b1 != [] ==> r[5] == b1[0])
      && (b2 != [] ==> r[5 + |b1|] == b2[0])
      && (b3 != [] ==> r[|r| - 4] == b3[0])
  {
    var r := head + b1 + b2 + b3 + foot;
    assert r[3] == head[3];
    if b2 != [] {
      assert (head + b1 + b2)[5 + |b1|] == b2[0];
    }
    if b3 != [] {
      assert (head + b1 + b2 + b3)[5 + |b1| + |b2|] == b3[0];
    }
  }
}

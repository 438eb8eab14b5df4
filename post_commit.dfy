/** hooks/heimdall/post_commit.py: task numbers mentioned in a commit
    message, the classification of the changed files, the commit summary and
    the task tags chosen for it. Running git and the clock stay outside: the
    commit data and the timestamp are inputs. */
module PostCommit {
  import opened Wrappers
  import opened Text

  // ---------------------------------------------------------------------
  // The four task-number patterns of extract_task_ids
  // ---------------------------------------------------------------------

  /** The end of the run of decimal digits starting at `i`. */
  function DigitRun(s: string, i: nat): (e: nat)
    requires i <= |s|
    ensures i <= e <= |s|
    ensures forall k :: i <= k < e ==> IsDigit(s[k])
    ensures e < |s| ==> !IsDigit(s[e])
    decreases |s| - i
  {
    if i < |s| && IsDigit(s[i]) then DigitRun(s, i + 1) else i
  }

  /** The end of the run of whitespace (`\s`) starting at `i`. */
  function SpaceRun(s: string, i: nat): (e: nat)
    requires i <= |s|
    ensures i <= e <= |s|
    ensures forall k :: i <= k < e ==> IsSpace(s[k])
    decreases |s| - i
  {
    if i < |s| && IsSpace(s[i]) then SpaceRun(s, i + 1) else i
  }

  /** A non-empty string of decimal digits. */
  predicate IsDigits(x: string) {
    |x| > 0 && forall k :: 0 <= k < |x| ==> IsDigit(x[k])
  }

  /** A task number as the patterns capture it: a digit run, optionally
      followed by '.' and a second digit run. */
  predicate IsTaskNumber(x: string) {
    IsDigits(x) || exists d :: 0 < d < |x| && x[d] == '.' && IsDigits(x[..d]) && IsDigits(x[d + 1..])
  }

  /** Where `\d+(?:\.\d+)?` ends when it starts at `i` (greedy), if it matches. */
  function NumberEnd(s: string, i: nat): (r: Option<nat>)
    requires i <= |s|
    ensures r.Some? ==> i < r.value <= |s|
  {
    var e := DigitRun(s, i);
    if e == i then None
    else if e + 1 < |s| && s[e] == '.' && IsDigit(s[e + 1]) then Some(DigitRun(s, e + 1))
    else Some(e)
  }

  lemma NumberEndIsTaskNumber(s: string, i: nat)
    requires i <= |s| && NumberEnd(s, i).Some?
    ensures IsTaskNumber(s[i..NumberEnd(s, i).value])
  {
    var e := DigitRun(s, i);
    var x := s[i..NumberEnd(s, i).value];
    if e + 1 < |s| && s[e] == '.' && IsDigit(s[e + 1]) {
      var d := e - i;
      assert x[d] == '.';
      assert IsDigits(x[..d]) by { assert x[..d] == s[i..e]; }
      assert IsDigits(x[d + 1..]) by { assert x[d + 1..] == s[e + 1..NumberEnd(s, i).value]; }
    } else {
      assert IsDigits(x);
    }
  }

  /** The patterns of extract_task_ids, matched against the lower-cased
      message: `task\s+(\d+(?:\.\d+)?)`, `#(\d+)`, `tm-(\d+)` (the
      lower-cased form of `TM-(\d+)` under re.IGNORECASE) and
      `\(task\s+(\d+(?:\.\d+)?)\)`. */
  datatype TaskPattern = TaskWord | Hash | TmDash | ParenTask

  const TaskPatterns: seq<TaskPattern> := [TaskWord, Hash, TmDash, ParenTask]

  /** One match: the captured group and where the whole match ends. */
  datatype Match = Match(group: string, end: nat)

  /** The match of pattern `p` starting exactly at `i`, if any. */
  function MatchAt(p: TaskPattern, s: string, i: nat): (r: Option<Match>)
    requires i <= |s|
    ensures r.Some? ==> i < r.value.end <= |s|
    decreases p.ParenTask?
  {
    match p
    case TaskWord =>
      if StartsAt(s, "task", i) && i + 4 < |s| && IsSpace(s[i + 4]) then
        var k := SpaceRun(s, i + 4);
        match NumberEnd(s, k)
        case Some(e) => Some(Match(s[k..e], e))
        case None => None
      else None
    case Hash =>
      if i < |s| && s[i] == '#' && DigitRun(s, i + 1) > i + 1 then
        Some(Match(s[i + 1..DigitRun(s, i + 1)], DigitRun(s, i + 1)))
      else None
    case TmDash =>
      if StartsAt(s, "tm-", i) && DigitRun(s, i + 3) > i + 3 then
        Some(Match(s[i + 3..DigitRun(s, i + 3)], DigitRun(s, i + 3)))
      else None
    case ParenTask =>
      if i < |s| && s[i] == '(' then
        match MatchAt(TaskWord, s, i + 1)
        case Some(m) =>
          if m.end < |s| && s[m.end] == ')' then Some(Match(m.group, m.end + 1)) else None
        case None => None
      else None
  }

  /** Every group a pattern captures is a task number. */
  lemma MatchAtIsTaskNumber(p: TaskPattern, s: string, i: nat)
    requires i <= |s| && MatchAt(p, s, i).Some?
    ensures IsTaskNumber(MatchAt(p, s, i).value.group)
    decreases p.ParenTask?
  {
    match p
    case TaskWord =>
      NumberEndIsTaskNumber(s, SpaceRun(s, i + 4));
    case Hash =>
      assert IsDigits(MatchAt(p, s, i).value.group);
    case TmDash =>
      assert IsDigits(MatchAt(p, s, i).value.group);
    case ParenTask =>
      MatchAtIsTaskNumber(TaskWord, s, i + 1);
  }

  /** `re.findall(p, s)` from position `i`: scan left to right, and after a
      match resume where it ended, so matches never overlap. */
  function FindAll(p: TaskPattern, s: string, i: nat): seq<string>
    requires i <= |s|
    decreases |s| - i
  {
    if i == |s| then []
    else
      match MatchAt(p, s, i)
      case Some(m) => [m.group] + FindAll(p, s, m.end)
      case None => FindAll(p, s, i + 1)
  }

  lemma {:induction false} FindAllAreTaskNumbers(p: TaskPattern, s: string, i: nat)
    requires i <= |s|
    ensures forall x :: x in FindAll(p, s, i) ==> IsTaskNumber(x)
    decreases |s| - i
  {
    if i < |s| {
      match MatchAt(p, s, i)
      case Some(m) =>
        MatchAtIsTaskNumber(p, s, i);
        FindAllAreTaskNumbers(p, s, m.end);
      case None =>
        FindAllAreTaskNumbers(p, s, i + 1);
    }
  }

  /** All the groups the given patterns find, pattern after pattern. */
  function MatchesOf(s: string, ps: seq<TaskPattern>): seq<string> {
    if ps == [] then [] else MatchesOf(s, ps[..|ps| - 1]) + FindAll(ps[|ps| - 1], s, 0)
  }

  lemma {:induction false} MatchesAreTaskNumbers(s: string, ps: seq<TaskPattern>)
    ensures forall x :: x in MatchesOf(s, ps) ==> IsTaskNumber(x)
  {
    if ps != [] {
      MatchesAreTaskNumbers(s, ps[..|ps| - 1]);
      FindAllAreTaskNumbers(ps[|ps| - 1], s, 0);
    }
  }

  /** Nothing matches in an empty message. */
  lemma {:induction false} NoMatchesInEmpty(s: string, ps: seq<TaskPattern>)
    requires |s| == 0
    ensures MatchesOf(s, ps) == []
  {
    if ps != [] {
      NoMatchesInEmpty(s, ps[..|ps| - 1]);
    }
  }

  /** `list(set(xs))`: the distinct elements of `xs`, each once. Python's
      order is that of the hash set; this keeps first occurrences in order,
      and only the set of elements is promised. */
  method Distinct(xs: seq<string>) returns (ys: seq<string>)
    ensures NoDuplicates(ys)
    ensures forall x :: x in ys <==> x in xs
    ensures |ys| <= |xs|
  {
    ys := [];
    var i := 0;
    while i < |xs|
      invariant 0 <= i <= |xs|
      invariant |ys| <= i
      invariant NoDuplicates(ys)
      invariant forall x :: x in ys <==> x in xs[..i]
    {
      TakeSnoc(xs, i);
      if xs[i] !in ys {
        ys := ys + [xs[i]];
      }
      i := i + 1;
    }
    assert xs[..i] == xs;
  }

  /** extract_task_ids: the distinct groups of all four patterns in the
      lower-cased message. Every one is a task number, and a message
      without text yields none. */
  method ExtractTaskIds(message: string) returns (ids: seq<string>)
    ensures NoDuplicates(ids)
    ensures forall x :: x in ids <==> x in MatchesOf(Lower(message), TaskPatterns)
    ensures forall x :: x in ids ==> IsTaskNumber(x)
    ensures message == "" ==> ids == []
  {
    var taskIds: seq<string> := [];
    var messageLower := Lower(message);
    var k := 0;
    while k < |TaskPatterns|
      invariant 0 <= k <= |TaskPatterns|
      invariant taskIds == MatchesOf(messageLower, TaskPatterns[..k])
    {
      TakeSnoc(TaskPatterns, k);
      taskIds := taskIds + FindAll(TaskPatterns[k], messageLower, 0);
      k := k + 1;
    }
    assert TaskPatterns[..k] == TaskPatterns;
    ids := Distinct(taskIds);
    MatchesAreTaskNumbers(messageLower, TaskPatterns);
    if message == "" {
      NoMatchesInEmpty(messageLower, TaskPatterns);
    }
  }

  // ---------------------------------------------------------------------
  // categorize_files
  // ---------------------------------------------------------------------

  /** The keys of the dictionary categorize_files returns. */
  datatype Category = Source | Test | Config | Docs | Other

  /** The keys in the order the dictionary literal inserts them. */
  const Categories: seq<Category> := [Source, Test, Config, Docs, Other]

  /** `category.title()` */
  function CategoryTitle(c: Category): string {
    match c
    case Source => "Source"
    case Test => "Test"
    case Config => "Config"
    case Docs => "Docs"
    case Other => "Other"
  }

  const DocSuffixes: seq<string> := [".md", ".txt", ".rst"]
  const ConfigSuffixes: seq<string> := [".json", ".yaml", ".yml", ".toml", ".ini", ".env"]
  const SourceSuffixes: seq<string> := [".ts", ".tsx", ".js", ".jsx", ".py", ".go", ".rs"]

  /** The test condition on the lower-cased name. */
  predicate LooksLikeTest(fileLower: string) {
    Contains(fileLower, "test") || Contains(fileLower, ".test.") || Contains(fileLower, ".spec.")
  }

  /** The category of one file, tested in the order of the `if`/`elif`
      chain: test, then docs, config and source by suffix, else other. */
  function Classify(file: string): Category {
    var fileLower := Lower(file);
    if LooksLikeTest(fileLower) then Test
    else if EndsWithAny(fileLower, DocSuffixes) then Docs
    else if EndsWithAny(fileLower, ConfigSuffixes) then Config
    else if EndsWithAny(fileLower, SourceSuffixes) then Source
    else Other
  }

  /** The priority of the chain, stated per category in both directions: a
      file lands in a category exactly when its own test passes and every
      earlier test fails. */
  lemma ClassifyPriority(file: string)
    ensures var f := Lower(file);
      && (Classify(file) == Test <==> LooksLikeTest(f))
      && (Classify(file) == Docs <==> !LooksLikeTest(f) && EndsWithAny(f, DocSuffixes))
      && (Classify(file) == Config <==>
            !LooksLikeTest(f) && !EndsWithAny(f, DocSuffixes) && EndsWithAny(f, ConfigSuffixes))
      && (Classify(file) == Source <==>
            !LooksLikeTest(f) && !EndsWithAny(f, DocSuffixes) && !EndsWithAny(f, ConfigSuffixes)
            && EndsWithAny(f, SourceSuffixes))
  {
  }

  /** The `".test."` test never decides anything: a name containing it also
      contains `"test"`. */
  lemma DotTestRedundant(fileLower: string)
    ensures LooksLikeTest(fileLower) <==> Contains(fileLower, "test") || Contains(fileLower, ".spec.")
  {
    if Contains(fileLower, ".test.") {
      ContainsIff(fileLower, ".test.");
      var k :| StartsAt(fileLower, ".test.", k);
      var window := fileLower[k..k + 6];
      assert window == ".test.";
      assert fileLower[k + 1..k + 5] == window[1..5];
      assert window[1..5] == "test";
      assert StartsAt(fileLower, "test", k + 1);
      ContainsAt(fileLower, "test", k + 1);
    }
  }

  /** The files of category `c`, in input order. */
  function Bucket(files: seq<string>, c: Category): seq<string> {
    if files == [] then []
    else if Classify(files[|files| - 1]) == c then Bucket(files[..|files| - 1], c) + [files[|files| - 1]]
    else Bucket(files[..|files| - 1], c)
  }

  /** categorize_files: every key is present, even for no files, and each
      holds the files of its category in input order. */
  method CategorizeFiles(files: seq<string>) returns (categories: map<Category, seq<string>>)
    ensures forall c :: c in categories && categories[c] == Bucket(files, c)
  {
    categories := map[Source := [], Test := [], Config := [], Docs := [], Other := []];
    var i := 0;
    assert files[..0] == [];
    assert forall c :: c in categories && categories[c] == [] by {
      forall c ensures c in categories && categories[c] == [] {
        match c
        case Source =>
        case Test =>
        case Config =>
        case Docs =>
        case Other =>
      }
    }
    while i < |files|
      invariant 0 <= i <= |files|
      invariant forall c :: c in categories && categories[c] == Bucket(files[..i], c)
    {
      TakeSnoc(files, i);
      assert files[..i + 1][..i] == files[..i];
      var c := Classify(files[i]);
      categories := categories[c := categories[c] + [files[i]]];
      i := i + 1;
    }
    assert files[..i] == files;
  }

  /** A file is in the bucket of `c` exactly when it is one of the files and
      its category is `c`: each file is in one bucket and one only. */
  lemma {:induction false} BucketMembers(files: seq<string>, c: Category, x: string)
    ensures x in Bucket(files, c) <==> x in files && Classify(x) == c
  {
    if files != [] {
      var init := files[..|files| - 1];
      BucketMembers(init, c, x);
      assert files == init + [files[|files| - 1]];
    }
  }

  /** Bucketing a concatenation buckets each part: the order of the input is
      kept inside every category. */
  lemma {:induction false} BucketAppend(xs: seq<string>, ys: seq<string>, c: Category)
    ensures Bucket(xs + ys, c) == Bucket(xs, c) + Bucket(ys, c)
    decreases |ys|
  {
    if ys == [] {
      assert xs + ys == xs;
    } else {
      var init := ys[..|ys| - 1];
      var y := ys[|ys| - 1];
      assert (xs + ys)[..|xs + ys| - 1] == xs + init;
      BucketAppend(xs, init, c);
      if Classify(y) == c {
        AppendAssoc(Bucket(xs, c), Bucket(init, c), [y]);
      }
    }
  }

  /** One more file adds itself to its own bucket and to no other. */
  lemma BucketSnoc(files: seq<string>, x: string, c: Category)
    ensures Bucket(files + [x], c) == Bucket(files, c) + (if Classify(x) == c then [x] else [])
  {
    assert (files + [x])[..|files + [x]| - 1] == files;
  }

  /** The files of all buckets together, counted with repetition. */
  ghost function AllBuckets(files: seq<string>): multiset<string> {
    multiset(Bucket(files, Source)) + multiset(Bucket(files, Test)) + multiset(Bucket(files, Config))
    + multiset(Bucket(files, Docs)) + multiset(Bucket(files, Other))
  }

  /** One more file adds exactly one copy of itself to all buckets together. */
  lemma AllBucketsSnoc(files: seq<string>, x: string)
    ensures AllBuckets(files + [x]) == AllBuckets(files) + multiset{x}
  {
    var c := Classify(x);
    var ms := multiset(Bucket(files, c));
    BucketSnoc(files, x, c);
    assert multiset(Bucket(files + [x], c)) == ms + multiset{x};
    forall d | d != c
      ensures Bucket(files + [x], d) == Bucket(files, d)
    {
      BucketSnoc(files, x, d);
    }
  }

  /** The categories partition the files: the multiset of all files is the
      sum of the buckets. */
  lemma {:induction false} BucketsPartition(files: seq<string>)
    ensures multiset(files) == AllBuckets(files)
  {
    if files != [] {
      var init := files[..|files| - 1];
      var x := files[|files| - 1];
      BucketsPartition(init);
      assert files == init + [x];
      AllBucketsSnoc(init, x);
    }
  }

  /** Hence the bucket sizes add up to the number of files. */
  lemma BucketSizes(files: seq<string>)
    ensures |files| == |Bucket(files, Source)| + |Bucket(files, Test)| + |Bucket(files, Config)|
                       + |Bucket(files, Docs)| + |Bucket(files, Other)|
  {
    BucketsPartition(files);
  }

  // ---------------------------------------------------------------------
  // get_last_commit_info
  // ---------------------------------------------------------------------

  /** What one `git` sub-process reported: its exit status and its output,
      or that running it raised `TimeoutExpired` or `FileNotFoundError`. */
  datatype GitRun = Exited(returnCode: int, stdout: string) | Raised

  /** The commit dictionary; every key is always present. */
  datatype CommitInfo = CommitInfo(hash: string, fullHash: string, message: string,
                                   author: string, files: seq<string>, stats: string)

  /** The stripped output of a run that succeeded, else the empty string. */
  function OutputOr(run: GitRun): string {
    if run.Exited? && run.returnCode == 0 then Strip(run.stdout) else ""
  }

  /** `[f for f in files if f]` */
  function NonEmpty(files: seq<string>): seq<string> {
    if files == [] then []
    else if files[|files| - 1] != "" then NonEmpty(files[..|files| - 1]) + [files[|files| - 1]]
    else NonEmpty(files[..|files| - 1])
  }

  lemma {:induction false} NonEmptyMembers(files: seq<string>, f: string)
    ensures f in NonEmpty(files) <==> f in files && f != ""
  {
    if files != [] {
      var init := files[..|files| - 1];
      NonEmptyMembers(init, f);
      assert files == init + [files[|files| - 1]];
    }
  }

  /** get_last_commit_info, from the reports of the five `git` commands
      (`rev-parse HEAD`, `log -1 --format=%B`, `log -1 --format=%an <%ae>`,
      `diff-tree --name-only`, `diff --stat`): no commit when the first
      fails or any of them raises; otherwise a failed command contributes an
      empty value. The commands run one after the other, so a run that
      raises ends the function and the runs after it never happen. */
  function CommitInfoOf(hashRun: GitRun, msgRun: GitRun, authorRun: GitRun,
                        filesRun: GitRun, statsRun: GitRun): Option<CommitInfo>
  {
    if hashRun.Raised? || hashRun.returnCode != 0 then None
    else if msgRun.Raised? || authorRun.Raised? || filesRun.Raised? || statsRun.Raised? then None
    else
      var commitHash := Strip(hashRun.stdout);
      var files := if filesRun.returnCode == 0 then Lines(Strip(filesRun.stdout)) else [];
      Some(CommitInfo(Take(commitHash, 8), commitHash, OutputOr(msgRun), OutputOr(authorRun),
                      NonEmpty(files), OutputOr(statsRun)))
  }

  /** No commit exactly when `rev-parse` exits with a failure or some
      command raises. */
  lemma CommitInfoOfNone(hashRun: GitRun, msgRun: GitRun, authorRun: GitRun,
                         filesRun: GitRun, statsRun: GitRun)
    ensures CommitInfoOf(hashRun, msgRun, authorRun, filesRun, statsRun).None?
            <==> hashRun.Raised? || hashRun.returnCode != 0
                 || msgRun.Raised? || authorRun.Raised? || filesRun.Raised? || statsRun.Raised?
  {
  }

  /** What the commit dictionary holds: the short hash is the first eight
      characters of the full one; the files are the non-empty lines of the
      `diff-tree` output, none of them empty and none holding a newline,
      and none at all when that command fails. */
  lemma CommitInfoOfSpec(hashRun: GitRun, msgRun: GitRun, authorRun: GitRun,
                         filesRun: GitRun, statsRun: GitRun)
    ensures var r := CommitInfoOf(hashRun, msgRun, authorRun, filesRun, statsRun);
      (r.Some? ==>
            && |r.value.hash| == (if |r.value.fullHash| <= 8 then |r.value.fullHash| else 8)
            && r.value.hash == r.value.fullHash[..|r.value.hash|]
            && (forall f :: f in r.value.files ==>
                  f != "" && '\n' !in f && filesRun.returnCode == 0 && f in Lines(Strip(filesRun.stdout)))
            && (forall f :: filesRun.returnCode == 0 && f in Lines(Strip(filesRun.stdout)) && f != ""
                  ==> f in r.value.files)
            && (msgRun.returnCode != 0 ==> r.value.message == "")
            && (statsRun.returnCode != 0 ==> r.value.stats == ""))
  {
    if CommitInfoOf(hashRun, msgRun, authorRun, filesRun, statsRun).Some? {
      var files := if filesRun.returnCode == 0 then Lines(Strip(filesRun.stdout)) else [];
      forall f ensures f in NonEmpty(files) <==> f in files && f != "" {
        NonEmptyMembers(files, f);
      }
    }
  }

  // ---------------------------------------------------------------------
  // create_commit_memory_content
  // ---------------------------------------------------------------------

  /** At most this many files of one category are listed. */
  const FilesPerCategory: nat := 10

  /** The lines of one non-empty category: a heading with the count, the
      first ten files as bullets, then a line counting the rest. */
  function CategoryLines(c: Category, fs: seq<string>): seq<string> {
    ["\n### " + CategoryTitle(c) + " (" + NatToString(|fs|) + ")"]
    + Bullets(Take(fs, FilesPerCategory))
    + MoreLine(|fs|, FilesPerCategory, "- ... and ", " more")
  }

  /** The sections of the categories `cats`, in order, skipping empty ones. */
  function CategorySections(files: seq<string>, cats: seq<Category>): seq<string> {
    if cats == [] then []
    else
      var c := cats[|cats| - 1];
      var bucket := Bucket(files, c);
      CategorySections(files, cats[..|cats| - 1]) + (if bucket != [] then CategoryLines(c, bucket) else [])
  }

  function HeaderSection(info: CommitInfo): seq<string> {
    ["# Git Commit: " + info.hash, "", "## Commit Message", info.message, ""]
  }

  function FilesSection(files: seq<string>): seq<string> {
    if files == [] then []
    else ["## Files Changed (" + NatToString(|files|) + " files)"] + CategorySections(files, Categories) + [""]
  }

  function StatsSection(stats: string): seq<string> {
    if stats == "" then [] else ["## Stats", "```", stats, "```", ""]
  }

  /** The closing section; `now` is the ISO time of the clock. */
  function InfoSection(info: CommitInfo, now: string): seq<string> {
    ["## Commit Info", "Hash: " + Take(info.fullHash, 12), "Author: " + info.author, "Date: " + now]
  }

  /** The lines of the memory content, before they are joined. */
  function CommitParts(info: CommitInfo, now: string): seq<string> {
    HeaderSection(info) + FilesSection(info.files) + StatsSection(info.stats) + InfoSection(info, now)
  }

  /** One more category adds its section when its bucket is not empty. */
  lemma CategorySectionsSnoc(files: seq<string>, cats: seq<Category>, i: nat)
    requires i < |cats|
    ensures CategorySections(files, cats[..i + 1])
            == CategorySections(files, cats[..i])
               + (if Bucket(files, cats[i]) != [] then CategoryLines(cats[i], Bucket(files, cats[i])) else [])
  {
    assert cats[..i + 1][..i] == cats[..i];
  }

  /** The body of the category loop for a non-empty category. */
  method AppendCategory(parts: seq<string>, c: Category, catFiles: seq<string>)
    returns (out: seq<string>)
    ensures out == parts + CategoryLines(c, catFiles)
  {
    var heading := "\n### " + CategoryTitle(c) + " (" + NatToString(|catFiles|) + ")";
    var listed := Take(catFiles, FilesPerCategory);
    out := AppendBullets(parts + [heading], listed);
    var more := MoreLine(|catFiles|, FilesPerCategory, "- ... and ", " more");
    if |catFiles| > FilesPerCategory {
      out := out + ["- ... and " + NatToString(|catFiles| - FilesPerCategory) + " more"];
      assert [out[|out| - 1]] == more;
    } else {
      assert more == [];
    }
    AppendAssoc(parts, [heading], Bullets(listed));
    AppendAssoc(parts, [heading] + Bullets(listed), more);
  }

  /** The category loop: appends the sections of the categories in the
      order of the dictionary, reading each bucket from `categories`. */
  method AppendCategorySections(parts: seq<string>, files: seq<string>,
                                categories: map<Category, seq<string>>)
    returns (out: seq<string>)
    requires forall c :: c in categories && categories[c] == Bucket(files, c)
    ensures out == parts + CategorySections(files, Categories)
  {
    out := parts;
    var i := 0;
    assert Categories[..0] == [];
    while i < |Categories|
      invariant 0 <= i <= |Categories|
      invariant out == parts + CategorySections(files, Categories[..i])
    {
      var c := Categories[i];
      var catFiles := categories[c];
      ghost var section := if catFiles != [] then CategoryLines(c, catFiles) else [];
      CategorySectionsSnoc(files, Categories, i);
      AppendAssoc(parts, CategorySections(files, Categories[..i]), section);
      if catFiles != [] {
        out := AppendCategory(out, c, catFiles);
      } else {
        assert out == out + section;
      }
      i := i + 1;
    }
    assert Categories[..i] == Categories;
  }

  /** The files part of create_commit_memory_content, skipped when the
      commit has no files. */
  method AppendFilesSection(parts: seq<string>, files: seq<string>) returns (out: seq<string>)
    ensures out == parts + FilesSection(files)
  {
    out := parts;
    if files != [] {
      var categories := CategorizeFiles(files);
      var heading := "## Files Changed (" + NatToString(|files|) + " files)";
      out := AppendCategorySections(out + [heading], files, categories);
      out := out + [""];
      ghost var sections := CategorySections(files, Categories);
      AppendAssoc(parts, [heading], sections);
      AppendAssoc(parts, [heading] + sections, [""]);
    } else {
      assert out == parts + [];
    }
  }

  /** The stats part of create_commit_memory_content, skipped when the
      stats are empty. */
  method AppendStatsSection(parts: seq<string>, stats: string) returns (out: seq<string>)
    ensures out == parts + StatsSection(stats)
  {
    out := parts;
    if stats != "" {
      out := out + ["## Stats", "```", stats, "```", ""];
    } else {
      assert out == parts + [];
    }
  }

  /** create_commit_memory_content; `now` stands for `datetime.now().isoformat()`. */
  method CreateCommitMemoryContent(info: CommitInfo, now: string) returns (content: string)
    ensures content == Join("\n", CommitParts(info, now))
  {
    var parts := ["# Git Commit: " + info.hash, "", "## Commit Message", info.message, ""];
    parts := AppendFilesSection(parts, info.files);
    parts := AppendStatsSection(parts, info.stats);
    parts := parts + ["## Commit Info", "Hash: " + Take(info.fullHash, 12),
                      "Author: " + info.author, "Date: " + now];
    content := Join("\n", parts);
  }

  /** A category section is its heading entry, at most ten file entries
      and at most one entry counting the rest (entries of the parts list,
      before they are joined). */
  lemma CategoryLinesBound(c: Category, fs: seq<string>)
    ensures 1 <= |CategoryLines(c, fs)| <= FilesPerCategory + 2
    ensures |fs| <= FilesPerCategory ==> |CategoryLines(c, fs)| == |fs| + 1
  {
  }

  /** However many files a commit touches, the sections of `cats` stay
      within twelve parts-list entries per category. */
  lemma {:induction false} CategorySectionsBound(files: seq<string>, cats: seq<Category>)
    ensures |CategorySections(files, cats)| <= (FilesPerCategory + 2) * |cats|
  {
    if cats != [] {
      var c := cats[|cats| - 1];
      CategorySectionsBound(files, cats[..|cats| - 1]);
      CategoryLinesBound(c, Bucket(files, c));
    }
  }

  /** The parts list of the memory has at most 76 entries, whatever the
      number of files. An entry may itself span several lines once joined:
      the message, the stats and each category heading do. */
  lemma CommitPartsBound(info: CommitInfo, now: string)
    ensures |CommitParts(info, now)| <= 5 + (2 + 5 * (FilesPerCategory + 2)) + 5 + 4
  {
    CategorySectionsBound(info.files, Categories);
  }

  /** The frame of the content: it opens with the short hash and the
      message, has a files section exactly when there are files and a stats
      section exactly when there are stats, and closes with the first twelve
      characters of the full hash, the author and the time. */
  lemma CommitPartsFrame(info: CommitInfo, now: string)
    ensures var parts := CommitParts(info, now);
      && |parts| >= 9
      && parts[0] == "# Git Commit: " + info.hash
      && parts[3] == info.message
      && parts[|parts| - 3] == "Hash: " + info.fullHash[..|parts[|parts| - 3]| - 6]
      && |parts[|parts| - 3]| <= 6 + 12
      && parts[|parts| - 2] == "Author: " + info.author
      && parts[|parts| - 1] == "Date: " + now
    ensures FilesSection(info.files) == [] <==> info.files == []
    ensures info.files != [] ==>
              FilesSection(info.files)[0] == "## Files Changed (" + NatToString(|info.files|) + " files)"
    ensures StatsSection(info.stats) == [] <==> info.stats == ""
  {
    var parts := CommitParts(info, now);
    assert parts[|parts| - 4..] == InfoSection(info, now);
  }

  /** A category section lists each of the first ten files as a bullet. */
  lemma CategoryLinesList(c: Category, fs: seq<string>, k: nat)
    requires k < |fs| && k < FilesPerCategory
    ensures "- " + fs[k] in CategoryLines(c, fs)
  {
    var heading := ["\n### " + CategoryTitle(c) + " (" + NatToString(|fs|) + ")"];
    var bullets := Bullets(Take(fs, FilesPerCategory));
    assert bullets[k] == "- " + fs[k];
    InAppend(heading, bullets, "- " + fs[k]);
    InAppend(heading + bullets, MoreLine(|fs|, FilesPerCategory, "- ... and ", " more"), "- " + fs[k]);
  }

  /** Every file of a bucket among the first ten is listed as a bullet in
      the sections of any category list holding its category. */
  lemma {:induction false} CategorySectionsList(files: seq<string>, cats: seq<Category>, c: Category, k: nat)
    requires c in cats
    requires k < |Bucket(files, c)| && k < FilesPerCategory
    ensures "- " + Bucket(files, c)[k] in CategorySections(files, cats)
  {
    var init := cats[..|cats| - 1];
    var last := cats[|cats| - 1];
    var line := "- " + Bucket(files, c)[k];
    var before := CategorySections(files, init);
    var bucket := Bucket(files, last);
    var section := if bucket != [] then CategoryLines(last, bucket) else [];
    assert CategorySections(files, cats) == before + section;
    if last == c {
      CategoryLinesList(c, Bucket(files, c), k);
      InAppend(before, section, line);
    } else {
      InInit(cats, c);
      CategorySectionsList(files, init, c, k);
      InAppend(before, section, line);
    }
  }

  /** The content lists each changed file that is among the first ten of
      its category, as `- <file>`. */
  lemma CommitListsFile(info: CommitInfo, now: string, c: Category, k: nat)
    requires k < |Bucket(info.files, c)| && k < FilesPerCategory
    ensures "- " + Bucket(info.files, c)[k] in CommitParts(info, now)
  {
    assert c in Categories;
    CategorySectionsList(info.files, Categories, c, k);
  }

  // ---------------------------------------------------------------------
  // main: task tags
  // ---------------------------------------------------------------------

  /** At most this many task ids become tags. */
  const TaggedTaskIds: nat := 3

  /** The task id and the additional tags `main` passes on: the first
      extracted id, if any, is the task id; the tags are `git-commit`, the
      commit tag and one `task:` tag for each of the first three ids. */
  method SelectTaskTags(hash: string, taskIds: seq<string>)
    returns (taskId: Option<string>, additional: seq<string>)
    ensures taskId == if taskIds == [] then None else Some(taskIds[0])
    ensures |additional| == 2 + (if |taskIds| < TaggedTaskIds then |taskIds| else TaggedTaskIds)
    ensures additional[0] == "git-commit" && additional[1] == "commit:" + hash
    ensures forall k :: 2 <= k < |additional| ==> additional[k] == "task:" + taskIds[k - 2]
    ensures taskId.Some? ==> additional[2] == "task:" + taskId.value
  {
    taskId := if taskIds != [] then Some(taskIds[0]) else None;
    additional := ["git-commit", "commit:" + hash];
    var first := Take(taskIds, TaggedTaskIds);
    var i := 0;
    while i < |first|
      invariant 0 <= i <= |first|
      invariant |additional| == 2 + i
      invariant additional[0] == "git-commit" && additional[1] == "commit:" + hash
      invariant forall k :: 2 <= k < |additional| ==> additional[k] == "task:" + taskIds[k - 2]
    {
      additional := additional + ["task:" + first[i]];
      i := i + 1;
    }
  }
}

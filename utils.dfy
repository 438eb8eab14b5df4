/** hooks/heimdall/utils.py: tag construction, technology detection and the
    argument vectors handed to the `aes-bizzy` memory CLI. Running the CLI,
    reading the project's files and the clock stay outside the model. */
module Utils {
  import opened Wrappers
  import opened Text

  const HeimdallCli: string := "aes-bizzy"
  const MemorySubcommand: string := "memory"

  // ---------------------------------------------------------------------
  // Tags
  // ---------------------------------------------------------------------

  /** TAG_PREFIXES */
  const TagPrefixes: map<string, string> := map[
    "AGENT" := "agent:",
    "PROJECT" := "project:",
    "TASK" := "task:",
    "TYPE" := "type:",
    "TECH" := "tech:",
    "COMPONENT" := "component:",
    "FEATURE" := "feature:",
    "ERROR" := "error:",
    "PATTERN" := "pattern:",
    "DEPENDENCY" := "dep:"
  ]

  /** `TAG_PREFIXES.get(key, "")` */
  function TagPrefix(key: string): string {
    if key in TagPrefixes then TagPrefixes[key] else ""
  }

  /** No upper-case letter, no space and no underscore anywhere in `t`. */
  predicate CleanChars(t: string) {
    forall k :: 0 <= k < |t| ==> !IsUpper(t[k]) && t[k] != ' ' && t[k] != '_'
  }

  /** No whitespace at either end of `t`. */
  predicate TrimmedEnds(t: string) {
    t != [] ==> !IsSpace(t[0]) && !IsSpace(t[|t| - 1])
  }

  /** A tag in normal form: no upper-case letter, no space, no underscore, and
      no whitespace at either end. */
  predicate IsNormalized(t: string) {
    CleanChars(t) && TrimmedEnds(t)
  }

  /** normalize_tag: lower-case, strip, then turn spaces and underscores into
      hyphens. */
  function NormalizeTag(tag: string): string {
    ReplaceChar(ReplaceChar(Strip(Lower(tag)), ' ', '-'), '_', '-')
  }

  /** Stripping a string without upper-case letters keeps it so, and leaves no
      whitespace at the ends. */
  lemma StripKeepsNoUpper(s: string)
    requires NoUpper(s)
    ensures NoUpper(Strip(s)) && TrimmedEnds(Strip(s))
  {
    var l := StripLeft(s);
    assert NoUpper(l);
  }

  /** The two replacements of normalize_tag put a stripped lower-case string
      in normal form. */
  lemma ReplacementsNormalize(s: string)
    requires NoUpper(s) && TrimmedEnds(s)
    ensures IsNormalized(ReplaceChar(ReplaceChar(s, ' ', '-'), '_', '-'))
  {
    var b := ReplaceChar(ReplaceChar(s, ' ', '-'), '_', '-');
    assert forall k :: 0 <= k < |b| ==> b[k] == '-' || b[k] == s[k];
  }

  /** Whatever the input, normalize_tag returns a tag in normal form, and
      never a longer one. */
  lemma NormalizeTagNormalizes(tag: string)
    ensures IsNormalized(NormalizeTag(tag))
    ensures |NormalizeTag(tag)| <= |tag|
  {
    StripKeepsNoUpper(Lower(tag));
    ReplacementsNormalize(Strip(Lower(tag)));
  }

  /** A tag already in normal form is left unchanged by normalize_tag. */
  lemma NormalizedIsFixpoint(t: string)
    requires IsNormalized(t)
    ensures NormalizeTag(t) == t
  {
    LowerOfLower(t);
    StripStable(t);
    assert ReplaceChar(t, ' ', '-') == t;
    assert ReplaceChar(t, '_', '-') == t;
  }

  /** normalize_tag is idempotent. */
  lemma NormalizeTagIdempotent(tag: string)
    ensures NormalizeTag(NormalizeTag(tag)) == NormalizeTag(tag)
  {
    NormalizeTagNormalizes(tag);
    NormalizedIsFixpoint(NormalizeTag(tag));
  }

  /** Every prefix in TAG_PREFIXES is itself in normal form and ends with ':'. */
  lemma PrefixesNormalized(key: string)
    requires key in TagPrefixes
    ensures IsNormalized(TagPrefixes[key]) && |TagPrefixes[key]| > 0
    ensures TagPrefixes[key][|TagPrefixes[key]| - 1] == ':'
  {
  }

  /** Gluing a normal-form prefix ending in a non-space to a normal-form tag
      gives a normal-form tag. */
  lemma ConcatNormalized(p: string, t: string)
    requires IsNormalized(p) && IsNormalized(t) && p != []
    ensures IsNormalized(p + t)
  {
    var s := p + t;
    assert s[0] == p[0];
    assert s[|s| - 1] == if t == [] then p[|p| - 1] else t[|t| - 1];
    forall k | 0 <= k < |s|
      ensures !IsUpper(s[k]) && s[k] != ' ' && s[k] != '_'
    {
      if k < |p| { assert s[k] == p[k]; } else { assert s[k] == t[k - |p|]; }
    }
  }

  /** construct_tag: the prefix registered for `key` (none for an unknown
      key) followed by the normalised value. */
  function ConstructTag(key: string, value: string): string {
    TagPrefix(key) + NormalizeTag(value)
  }

  /** A constructed tag is in normal form, so normalising it again changes
      nothing. */
  lemma ConstructTagNormalized(key: string, value: string)
    ensures key in TagPrefixes ==> |ConstructTag(key, value)| > 0 && ConstructTag(key, value)[..|TagPrefixes[key]|] == TagPrefixes[key]
    ensures key !in TagPrefixes ==> ConstructTag(key, value) == NormalizeTag(value)
    ensures IsNormalized(ConstructTag(key, value))
    ensures NormalizeTag(ConstructTag(key, value)) == ConstructTag(key, value)
  {
    NormalizeTagNormalizes(value);
    if key in TagPrefixes {
      PrefixesNormalized(key);
      ConcatNormalized(TagPrefixes[key], NormalizeTag(value));
    } else {
      assert ConstructTag(key, value) == NormalizeTag(value);
    }
    NormalizedIsFixpoint(ConstructTag(key, value));
  }

  /** Every tag of `ts` is in normal form. */
  predicate AllNormalized(ts: seq<string>) {
    forall k :: 0 <= k < |ts| ==> IsNormalized(ts[k])
  }

  lemma AllNormalizedConcat(a: seq<string>, b: seq<string>)
    requires AllNormalized(a) && AllNormalized(b)
    ensures AllNormalized(a + b)
  {
    forall k | 0 <= k < |a + b| ensures IsNormalized((a + b)[k]) {
      if k < |a| { assert (a + b)[k] == a[k]; } else { assert (a + b)[k] == b[k - |a|]; }
    }
  }

  /** `[construct_tag(key, value)]` when `value` is present, else nothing. */
  function OptionalTag(key: string, value: string): seq<string> {
    if value != "" then [ConstructTag(key, value)] else []
  }

  /** `construct_tag("TECH", tech)` */
  function TechTag(tech: string): string {
    ConstructTag("TECH", tech)
  }

  /** One `tech:` tag per entry, in order and with repeats. */
  function TechTags(techStack: seq<string>): seq<string> {
    MapSeq(TechTag, techStack)
  }

  lemma TechTagsSnoc(xs: seq<string>, x: string)
    ensures TechTags(xs + [x]) == TechTags(xs) + [ConstructTag("TECH", x)]
  {
    MapSeqSnoc(TechTag, xs, x);
  }

  /** Entry `k` of the tech tags is the tag of entry `k` of the stack: no
      entry is dropped, merged or reordered. */
  lemma TechTagsSpec(techStack: seq<string>)
    ensures |TechTags(techStack)| == |techStack|
    ensures forall k :: 0 <= k < |techStack| ==> TechTags(techStack)[k] == ConstructTag("TECH", techStack[k])
  {
    MapSeqIndex(TechTag, techStack);
  }

  /** Every tech tag is in normal form. */
  lemma {:induction false} TechTagsNormalized(techStack: seq<string>)
    ensures AllNormalized(TechTags(techStack))
  {
    if techStack != [] {
      var init := techStack[..|techStack| - 1];
      var last := techStack[|techStack| - 1];
      TechTagsNormalized(init);
      ConstructTagNormalized("TECH", last);
      SingleNormalized(TechTag(last));
      assert TechTags(techStack) == TechTags(init) + [TechTag(last)];
      AllNormalizedConcat(TechTags(init), [TechTag(last)]);
    }
  }

  /** The tags generate_standard_tags emits before the additional ones, in
      their fixed order: agent, task, type, project, then one `tech:` tag per
      entry of the tech stack. The project tag uses the given project name,
      or else the auto-detected one. */
  function LeadingTags(agent: string, task: string, memType: string, project: string,
                       detectedProject: string, techStack: seq<string>): seq<string>
  {
    OptionalTag("AGENT", agent)
    + OptionalTag("TASK", task)
    + OptionalTag("TYPE", memType)
    + OptionalTag("PROJECT", if project != "" then project else detectedProject)
    + TechTags(techStack)
  }

  lemma SingleNormalized(t: string)
    requires IsNormalized(t)
    ensures AllNormalized([t])
  {
  }

  lemma OptionalTagNormalized(key: string, value: string)
    ensures AllNormalized(OptionalTag(key, value))
  {
    if value != "" {
      ConstructTagNormalized(key, value);
      SingleNormalized(ConstructTag(key, value));
    }
  }

  /** Appending `construct_tag(key, value)` when `value` is present is
      appending `OptionalTag(key, value)`. */
  lemma OptionalAppend(before: seq<string>, after: seq<string>, key: string, value: string)
    requires after == if value != "" then before + [ConstructTag(key, value)] else before
    ensures after == before + OptionalTag(key, value)
  {
    if value == "" {
      assert before + [] == before;
    }
  }

  /** Every leading tag is in normal form. */
  lemma LeadingTagsNormalized(agent: string, task: string, memType: string, project: string,
                              detectedProject: string, techStack: seq<string>)
    ensures AllNormalized(LeadingTags(agent, task, memType, project, detectedProject, techStack))
  {
    var a := OptionalTag("AGENT", agent);
    var t := OptionalTag("TASK", task);
    var y := OptionalTag("TYPE", memType);
    var p := OptionalTag("PROJECT", if project != "" then project else detectedProject);
    var x := TechTags(techStack);
    OptionalTagNormalized("AGENT", agent);
    OptionalTagNormalized("TASK", task);
    OptionalTagNormalized("TYPE", memType);
    OptionalTagNormalized("PROJECT", if project != "" then project else detectedProject);
    TechTagsNormalized(techStack);
    AllNormalizedConcat(a, t);
    AllNormalizedConcat(a + t, y);
    AllNormalizedConcat(a + t + y, p);
    AllNormalizedConcat(a + t + y + p, x);
  }

  /** The normal forms of the additional tags, in order. */
  function Normals(additional: seq<string>): seq<string> {
    MapSeq(NormalizeTag, additional)
  }

  lemma NormalsSnoc(xs: seq<string>, x: string)
    ensures Normals(xs + [x]) == Normals(xs) + [NormalizeTag(x)]
  {
    MapSeqSnoc(NormalizeTag, xs, x);
  }

  /** The additional-tag loop of generate_standard_tags, on the already
      normalised tags `ns`: each is appended unless it is empty or already
      present. */
  function AddNew(tags: seq<string>, ns: seq<string>): seq<string> {
    if ns == [] then tags
    else
      var t := AddNew(tags, ns[..|ns| - 1]);
      var n := ns[|ns| - 1];
      if n != "" && n !in t then t + [n] else t
  }

  /** What the additional-tag loop guarantees: the result extends `tags`;
      nothing appended is empty or repeats an earlier tag; everything appended
      comes from `ns`; and every non-empty entry of `ns` ends up in the list. */
  lemma {:induction false} AddNewSpec(tags: seq<string>, ns: seq<string>)
    ensures |AddNew(tags, ns)| >= |tags| && AddNew(tags, ns)[..|tags|] == tags
    ensures forall k :: |tags| <= k < |AddNew(tags, ns)| ==>
              AddNew(tags, ns)[k] != "" && AddNew(tags, ns)[k] !in AddNew(tags, ns)[..k] && AddNew(tags, ns)[k] in ns
    ensures forall n :: n in ns && n != "" ==> n in AddNew(tags, ns)
  {
    if ns != [] {
      var init := ns[..|ns| - 1];
      var n := ns[|ns| - 1];
      var t := AddNew(tags, init);
      AddNewSpec(tags, init);
      assert forall m :: m in ns ==> m in init || m == n;
      assert forall m :: m in init ==> m in ns;
      if n != "" && n !in t {
        assert (t + [n])[..|t|] == t;
        assert (t + [n])[..|tags|] == t[..|tags|];
      }
    }
  }

  /** One more candidate tag: it is appended exactly when it is non-empty and
      not yet present. */
  lemma AddNewSnoc(tags: seq<string>, ns: seq<string>, n: string)
    ensures AddNew(tags, ns + [n]) ==
            if n != "" && n !in AddNew(tags, ns) then AddNew(tags, ns) + [n] else AddNew(tags, ns)
  {
    assert (ns + [n])[..|ns|] == ns;
  }

  /** Appending only normal-form tags to normal-form tags keeps them so. */
  lemma AddNewNormalized(tags: seq<string>, ns: seq<string>)
    requires AllNormalized(tags) && AllNormalized(ns)
    ensures AllNormalized(AddNew(tags, ns))
  {
    var r := AddNew(tags, ns);
    AddNewSpec(tags, ns);
    forall k | 0 <= k < |r| ensures IsNormalized(r[k]) {
      if k < |tags| {
        assert r[k] == r[..|tags|][k];
      } else {
        var j :| 0 <= j < |ns| && ns[j] == r[k];
      }
    }
  }

  /** generate_standard_tags, with the project name the source would
      auto-detect passed in as `detectedProject`: the leading tags, then the
      new non-empty normal forms of the additional tags. Every tag it returns
      is in normal form. */
  method GenerateStandardTags(agent: string, task: string, memType: string, project: string,
                              detectedProject: string, techStack: seq<string>,
                              additional: seq<string>)
    returns (tags: seq<string>)
    ensures tags == AddNew(LeadingTags(agent, task, memType, project, detectedProject, techStack),
                           Normals(additional))
    ensures AllNormalized(tags)
  {
    tags := [];
    if agent != "" {
      tags := tags + [ConstructTag("AGENT", agent)];
    }
    OptionalAppend([], tags, "AGENT", agent);
    NilAppend(OptionalTag("AGENT", agent));
    ghost var fixed := tags;
    if task != "" {
      tags := tags + [ConstructTag("TASK", task)];
    }
    OptionalAppend(fixed, tags, "TASK", task);
    fixed := tags;
    if memType != "" {
      tags := tags + [ConstructTag("TYPE", memType)];
    }
    OptionalAppend(fixed, tags, "TYPE", memType);
    fixed := tags;
    if project != "" {
      tags := tags + [ConstructTag("PROJECT", project)];
    } else {
      if detectedProject != "" {
        tags := tags + [ConstructTag("PROJECT", detectedProject)];
      }
    }
    OptionalAppend(fixed, tags, "PROJECT", if project != "" then project else detectedProject);
    tags := AppendTechTags(tags, techStack);
    LeadingTagsNormalized(agent, task, memType, project, detectedProject, techStack);
    tags := AppendAdditionalTags(tags, additional);
  }

  /** The tech-stack loop of generate_standard_tags: one `tech:` tag per
      entry, appended in order. */
  method AppendTechTags(fixed: seq<string>, techStack: seq<string>) returns (tags: seq<string>)
    ensures tags == fixed + TechTags(techStack)
  {
    tags := fixed;
    var i := 0;
    while i < |techStack|
      invariant 0 <= i <= |techStack|
      invariant tags == fixed + TechTags(techStack[..i])
    {
      TakeSnoc(techStack, i);
      TechTagsSnoc(techStack[..i], techStack[i]);
      AppendAssoc(fixed, TechTags(techStack[..i]), [ConstructTag("TECH", techStack[i])]);
      tags := tags + [ConstructTag("TECH", techStack[i])];
      i := i + 1;
    }
    assert techStack[..i] == techStack;
  }

  /** The additional-tag loop of generate_standard_tags: every additional
      tag is normalised and appended unless it is empty or already present. */
  method AppendAdditionalTags(lead: seq<string>, additional: seq<string>) returns (tags: seq<string>)
    requires AllNormalized(lead)
    ensures tags == AddNew(lead, Normals(additional))
    ensures AllNormalized(tags)
  {
    tags := lead;
    var i := 0;
    while i < |additional|
      invariant 0 <= i <= |additional|
      invariant tags == AddNew(lead, Normals(additional[..i]))
      invariant AllNormalized(tags)
    {
      TakeSnoc(additional, i);
      var normalized := NormalizeTag(additional[i]);
      NormalizeTagNormalizes(additional[i]);
      NormalsSnoc(additional[..i], additional[i]);
      ghost var done := Normals(additional[..i]);
      AddNewSnoc(lead, done, normalized);
      if normalized != "" && normalized !in tags {
        AllNormalizedConcat(tags, [normalized]);
        tags := tags + [normalized];
      }
      assert tags == AddNew(lead, done + [normalized]);
      i := i + 1;
    }
    assert additional[..i] == additional;
  }

  // ---------------------------------------------------------------------
  // Technology detection
  // ---------------------------------------------------------------------

  /** The tech_patterns table of extract_tech_from_content, in its order. */
  const TechPatterns: seq<(string, seq<string>)> := [
    ("typescript", ["typescript", ".ts", "tsc"]),
    ("javascript", ["javascript", ".js", "node"]),
    ("python", ["python", ".py", "pip"]),
    ("react", ["react", "jsx", "tsx", "usestate", "useeffect"]),
    ("docker", ["docker", "dockerfile", "container"]),
    ("postgres", ["postgres", "postgresql", "psql"]),
    ("supabase", ["supabase", "@supabase"]),
    ("qdrant", ["qdrant", "vector", "embedding"])
  ]

  /** The position of a technology name in the table (8 when absent). */
  function TechRank(name: string): nat {
    if name == "typescript" then 0
    else if name == "javascript" then 1
    else if name == "python" then 2
    else if name == "react" then 3
    else if name == "docker" then 4
    else if name == "postgres" then 5
    else if name == "supabase" then 6
    else if name == "qdrant" then 7
    else 8
  }

  lemma TechRankOfEntry(k: nat)
    requires k < |TechPatterns|
    ensures TechRank(TechPatterns[k].0) == k
  {
  }

  /** Whether table entry `k` fires on the lower-cased content. */
  predicate TechHit(lowered: string, k: nat)
    requires k < |TechPatterns|
  {
    ContainsAny(lowered, TechPatterns[k].1)
  }

  /** The technologies among the first `n` table entries whose patterns occur
      in `lowered`, in table order. */
  function DetectedTechs(lowered: string, n: nat): seq<string>
    requires n <= |TechPatterns|
  {
    if n == 0 then []
    else if TechHit(lowered, n - 1) then DetectedTechs(lowered, n - 1) + [TechPatterns[n - 1].0]
    else DetectedTechs(lowered, n - 1)
  }

  /** The detected technologies come in table order, each at most once, and
      are exactly the entries that fire. */
  lemma {:induction false} DetectedTechsSpec(lowered: string, n: nat)
    requires n <= |TechPatterns|
    ensures forall i, j :: 0 <= i < j < |DetectedTechs(lowered, n)| ==>
              TechRank(DetectedTechs(lowered, n)[i]) < TechRank(DetectedTechs(lowered, n)[j])
    ensures forall i :: 0 <= i < |DetectedTechs(lowered, n)| ==>
              var r := TechRank(DetectedTechs(lowered, n)[i]);
              r < n && TechPatterns[r].0 == DetectedTechs(lowered, n)[i] && TechHit(lowered, r)
    ensures forall k :: 0 <= k < n && TechHit(lowered, k) ==> TechPatterns[k].0 in DetectedTechs(lowered, n)
  {
    if n > 0 {
      DetectedTechsSpec(lowered, n - 1);
      TechRankOfEntry(n - 1);
    }
  }

  /** extract_tech_from_content: every technology of the table with a pattern
      in the lower-cased content, in table order and without repeats. */
  method ExtractTechFromContent(content: string) returns (detected: seq<string>)
    ensures detected == DetectedTechs(Lower(content), |TechPatterns|)
    ensures NoDuplicates(detected)
    ensures forall name :: name in detected <==>
              exists k :: 0 <= k < |TechPatterns| && TechPatterns[k].0 == name && TechHit(Lower(content), k)
  {
    detected := [];
    var contentLower := Lower(content);
    var k := 0;
    while k < |TechPatterns|
      invariant 0 <= k <= |TechPatterns|
      invariant detected == DetectedTechs(contentLower, k)
    {
      var patterns := TechPatterns[k].1;
      var hit := false;
      var j := 0;
      while j < |patterns|
        invariant 0 <= j <= |patterns|
        invariant hit <==> exists m :: 0 <= m < j && Contains(contentLower, patterns[m])
      {
        if Contains(contentLower, patterns[j]) {
          hit := true;
        }
        j := j + 1;
      }
      if hit {
        detected := detected + [TechPatterns[k].0];
      }
      k := k + 1;
    }
    DetectedTechsSpec(contentLower, |TechPatterns|);
    forall name | name in detected
      ensures exists k :: 0 <= k < |TechPatterns| && TechPatterns[k].0 == name && TechHit(contentLower, k)
    {
      var i :| 0 <= i < |detected| && detected[i] == name;
      assert TechPatterns[TechRank(detected[i])].0 == name;
    }
  }

  // ---------------------------------------------------------------------
  // CLI argument vectors
  // ---------------------------------------------------------------------

  /** The value following `flag` in a list of `--flag value` pairs, read two
      entries at a time from the start. */
  function FlagValue(pairs: seq<string>, flag: string): Option<string>
    decreases |pairs|
  {
    if |pairs| < 2 then None
    else if pairs[0] == flag then Some(pairs[1])
    else FlagValue(pairs[2..], flag)
  }

  /** The `--flag value` pairs of the options whose value is present, in the
      options' order (`args.extend([flag, value])` under `if value:`). */
  function PresentPairs(opts: seq<(string, Option<string>)>): seq<string>
    decreases |opts|
  {
    if opts == [] then []
    else
      (if opts[0].1.Some? then [opts[0].0, opts[0].1.value] else []) + PresentPairs(opts[1..])
  }

  /** Each present option contributes exactly one pair. */
  lemma {:induction false} PresentPairsEven(opts: seq<(string, Option<string>)>)
    ensures |PresentPairs(opts)| % 2 == 0
    decreases |opts|
  {
    if opts != [] {
      PresentPairsEven(opts[1..]);
    }
  }

  /** A flag none of the options carries is not found. */
  lemma {:induction false} PresentPairsAbsent(opts: seq<(string, Option<string>)>, flag: string)
    requires forall j :: 0 <= j < |opts| ==> opts[j].0 != flag
    ensures FlagValue(PresentPairs(opts), flag) == None
    decreases |opts|
  {
    if opts != [] {
      var rest := PresentPairs(opts[1..]);
      PresentPairsAbsent(opts[1..], flag);
      if opts[0].1.Some? {
        var p := [opts[0].0, opts[0].1.value] + rest;
        assert p[2..] == rest;
      } else {
        NilAppend(rest);
      }
    }
  }

  /** Reading the pairs back: when the option names are distinct, looking up
      an option's flag gives exactly that option's value, or nothing when it
      was absent. */
  lemma {:induction false} PresentPairsRead(opts: seq<(string, Option<string>)>, i: nat)
    requires i < |opts|
    requires forall j :: 0 <= j < |opts| && j != i ==> opts[j].0 != opts[i].0
    ensures FlagValue(PresentPairs(opts), opts[i].0) == opts[i].1
    decreases |opts|
  {
    var rest := PresentPairs(opts[1..]);
    if i == 0 {
      if opts[0].1.None? {
        NilAppend(rest);
        PresentPairsAbsent(opts[1..], opts[0].0);
      }
    } else {
      PresentPairsRead(opts[1..], i - 1);
      if opts[0].1.Some? {
        var p := [opts[0].0, opts[0].1.value] + rest;
        assert p[2..] == rest;
      } else {
        NilAppend(rest);
      }
    }
  }

  /** A string option as the hooks pass it: present when non-empty. */
  function Present(value: string): Option<string> {
    if value != "" then Some(value) else None
  }

  /** The optional flags of store_memory, in the order they are appended. A
      ttl of 0 counts as absent, like any falsy value in Python. */
  function StoreOptions(agent: string, task: string, ttlDays: int): seq<(string, Option<string>)> {
    [("--agent", Present(agent)),
     ("--task", Present(task)),
     ("--ttl", if ttlDays != 0 then Some(IntToString(ttlDays)) else None)]
  }

  /** The fixed head of the store command line. */
  function StoreHead(content: string, tags: seq<string>, memType: string): seq<string> {
    [HeimdallCli, MemorySubcommand, "store", content, "--tags", Join(",", tags), "--type", memType, "--json"]
  }

  /** Appending an option's pair under `if value:` is appending its
      `PresentPairs` contribution. */
  lemma OptionAppend(before: seq<string>, after: seq<string>, opt: (string, Option<string>))
    requires after == if opt.1.Some? then before + [opt.0, opt.1.value] else before
    ensures after == before + PresentPairs([opt])
  {
    assert [opt][1..] == [];
    if opt.1.None? {
      assert before + [] == before;
    }
  }

  /** Splitting the options list in two splits their pairs the same way. */
  lemma {:induction false} PresentPairsAppend(a: seq<(string, Option<string>)>, b: seq<(string, Option<string>)>)
    ensures PresentPairs(a + b) == PresentPairs(a) + PresentPairs(b)
    decreases |a|
  {
    if a == [] {
      assert a + b == b;
      NilAppend(PresentPairs(b));
    } else {
      assert (a + b)[1..] == a[1..] + b;
      PresentPairsAppend(a[1..], b);
      var h := if a[0].1.Some? then [a[0].0, a[0].1.value] else [];
      AppendAssoc(h, PresentPairs(a[1..]), PresentPairs(b));
    }
  }

  /** `args.extend([flag, value])` under `if value:`. */
  method AppendFlag(args: seq<string>, flag: string, value: string) returns (out: seq<string>)
    ensures out == args + PresentPairs([(flag, Present(value))])
  {
    out := args;
    if value != "" {
      out := out + [flag, value];
    } else {
      assert out == args + [];
    }
  }

  /** Reading the store options back gives each value that was present. */
  lemma StoreOptionsRead(agent: string, task: string, ttlDays: int)
    ensures var pairs := PresentPairs(StoreOptions(agent, task, ttlDays));
      && (9 + |pairs|) % 2 == 1
      && FlagValue(pairs, "--agent") == Present(agent)
      && FlagValue(pairs, "--task") == Present(task)
      && FlagValue(pairs, "--ttl") == if ttlDays != 0 then Some(IntToString(ttlDays)) else None
  {
    var opts := StoreOptions(agent, task, ttlDays);
    PresentPairsEven(opts);
    PresentPairsRead(opts, 0);
    PresentPairsRead(opts, 1);
    PresentPairsRead(opts, 2);
  }

  /** The argument vector built by store_memory: the nine fixed entries, then
      `--agent`, `--task` and `--ttl`, in that order, each only when given
      (a ttl of 0 is left out); reading them back recovers them. */
  method StoreArgs(content: string, tags: seq<string>, memType: string, agent: string,
                   task: string, ttlDays: int)
    returns (args: seq<string>)
    ensures |args| >= 9 && |args| % 2 == 1
    ensures args[..9] == StoreHead(content, tags, memType)
    ensures args[9..] == PresentPairs(StoreOptions(agent, task, ttlDays))
    ensures FlagValue(args[9..], "--agent") == Present(agent)
    ensures FlagValue(args[9..], "--task") == Present(task)
    ensures FlagValue(args[9..], "--ttl") == if ttlDays != 0 then Some(IntToString(ttlDays)) else None
  {
    var opts := StoreOptions(agent, task, ttlDays);
    args := [HeimdallCli, MemorySubcommand, "store", content, "--tags", Join(",", tags),
             "--type", memType, "--json"];
    ghost var head := args;
    args := AppendFlag(args, "--agent", agent);
    ghost var before := args;
    args := AppendFlag(args, "--task", task);
    AppendAssoc(head, PresentPairs([opts[0]]), PresentPairs([opts[1]]));
    PresentPairsAppend([opts[0]], [opts[1]]);
    before := args;
    if ttlDays != 0 {
      args := args + ["--ttl", IntToString(ttlDays)];
    }
    OptionAppend(before, args, opts[2]);
    AppendAssoc(head, PresentPairs([opts[0]] + [opts[1]]), PresentPairs([opts[2]]));
    PresentPairsAppend([opts[0]] + [opts[1]], [opts[2]]);
    assert [opts[0]] + [opts[1]] + [opts[2]] == opts;
    assert args[..9] == head && args[9..] == PresentPairs(opts);
    assert |args| == 9 + |PresentPairs(opts)|;
    StoreOptionsRead(agent, task, ttlDays);
  }

  /** The optional flags of query_memories, in the order they are appended. */
  function SearchOptions(tags: seq<string>, memType: string): seq<(string, Option<string>)> {
    [("--tags", if tags != [] then Some(Join(",", tags)) else None),
     ("--type", Present(memType))]
  }

  /** The fixed head of the search command line. */
  function SearchHead(query: string, limit: int): seq<string> {
    [HeimdallCli, MemorySubcommand, "search", query, "--limit", IntToString(limit), "--json"]
  }

  /** The argument vector built by query_memories: the seven fixed entries
      (with `--limit str(limit)` and `--json`), then `--tags` (comma-joined)
      and `--type`, each only when given; reading them back recovers them. */
  method SearchArgs(query: string, limit: int, tags: seq<string>, memType: string)
    returns (args: seq<string>)
    ensures |args| >= 7 && |args| % 2 == 1
    ensures args[..7] == SearchHead(query, limit)
    ensures args[7..] == PresentPairs(SearchOptions(tags, memType))
    ensures FlagValue(args[7..], "--tags") == if tags != [] then Some(Join(",", tags)) else None
    ensures FlagValue(args[7..], "--type") == Present(memType)
  {
    var opts := SearchOptions(tags, memType);
    args := [HeimdallCli, MemorySubcommand, "search", query, "--limit", IntToString(limit), "--json"];
    ghost var head := args;
    if tags != [] {
      args := args + ["--tags", Join(",", tags)];
    }
    OptionAppend(head, args, opts[0]);
    args := AppendFlag(args, "--type", memType);
    AppendAssoc(head, PresentPairs([opts[0]]), PresentPairs([opts[1]]));
    PresentPairsAppend([opts[0]], [opts[1]]);
    assert [opts[0]] + [opts[1]] == opts;
    assert args[..7] == head && args[7..] == PresentPairs(opts);
    assert |args| == 7 + |PresentPairs(opts)|;
    SearchOptionsRead(tags, memType);
  }

  /** Reading the search options back gives each value that was present. */
  lemma SearchOptionsRead(tags: seq<string>, memType: string)
    ensures var pairs := PresentPairs(SearchOptions(tags, memType));
      && (7 + |pairs|) % 2 == 1
      && FlagValue(pairs, "--tags") == (if tags != [] then Some(Join(",", tags)) else None)
      && FlagValue(pairs, "--type") == Present(memType)
  {
    var opts := SearchOptions(tags, memType);
    PresentPairsEven(opts);
    PresentPairsRead(opts, 0);
    PresentPairsRead(opts, 1);
  }
}

/** The error-resolved hook (hooks/heimdall/error_resolved.py): recognising
    an error resolution, the facts taken from it, the memory content built
    from them and the technology hint drawn from the file extension. */
module ErrorResolved {
  import opened Wrappers
  import opened Text

  // ---------------------------------------------------------------------
  // is_error_resolution_event
  // ---------------------------------------------------------------------

  const ErrorIndicators: seq<string> :=
    ["error", "exception", "failed", "failure", "bug", "fix", "fixed", "resolved",
     "debugging", "traceback", "stack trace"]

  const DebugTools: seq<string> := ["Edit", "Bash"]

  /** The fix patterns `fix(?:ed|ing)?`, `resolv(?:ed|ing)?`,
      `debug(?:ged|ging)?` and `patch(?:ed|ing)?`: the suffix is optional,
      so each one is found exactly where its stem is. */
  const FixStems: seq<string> := ["fix", "resolv", "debug", "patch"]

  /** How many of `pats` occur in `s`. */
  function PresentCount(s: string, pats: seq<string>): nat {
    if pats == [] then 0
    else PresentCount(s, pats[..|pats| - 1]) + (if Contains(s, pats[|pats| - 1]) then 1 else 0)
  }

  /** The indicator count of the lower-cased event text. */
  function IndicatorCount(combined: string): nat {
    PresentCount(combined, ErrorIndicators) + PresentCount(combined, FixStems)
  }

  /** `" ".join([json.dumps(tool_input), json.dumps(tool_result)]).lower()` */
  function Combined(inputJson: string, resultJson: string): string {
    Lower(inputJson + " " + resultJson)
  }

  /** The fix-pattern loop: one more for each stem that occurs. */
  method CountFixPatterns(combined: string, count: nat) returns (total: nat)
    ensures total == count + PresentCount(combined, FixStems)
  {
    total := count;
    var i := 0;
    while i < |FixStems|
      invariant 0 <= i <= |FixStems|
      invariant total == count + PresentCount(combined, FixStems[..i])
    {
      assert FixStems[..i + 1][..i] == FixStems[..i];
      if Contains(combined, FixStems[i]) {
        total := total + 1;
      }
      i := i + 1;
    }
    assert FixStems[..i] == FixStems;
  }

  /** is_error_resolution_event, on the tool name and the JSON renderings of
      the tool input and result: a debugging tool and at least two
      indicators. */
  method IsErrorResolutionEvent(toolName: string, inputJson: string, resultJson: string)
    returns (b: bool)
    ensures b <==> toolName in DebugTools && IndicatorCount(Combined(inputJson, resultJson)) >= 2
  {
    if toolName !in DebugTools {
      return false;
    }
    var combined := Lower(inputJson + " " + resultJson);
    var indicatorCount := PresentCount(combined, ErrorIndicators);
    indicatorCount := CountFixPatterns(combined, indicatorCount);
    b := indicatorCount >= 2;
  }

  /** A pattern that occurs is counted. */
  lemma {:induction false} PresentCountAt(s: string, pats: seq<string>, k: nat)
    requires k < |pats| && Contains(s, pats[k])
    ensures PresentCount(s, pats) >= 1
  {
    if k < |pats| - 1 {
      assert pats[..|pats| - 1][k] == pats[k];
      PresentCountAt(s, pats[..|pats| - 1], k);
    }
  }

  /** Any text holding `fix` counts twice, once as the indicator `fix` and
      once for the fix pattern, so every Edit or Bash event mentioning
      `fix` is an error resolution. */
  lemma FixIsEnough(combined: string)
    requires Contains(combined, "fix")
    ensures IndicatorCount(combined) >= 2
  {
    PresentCountAt(combined, ErrorIndicators, 5);
    PresentCountAt(combined, FixStems, 0);
  }

  /** No indicator means no resolution, and a count is bounded by the
      number of patterns. */
  lemma {:induction false} PresentCountBounds(s: string, pats: seq<string>)
    ensures PresentCount(s, pats) <= |pats|
    ensures PresentCount(s, pats) == 0 <==> forall k :: 0 <= k < |pats| ==> !Contains(s, pats[k])
  {
    if pats != [] {
      var init := pats[..|pats| - 1];
      PresentCountBounds(s, init);
      assert forall k :: 0 <= k < |init| ==> init[k] == pats[k];
    }
  }

  // ---------------------------------------------------------------------
  // extract_error_info
  // ---------------------------------------------------------------------

  /** The error facts; every key is always present. */
  datatype ErrorInfo = ErrorInfo(tool: string, errorType: string, errorMessage: string,
                                 resolution: string, filePath: string)

  /** The keys of `tool_input` the hook reads; `None` is a missing key. */
  datatype ToolInput = ToolInput(filePath: Option<string>, oldString: Option<string>,
                                 newString: Option<string>, command: Option<string>)

  /** The error-message patterns, tried in this order with IGNORECASE:
      `(Error:.*?)(?:\n|$)`, `(error\[.*?\]:.*?)(?:\n|$)`,
      `(TypeError:.*?)(?:\n|$)`, `(SyntaxError:.*?)(?:\n|$)` and
      `(Exception:.*?)(?:\n|$)`. Each captures from where it starts to the
      end of that line. */
  datatype ErrorPattern = Literal(lit: string) | Bracketed

  const ErrorPatterns: seq<ErrorPattern> :=
    [Literal("error:"), Bracketed, Literal("typeerror:"), Literal("syntaxerror:"), Literal("exception:")]

  /** `error\[.*?\]:` at `k` of the lower-cased text: `error[` and then a
      `]:` that ends on the same line. */
  predicate BracketedAt(lowered: string, k: nat) {
    StartsAt(lowered, "error[", k)
    && exists j :: k + 6 <= j && j + 2 <= LineEnd(lowered, k) && StartsAt(lowered, "]:", j)
  }

  predicate PatternAt(p: ErrorPattern, lowered: string, k: nat) {
    match p
    case Literal(lit) => StartsAt(lowered, lit, k)
    case Bracketed => k <= |lowered| && BracketedAt(lowered, k)
  }

  /** The leftmost position at or after `i` where the pattern starts. */
  function SearchFrom(p: ErrorPattern, lowered: string, i: nat): (r: Option<nat>)
    ensures r.Some? ==> i <= r.value <= |lowered| && PatternAt(p, lowered, r.value)
    ensures forall k :: i <= k < (if r.Some? then r.value else |lowered| + 1) ==> !PatternAt(p, lowered, k)
    decreases |lowered| + 1 - i
  {
    if i > |lowered| then None
    else if PatternAt(p, lowered, i) then Some(i)
    else SearchFrom(p, lowered, i + 1)
  }

  /** `re.search(pattern, text, re.IGNORECASE).group(1)`: from the leftmost
      start to the end of its line. */
  function Search(p: ErrorPattern, text: string): Option<string> {
    match SearchFrom(p, Lower(text), 0)
    case None => None
    case Some(k) => Some(text[k..LineEnd(text, k)])
  }

  /** The group of the first pattern in `pats` that matches. */
  function FirstMessage(pats: seq<ErrorPattern>, text: string): Option<string> {
    if pats == [] then None
    else if Search(pats[0], text).Some? then Search(pats[0], text)
    else FirstMessage(pats[1..], text)
  }

  const MessageChars: nat := 200

  /** The pattern loop with its `break`: the first match, cut to 200
      characters, or empty. */
  method FindErrorMessage(resultText: string) returns (message: string)
    ensures message == match FirstMessage(ErrorPatterns, resultText)
                       case None => ""
                       case Some(m) => Take(m, MessageChars)
  {
    message := "";
    var i := 0;
    while i < |ErrorPatterns|
      invariant 0 <= i <= |ErrorPatterns|
      invariant FirstMessage(ErrorPatterns, resultText) == FirstMessage(ErrorPatterns[i..], resultText)
      invariant message == ""
    {
      var m := Search(ErrorPatterns[i], resultText);
      assert ErrorPatterns[i..][1..] == ErrorPatterns[i + 1..];
      if m.Some? {
        message := Take(m.value, MessageChars);
        return;
      }
      i := i + 1;
    }
  }

  /** There is a message exactly when some pattern matches, and it is then
      the group of the first pattern that matches. */
  lemma {:induction false} FirstMessageFirst(pats: seq<ErrorPattern>, text: string)
    ensures FirstMessage(pats, text).None? <==> forall i :: 0 <= i < |pats| ==> Search(pats[i], text).None?
    ensures FirstMessage(pats, text).Some? ==>
              exists i :: 0 <= i < |pats| && Search(pats[i], text).Some?
                          && FirstMessage(pats, text) == Search(pats[i], text)
                          && (forall j :: 0 <= j < i ==> Search(pats[j], text).None?)
  {
    if pats != [] {
      var tail := pats[1..];
      FirstMessageFirst(tail, text);
      assert forall i :: 0 <= i < |tail| ==> tail[i] == pats[i + 1];
      if Search(pats[0], text).None? {
        if FirstMessage(tail, text).Some? {
          var i :| 0 <= i < |tail| && Search(tail[i], text).Some?
                   && FirstMessage(tail, text) == Search(tail[i], text)
                   && (forall j :: 0 <= j < i ==> Search(tail[j], text).None?);
          assert Search(pats[i + 1], text).Some?;
        } else {
          forall i | 0 <= i < |pats| ensures Search(pats[i], text).None? {
            if i > 0 { assert pats[i] == tail[i - 1]; }
          }
        }
      }
    }
  }

  /** The message, when there is one, is a piece of one line of the result
      text. */
  lemma {:induction false} FirstMessageSpec(pats: seq<ErrorPattern>, text: string)
    ensures FirstMessage(pats, text).Some? ==>
              exists k, e :: 0 <= k <= e <= |text| && FirstMessage(pats, text).value == text[k..e]
                             && (forall j :: k <= j < e ==> text[j] != '\n')
  {
    if pats != [] {
      FirstMessageSpec(pats[1..], text);
      match SearchFrom(pats[0], Lower(text), 0)
      case None =>
      case Some(k) =>
        var e := LineEnd(text, k);
        assert Search(pats[0], text).value == text[k..e];
    }
  }

  /** A match of `sub` holds a match of each of its suffixes. */
  lemma StartsAtSuffix(s: string, sub: string, k: nat, off: nat)
    requires StartsAt(s, sub, k) && off <= |sub|
    ensures StartsAt(s, sub[off..], k + off)
  {
    assert s[k + off..k + |sub|] == s[k..k + |sub|][off..];
  }

  /** `TypeError:` and `SyntaxError:` never decide the message: wherever
      they match, `Error:` matches inside them, and that pattern is tried
      first. So a `TypeError: ...` line is reported from its `Error:` on. */
  lemma TypedPatternsShadowed(text: string)
    requires Search(Literal("typeerror:"), text).Some? || Search(Literal("syntaxerror:"), text).Some?
    ensures Search(Literal("error:"), text).Some?
    ensures FirstMessage(ErrorPatterns, text) == Search(Literal("error:"), text)
  {
    var lowered := Lower(text);
    var k: nat;
    if Search(Literal("typeerror:"), text).Some? {
      var t := SearchFrom(Literal("typeerror:"), lowered, 0).value;
      StartsAtSuffix(lowered, "typeerror:", t, 4);
      assert "typeerror:"[4..] == "error:";
      k := t + 4;
    } else {
      var t := SearchFrom(Literal("syntaxerror:"), lowered, 0).value;
      StartsAtSuffix(lowered, "syntaxerror:", t, 6);
      assert "syntaxerror:"[6..] == "error:";
      k := t + 6;
    }
    assert PatternAt(Literal("error:"), lowered, k);
    assert ErrorPatterns[0] == Literal("error:");
  }

  const ErrorTypeNames: seq<string> := ["typeerror", "syntaxerror", "referenceerror", "valueerror", "keyerror"]

  /** `et.replace("error", "Error")`; each name holds `error` once, at its end. */
  function CapitalizeError(et: string): string
    requires |et| >= 5
  {
    et[..|et| - 5] + "Error"
  }

  /** The first error-type name occurring in the lower-cased event, with its
      `error` capitalised, or empty. */
  function FirstErrorType(combined: string, names: seq<string>): string
    requires forall k :: 0 <= k < |names| ==> |names[k]| >= 5
  {
    if names == [] then ""
    else if Contains(combined, names[0]) then CapitalizeError(names[0])
    else FirstErrorType(combined, names[1..])
  }

  /** The error-type loop with its `break`. */
  method FindErrorType(combined: string) returns (errorType: string)
    ensures errorType == FirstErrorType(combined, ErrorTypeNames)
  {
    errorType := "";
    var i := 0;
    while i < |ErrorTypeNames|
      invariant 0 <= i <= |ErrorTypeNames|
      invariant FirstErrorType(combined, ErrorTypeNames) == FirstErrorType(combined, ErrorTypeNames[i..])
    {
      var et := ErrorTypeNames[i];
      assert ErrorTypeNames[i..][1..] == ErrorTypeNames[i + 1..];
      if Contains(combined, et) {
        errorType := CapitalizeError(et);
        return;
      }
      i := i + 1;
    }
  }

  /** The error type is empty exactly when no name occurs; otherwise it is
      the capitalised form of the first name in the list that occurs. */
  lemma {:induction false} FirstErrorTypeSpec(combined: string, names: seq<string>)
    requires forall k :: 0 <= k < |names| ==> |names[k]| >= 5
    ensures FirstErrorType(combined, names) == "" <==>
              forall k :: 0 <= k < |names| ==> !Contains(combined, names[k])
    ensures forall k :: 0 <= k < |names| && Contains(combined, names[k])
              && (forall j :: 0 <= j < k ==> !Contains(combined, names[j]))
              ==> FirstErrorType(combined, names) == CapitalizeError(names[k])
  {
    if names != [] {
      FirstErrorTypeSpec(combined, names[1..]);
      assert |CapitalizeError(names[0])| >= 5;
      forall k | 0 <= k < |names| && Contains(combined, names[k])
                 && (forall j :: 0 <= j < k ==> !Contains(combined, names[j]))
        ensures FirstErrorType(combined, names) == CapitalizeError(names[k])
      {
        if k > 0 {
          assert !Contains(combined, names[0]);
          assert names[1..][k - 1] == names[k];
          assert forall j :: 0 <= j < k - 1 ==> names[1..][j] == names[j + 1];
        }
      }
      if FirstErrorType(combined, names) == "" {
        assert !Contains(combined, names[0]);
        forall k | 0 <= k < |names| ensures !Contains(combined, names[k]) {
          if k > 0 { assert names[1..][k - 1] == names[k]; }
        }
      }
    }
  }

  const CommandChars: nat := 100

  /** extract_error_info. `toolInput` holds the keys of `tool_input`,
      `resultText` is `str(tool_result)` and `dataJson` is
      `json.dumps(data)`. */
  method ExtractErrorInfo(toolName: string, toolInput: ToolInput, resultText: string, dataJson: string)
    returns (errorInfo: ErrorInfo)
    ensures errorInfo.tool == toolName
    ensures toolName == "Edit" ==>
              && errorInfo.filePath == toolInput.filePath.GetOr("")
              && errorInfo.errorMessage == ""
              && errorInfo.resolution ==
                   (if toolInput.oldString.GetOr("") != "" && toolInput.newString.GetOr("") != ""
                    then "Changed code in " else "Edited ") + errorInfo.filePath
    ensures toolName == "Bash" ==>
              && errorInfo.filePath == ""
              && errorInfo.resolution == "Ran command: " + Take(toolInput.command.GetOr(""), CommandChars)
              && errorInfo.errorMessage == match FirstMessage(ErrorPatterns, resultText)
                                           case None => ""
                                           case Some(m) => Take(m, MessageChars)
    ensures toolName != "Edit" && toolName != "Bash" ==>
              errorInfo.filePath == "" && errorInfo.resolution == "" && errorInfo.errorMessage == ""
    ensures errorInfo.errorType == FirstErrorType(Lower(dataJson), ErrorTypeNames)
  {
    errorInfo := ErrorInfo(toolName, "", "", "", "");
    if toolName == "Edit" {
      errorInfo := errorInfo.(filePath := toolInput.filePath.GetOr(""));
      errorInfo := errorInfo.(resolution := "Edited " + errorInfo.filePath);
      var oldString := toolInput.oldString.GetOr("");
      var newString := toolInput.newString.GetOr("");
      if oldString != "" && newString != "" {
        errorInfo := errorInfo.(resolution := "Changed code in " + errorInfo.filePath);
      }
    } else if toolName == "Bash" {
      var command := toolInput.command.GetOr("");
      var message := FindErrorMessage(resultText);
      errorInfo := errorInfo.(errorMessage := message);
      errorInfo := errorInfo.(resolution := "Ran command: " + Take(command, CommandChars));
    }
    var combined := Lower(dataJson);
    var errorType := FindErrorType(combined);
    errorInfo := errorInfo.(errorType := errorType);
  }

  // ---------------------------------------------------------------------
  // create_error_memory_content
  // ---------------------------------------------------------------------

  function TypeSection(errorType: string): seq<string> {
    if errorType != "" then ["## Error Type: " + errorType, ""] else []
  }

  function MessageSection(message: string): seq<string> {
    if message != "" then ["## Error Message", "```", message, "```", ""] else []
  }

  function ResolutionSection(resolution: string): seq<string> {
    if resolution != "" then ["## Resolution", resolution, ""] else []
  }

  function FileSection(filePath: string): seq<string> {
    if filePath != "" then ["## File", filePath, ""] else []
  }

  function ContextSection(tool: string, now: string): seq<string> {
    ["## Resolution Context", "Tool used: " + tool, "Resolved at: " + now]
  }

  /** The lines of the memory content, joined with newlines. */
  function ErrorParts(info: ErrorInfo, now: string): seq<string> {
    ["# Error Resolution", ""]
    + TypeSection(info.errorType)
    + MessageSection(info.errorMessage)
    + ResolutionSection(info.resolution)
    + FileSection(info.filePath)
    + ContextSection(info.tool, now)
  }

  method AppendTypeSection(parts: seq<string>, errorType: string) returns (out: seq<string>)
    ensures out == parts + TypeSection(errorType)
  {
    out := parts;
    if errorType != "" {
      out := out + ["## Error Type: " + errorType, ""];
    } else {
      assert out == parts + [];
    }
  }

  method AppendMessageSection(parts: seq<string>, message: string) returns (out: seq<string>)
    ensures out == parts + MessageSection(message)
  {
    out := parts;
    if message != "" {
      out := out + ["## Error Message", "```", message, "```", ""];
    } else {
      assert out == parts + [];
    }
  }

  method AppendResolutionSection(parts: seq<string>, resolution: string) returns (out: seq<string>)
    ensures out == parts + ResolutionSection(resolution)
  {
    out := parts;
    if resolution != "" {
      out := out + ["## Resolution", resolution, ""];
    } else {
      assert out == parts + [];
    }
  }

  method AppendFileSection(parts: seq<string>, filePath: string) returns (out: seq<string>)
    ensures out == parts + FileSection(filePath)
  {
    out := parts;
    if filePath != "" {
      out := out + ["## File", filePath, ""];
    } else {
      assert out == parts + [];
    }
  }

  /** create_error_memory_content; `now` stands for the clock. */
  method CreateErrorMemoryContent(info: ErrorInfo, now: string) returns (content: string)
    ensures content == Join("\n", ErrorParts(info, now))
  {
    var parts := ["# Error Resolution", ""];
    parts := AppendTypeSection(parts, info.errorType);
    parts := AppendMessageSection(parts, info.errorMessage);
    parts := AppendResolutionSection(parts, info.resolution);
    parts := AppendFileSection(parts, info.filePath);
    parts := parts + ["## Resolution Context", "Tool used: " + info.tool, "Resolved at: " + now];
    content := Join("\n", parts);
  }

  /** Each optional section is there exactly when its field is non-empty,
      and then holds the field: the message fenced as a code block. */
  lemma SectionsSpec(info: ErrorInfo)
    ensures TypeSection(info.errorType) != [] <==> info.errorType != ""
    ensures MessageSection(info.errorMessage) != [] <==> info.errorMessage != ""
    ensures info.errorMessage != "" ==>
              MessageSection(info.errorMessage)[1..4] == ["```", info.errorMessage, "```"]
    ensures ResolutionSection(info.resolution) != [] <==> info.resolution != ""
    ensures info.resolution != "" ==> ResolutionSection(info.resolution)[1] == info.resolution
    ensures FileSection(info.filePath) != [] <==> info.filePath != ""
    ensures info.filePath != "" ==> FileSection(info.filePath)[1] == info.filePath
  {
  }

  /** The parts list always starts with the title and ends with the tool
      and the time of resolution; in between are at most 13 entries. A field
      holding line breaks spans more lines once the list is joined. */
  lemma ErrorPartsShape(info: ErrorInfo, now: string)
    ensures var parts := ErrorParts(info, now);
      && 5 <= |parts| <= 18
      && parts[0] == "# Error Resolution"
      && parts[|parts| - 3..] == ["## Resolution Context", "Tool used: " + info.tool, "Resolved at: " + now]
  {
    var parts := ErrorParts(info, now);
    var init := ["# Error Resolution", ""]
      + TypeSection(info.errorType)
      + MessageSection(info.errorMessage)
      + ResolutionSection(info.resolution)
      + FileSection(info.filePath);
    assert parts == init + ContextSection(info.tool, now);
    assert parts[|parts| - 3..] == ContextSection(info.tool, now);
  }

  /** For an Edit, the resolution line and the file section name the edited
      file. */
  lemma EditNamesFile(toolName: string, toolInput: ToolInput, info: ErrorInfo)
    requires toolName == "Edit"
    requires info.tool == toolName && info.filePath == toolInput.filePath.GetOr("")
    requires info.resolution ==
               (if toolInput.oldString.GetOr("") != "" && toolInput.newString.GetOr("") != ""
                then "Changed code in " else "Edited ") + info.filePath
    ensures EndsWith(ResolutionSection(info.resolution)[1], info.filePath)
    ensures toolInput.filePath.GetOr("") != "" ==> FileSection(info.filePath) == ["## File", toolInput.filePath.value, ""]
  {
    var r := info.resolution;
    var pre := if toolInput.oldString.GetOr("") != "" && toolInput.newString.GetOr("") != ""
               then "Changed code in " else "Edited ";
    assert r[|r| - |info.filePath|..] == info.filePath by {
      assert r == pre + info.filePath;
    }
  }

  // ---------------------------------------------------------------------
  // main: the extension hint and the additional tags
  // ---------------------------------------------------------------------

  /** `s.split(".")[-1]`: what follows the last dot, or all of `s`. */
  function AfterLastDot(s: string): string {
    if s == [] then []
    else if s[|s| - 1] == '.' then []
    else AfterLastDot(s[..|s| - 1]) + [s[|s| - 1]]
  }

  /** The extension `main` derives from the file path; empty without a dot. */
  function Extension(filePath: string): string {
    if '.' in filePath then AfterLastDot(filePath) else ""
  }

  /** The extension is dot-free, and a path with a dot is some prefix, a
      dot and the extension. */
  lemma {:induction false} ExtensionSpec(filePath: string)
    ensures '.' !in Extension(filePath)
    ensures '.' in filePath ==>
              exists pre :: filePath == pre + "." + Extension(filePath)
  {
    AfterLastDotSpec(filePath);
  }

  lemma {:induction false} AfterLastDotSpec(s: string)
    ensures '.' !in AfterLastDot(s)
    ensures '.' in s ==> exists pre :: s == pre + "." + AfterLastDot(s)
    ensures '.' !in s ==> AfterLastDot(s) == s
  {
    if s != [] {
      var init := s[..|s| - 1];
      var last := s[|s| - 1];
      assert s == init + [last];
      if last == '.' {
        assert s == init + "." + AfterLastDot(s);
      } else {
        AfterLastDotSpec(init);
        if '.' in s {
          assert '.' in init;
          var pre :| init == pre + "." + AfterLastDot(init);
          assert s == pre + "." + AfterLastDot(s);
        }
      }
    }
  }

  /** The technology an extension hints at. */
  function ExtensionTech(ext: string): Option<string> {
    if ext == "ts" || ext == "tsx" then Some("typescript")
    else if ext == "js" || ext == "jsx" then Some("javascript")
    else if ext == "py" then Some("python")
    else None
  }

  /** Appends the technology the file's extension hints at, unless the
      file path is empty, there is no hint or it is already listed. */
  method AddExtensionHint(techStack: seq<string>, filePath: string) returns (stack: seq<string>)
    ensures |techStack| <= |stack| <= |techStack| + 1 && stack[..|techStack|] == techStack
    ensures forall t :: t in stack ==> t in techStack || Some(t) == ExtensionTech(Extension(filePath))
    ensures filePath != "" && ExtensionTech(Extension(filePath)).Some? ==>
              ExtensionTech(Extension(filePath)).value in stack
    ensures NoDuplicates(techStack) ==> NoDuplicates(stack)
  {
    stack := techStack;
    if filePath != "" {
      var ext := Extension(filePath);
      var tech := ExtensionTech(ext);
      if tech.Some? && tech.value !in stack {
        stack := stack + [tech.value];
      }
    }
  }

  /** The additional tags: always `error-resolution` and `debugging`, and
      `error:` with the lower-cased type when there is one. */
  function ErrorTags(errorType: string): (r: seq<string>)
    ensures |r| >= 2 && r[..2] == ["error-resolution", "debugging"]
    ensures |r| == 2 <==> errorType == ""
    ensures |r| == 3 ==> r[2] == "error:" + Lower(errorType)
  {
    ["error-resolution", "debugging"] + (if errorType != "" then ["error:" + Lower(errorType)] else [])
  }
}

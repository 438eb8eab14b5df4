# Heimdall memory hooks, modelled in Dafny

Heimdall is the long-term memory layer of the AES agent toolkit. Its hooks
(`hooks/heimdall/`) run after the tool events of a coding agent. Each one does three things:

- decides whether an event is worth remembering;
- turns the event into a Markdown memory and a set of tags;
- hands both to the `aes-bizzy memory` CLI.

This project models the deterministic part of those hooks:

- the tag algebra and the CLI argument vectors (`utils.py`);
- the event predicates and the extractors, such as task ids from commit messages, changed-file categories, PRD requirements, agent lessons and error messages;
- every memory-content builder and the session-start summary.

The model has one Dafny module per hook file:

| Module | Hook file |
|---|---|
| `Utils` | `utils.py` |
| `PostCommit` | `post_commit.py` |
| `SessionEnd` | `session_end.py` |
| `PrdParsed` | `prd_parsed.py` |
| `PostAgentTask` | `post_agent_task.py` |
| `ErrorResolved` | `error_resolved.py` |
| `PostTaskComplete` | `post_task_complete.py` |
| `SessionStart` | `session_start.py` |

Two support modules sit beside them:

- `Wrappers` holds `Option`.
- `Text` holds Python `str` semantics over `seq<char>`: ASCII `lower`, `strip` with Python's whitespace set, `in`, `endswith`, `split("\n")`, `join`, slicing with `[:n]`, and decimal rendering of integers.

The hooks fall into two kinds, and the model follows each kind:

- **Hooks that build a result step by step become methods.** These are the content builders that `append` and `extend` a `content_parts` list, and the loops that count, filter or de-duplicate. Each method is proved against a function that states the result. Where a function takes one line per loop iteration, it is defined by appending that line at the end. Lemmas about those functions state what the hook promises: caps, "... and N more" tails, truncation lengths, section presence, partitions, absence of duplicates, and orders.
- **Pure expressions become functions.** Examples are `normalize_tag`, `construct_tag`, the event predicates and `calculate_duration`. Lemmas hold their properties.

The world outside the hooks becomes parameters:

- **The clock:** `now` and `startedAt` strings, and elapsed seconds for durations.
- **JSON renderings of the event:** `json.dumps(data)` and `str(tool_result)` become opaque strings.
- **The output of git and of the CLI.**
- **The detected project name.**

A few of the model's results go beyond what the code states directly:

- **Task ids from commit messages.** `extract_task_ids` de-duplicates through a `set`, so its order is undefined. The model promises only that the ids are distinct and that the set of ids equals the set of pattern matches.
- **The Bash error-message patterns.** These are tried in the order `Error:`, `error[...]:` (as in `error[E0308]:`), `TypeError:`, `SyntaxError:`, `Exception:`, all ignoring case, and the first one that matches wins. Every text that contains `TypeError:` or `SyntaxError:` also contains `Error:`. So the two typed patterns can never be the one that decides the message (`ErrorResolved.TypedPatternsShadowed`).
- **Any Edit or Bash event whose text contains `fix`.** Such an event is always an error resolution. The word is both an error indicator and a fix stem, so it alone reaches the threshold of two (`ErrorResolved.FixIsEnough`).
- **The order of arguments in the search command.** In `query_memories` the `--json` flag comes right after `--limit`, and `--tags` and `--type` follow it. The model follows this order of the code (`Utils.SearchHead`), not a layout with `--json` last.

## Model

| member | source | states |
|---|---|---|
| Utils.NormalizeTagNormalizes | hooks/heimdall/utils.py:221-228 | a normalised tag has no upper-case ASCII letter, no space, no underscore and no whitespace at either end, and is never longer than the input |
| Utils.NormalizedIsFixpoint | hooks/heimdall/utils.py:223-228 | a tag already in normal form is returned unchanged |
| Utils.NormalizeTagIdempotent | hooks/heimdall/utils.py:223-228 | normalising twice gives the same tag as normalising once |
| Utils.PrefixesNormalized | hooks/heimdall/utils.py:207-218 | every tag prefix is non-empty, in normal form and ends with `:` |
| Utils.ConstructTagNormalized | hooks/heimdall/utils.py:207-234 | a tag for a known key starts with that key's prefix; for an unknown key it is just the normalised value; every constructed tag is in normal form and a fixpoint of normalisation |
| Utils.TechTagsSpec | hooks/heimdall/utils.py:278-280 | one `tech:` tag per tech-stack entry, at the same position, duplicates kept |
| Utils.TechTagsNormalized | hooks/heimdall/utils.py:278-280 | every tech tag is in normal form |
| Utils.OptionalTagNormalized | hooks/heimdall/utils.py:261-276 | the optional agent, task, type and project tags are in normal form |
| Utils.LeadingTagsNormalized | hooks/heimdall/utils.py:259-280 | all tags before the additional ones are in normal form |
| Utils.AddNewSpec | hooks/heimdall/utils.py:282-286 | the additional-tag loop keeps the earlier tags as a prefix; each tag it appends is non-empty, new and one of the normalised additional tags; every non-empty normalised additional tag ends up in the list |
| Utils.AddNewNormalized | hooks/heimdall/utils.py:282-286 | appending normal-form tags keeps the whole list in normal form |
| Utils.GenerateStandardTags | hooks/heimdall/utils.py:259-288 | the tags are agent, task, type and project (the given project, else the detected one), then one tech tag per entry, then the new non-empty normalised additional tags; all are in normal form |
| Utils.AppendTechTags | hooks/heimdall/utils.py:278-280 | the tech loop appends exactly the tech tags, in order |
| Utils.AppendAdditionalTags | hooks/heimdall/utils.py:282-286 | the additional-tag loop gives the de-duplicated list and keeps normal form |
| Utils.TechRankOfEntry | hooks/heimdall/utils.py:293-302 | the tech names in the keyword table are distinct, so each has one rank |
| Utils.DetectedTechsSpec | hooks/heimdall/utils.py:304-311 | detected techs follow table order; each detected tech has a keyword in the lowered content; each tech with such a keyword is detected |
| Utils.ExtractTechFromContent | hooks/heimdall/utils.py:291-311 | a tech is returned if and only if one of its keywords occurs in the lowered content; the result has no duplicates and is in table order |
| Utils.AppendFlag | hooks/heimdall/utils.py:99-102 | a flag and its value are appended only when the value is non-empty |
| Utils.StoreOptionsRead | hooks/heimdall/utils.py:99-104 | the store options carry `--agent` and `--task` exactly when non-empty, and `--ttl` exactly when the ttl is non-zero |
| Utils.StoreArgs | hooks/heimdall/utils.py:91-104 | the store command is the fixed nine-word head, followed by the `--agent`, `--task` and `--ttl` pairs in that order; each pair is present only when its value is non-empty or non-zero |
| Utils.SearchOptionsRead | hooks/heimdall/utils.py:156-159 | the search options carry `--tags` (comma-joined) only for non-empty tags, and `--type` only for a non-empty type |
| Utils.SearchArgs | hooks/heimdall/utils.py:149-159 | the search command is the seven-word head with `--limit` and `--json`, followed by `--tags` and `--type` only when given |
| PostCommit.DigitRun | hooks/heimdall/post_commit.py:99-104 | the longest run of digits from a position (`\d+`) |
| PostCommit.NumberEndIsTaskNumber | hooks/heimdall/post_commit.py:99-104 | what `\d+(?:\.\d+)?` matches is a digit run, optionally followed by a dot and a digit run |
| PostCommit.MatchAtIsTaskNumber | hooks/heimdall/post_commit.py:99-104 | the group captured by each of the four task-id patterns is a task number |
| PostCommit.FindAllAreTaskNumbers | hooks/heimdall/post_commit.py:109-111 | all matches of one pattern are task numbers |
| PostCommit.MatchesAreTaskNumbers | hooks/heimdall/post_commit.py:109-111 | all matches of all patterns are task numbers |
| PostCommit.NoMatchesInEmpty | hooks/heimdall/post_commit.py:99-111 | an empty message matches no pattern |
| PostCommit.Distinct | hooks/heimdall/post_commit.py:113 | de-duplication yields the same elements with no duplicates and no more entries |
| PostCommit.ExtractTaskIds | hooks/heimdall/post_commit.py:96-113 | the ids are distinct task numbers, exactly the matches of the lowered message; an empty message gives none |
| PostCommit.ClassifyPriority | hooks/heimdall/post_commit.py:128-137 | a file is test if its lowered name looks like a test; otherwise docs, config, source or other, by suffix in that priority |
| PostCommit.DotTestRedundant | hooks/heimdall/post_commit.py:128-129 | the `.test.` test is subsumed by containing `test` |
| PostCommit.CategorizeFiles | hooks/heimdall/post_commit.py:116-139 | all five category keys are present, and each maps to the files of that class in input order |
| PostCommit.BucketMembers | hooks/heimdall/post_commit.py:126-137 | a file is in a category exactly when it is an input of that class |
| PostCommit.BucketsPartition | hooks/heimdall/post_commit.py:116-139 | the categories together hold each input file exactly as often as the input does |
| PostCommit.BucketSizes | hooks/heimdall/post_commit.py:116-139 | the category sizes sum to the number of files |
| PostCommit.NonEmptyMembers | hooks/heimdall/post_commit.py:88 | the changed-file list holds exactly the non-empty lines of git's output |
| PostCommit.CommitInfoOfNone | hooks/heimdall/post_commit.py:32-93 | no commit info exactly when `git rev-parse` exits with a failure or any of the five commands raises a timeout or a missing-executable error |
| PostCommit.CommitInfoOfSpec | hooks/heimdall/post_commit.py:32-90 | the short hash is the first eight characters of the full one; files are exactly the non-empty output lines, and message and stats are empty when their command failed |
| PostCommit.AppendCategory | hooks/heimdall/post_commit.py:160-166 | one category's heading, up to ten file lines and the "... and N more" tail |
| PostCommit.AppendCategorySections | hooks/heimdall/post_commit.py:160-166 | the non-empty categories, in fixed order |
| PostCommit.AppendFilesSection | hooks/heimdall/post_commit.py:152-168 | the Files Changed section, present only for a non-empty file list |
| PostCommit.AppendStatsSection | hooks/heimdall/post_commit.py:170-177 | the Statistics section, present only for non-empty stats |
| PostCommit.CreateCommitMemoryContent | hooks/heimdall/post_commit.py:142-186 | the commit memory is the header, files, stats and info sections joined by newlines |
| PostCommit.CategoryLinesBound | hooks/heimdall/post_commit.py:160-166 | a category gives at most ten file lines plus heading and tail, and no tail when it holds at most ten files |
| PostCommit.CategorySectionsBound | hooks/heimdall/post_commit.py:160-166 | the category sections are bounded by twelve parts-list entries per category (before joining; an entry may span several lines) |
| PostCommit.CommitPartsBound | hooks/heimdall/post_commit.py:142-186 | the parts list of the commit memory has at most 76 entries, whatever the number of files (the message, the stats and the category headings may each span several lines once joined) |
| PostCommit.CommitPartsFrame | hooks/heimdall/post_commit.py:144-184 | the memory starts with the short hash and the message and ends with Hash (at most 12 characters of the full hash), Author and Date; Files Changed appears only for files, with their count, and Statistics only for stats |
| PostCommit.CategoryLinesList | hooks/heimdall/post_commit.py:160-166 | each of a category's first ten files is listed |
| PostCommit.CategorySectionsList | hooks/heimdall/post_commit.py:160-166 | each of the first ten files of any category is listed in the category sections |
| PostCommit.CommitListsFile | hooks/heimdall/post_commit.py:152-168 | each of the first ten files of any category appears in the commit memory |
| PostCommit.SelectTaskTags | hooks/heimdall/post_commit.py:209-215 | the task id is the first extracted id, if any; the extra tags are `git-commit`, `commit:<hash>` and `task:` tags for at most the first three ids |
| SessionEnd.UpdateLaws | hooks/heimdall/session_end.py:70-71 | merging no keys changes nothing; merging the same data twice changes nothing more; merges compose |
| SessionEnd.ExtractSessionSummaryKeys | hooks/heimdall/session_end.py:57-73 | every key of the stored session data overrides the event-derived value; a key it lacks keeps the event value or default |
| SessionEnd.DurationForms | hooks/heimdall/session_end.py:83-91 | for non-negative seconds the duration reads `Ns`, `Mm Ss` or `Hh Mm` by magnitude, with hours, minutes and seconds recombining to the input |
| SessionEnd.FirstOccurrencesSpec | hooks/heimdall/session_end.py:123-125 | the tool names in first-seen order are distinct and are exactly the tools used |
| SessionEnd.CountTools | hooks/heimdall/session_end.py:123-125 | each used tool gets a count equal to its number of uses, and no other key appears |
| SessionEnd.ToolCountsSum | hooks/heimdall/session_end.py:123-125 | the tool counts sum to the number of tool uses |
| SessionEnd.InsertByCountSpec | hooks/heimdall/session_end.py:126 | inserting into a list ordered by count keeps it ordered and adds exactly that tool |
| SessionEnd.RankByCountSpec | hooks/heimdall/session_end.py:126 | ranking orders tools by non-increasing count and is a permutation of the keys |
| SessionEnd.TopToolsSpec | hooks/heimdall/session_end.py:126-127 | at most ten tools are shown, distinct, in non-increasing count order, all of them used |
| SessionEnd.TopToolsLeftOut | hooks/heimdall/session_end.py:126-127 | a tool left out is used no more often than any shown one, and none is left out when there are at most ten |
| SessionEnd.ToolLinesSpec | hooks/heimdall/session_end.py:127 | one `- tool: Nx` line per shown tool, with its count |
| SessionEnd.TaskLinesSpec | hooks/heimdall/session_end.py:148-151 | one line per task, with `?` for a missing id and `Untitled` for a missing title |
| SessionEnd.ToolsSectionBounds | hooks/heimdall/session_end.py:117-127 | the Tools Used section exists exactly when tools were used, with at most ten tool lines |
| SessionEnd.FilesSectionBounds | hooks/heimdall/session_end.py:130-139 | the Files Modified section exists exactly for modified files, with at most fifteen lines and the "... and N more" tail exactly when there are more |
| SessionEnd.TasksSectionBounds | hooks/heimdall/session_end.py:142-151 | the Tasks Completed section exists exactly for completed tasks, with at most ten task lines |
| SessionEnd.ActivitiesSectionBounds | hooks/heimdall/session_end.py:113-114 | the Key Activities section exists exactly for activities, with at most ten lines; the Turns line appears only for a non-zero count |
| SessionEnd.AppendToolLines | hooks/heimdall/session_end.py:126-127 | the tool-line loop appends the lines for the ranked tools |
| SessionEnd.AppendToolsSection | hooks/heimdall/session_end.py:117-127 | the Tools Used section, built from the counting loop |
| SessionEnd.AppendFilesSection | hooks/heimdall/session_end.py:130-139 | the Files Modified section |
| SessionEnd.AppendTaskLines | hooks/heimdall/session_end.py:148-151 | the task-line loop |
| SessionEnd.AppendTasksSection | hooks/heimdall/session_end.py:142-151 | the Tasks Completed section |
| SessionEnd.AppendActivitiesSection | hooks/heimdall/session_end.py:154-161 | the Key Activities section |
| SessionEnd.CreateSessionMemoryContent | hooks/heimdall/session_end.py:96-163 | the session memory is its sections joined by newlines |
| SessionEnd.ShouldStoreIff | hooks/heimdall/session_end.py:180-185 | a session is skipped exactly when it has no modified files, no completed tasks and fewer than five tool uses |
| PrdParsed.IsPrdParsedEventIgnoresCase | hooks/heimdall/prd_parsed.py:33-36 | the PRD-event test does not depend on letter case |
| PrdParsed.IsPrdParsedEventAt | hooks/heimdall/prd_parsed.py:33-36 | a tool name whose lowered form contains `parse_prd` or `parse-prd` is a PRD event |
| PrdParsed.TitlesSpec | hooks/heimdall/prd_parsed.py:57 | one title per task, `""` when it has none |
| PrdParsed.ExtractPrdInfo | hooks/heimdall/prd_parsed.py:39-59 | input file and project are copied; a dict result counts all tasks and keeps the first twenty titles; a missing `data` key or a result that is not a dict gives 0 and none |
| PrdParsed.LoadPrdContentSpec | hooks/heimdall/prd_parsed.py:62-77 | no path or no readable file gives `""`; a file of at most 2000 characters is kept whole; a longer file gives its first 2000 characters followed by exactly the `...\n[Content truncated]` mark |
| PrdParsed.RequirementsSound | hooks/heimdall/prd_parsed.py:96-101 | every requirement is a stripped input line that qualifies |
| PrdParsed.RequirementsComplete | hooks/heimdall/prd_parsed.py:96-101 | every qualifying line gives a requirement |
| PrdParsed.RequirementShape | hooks/heimdall/prd_parsed.py:85-101 | a requirement is longer than 10 and shorter than 200 characters and has no whitespace at its ends |
| PrdParsed.FilterRequirements | hooks/heimdall/prd_parsed.py:96-101 | the line loop keeps exactly the qualifying stripped lines, in order |
| PrdParsed.ExtractRequirements | hooks/heimdall/prd_parsed.py:80-103 | the requirements are the first twenty qualifying stripped lines, in order |
| PrdParsed.NumberedTitlesSpec | hooks/heimdall/prd_parsed.py:126-128 | the titles are numbered from 1, in order |
| PrdParsed.OverviewSectionSpec | hooks/heimdall/prd_parsed.py:120-133 | the overview exists exactly for titles, lists at most fifteen numbered titles, and ends with "... and N more tasks" exactly when there are more |
| PrdParsed.RequirementsSectionSpec | hooks/heimdall/prd_parsed.py:136-143 | the requirements section exists exactly for requirements and lists at most ten of them, in order |
| PrdParsed.PrdSectionsSpec | hooks/heimdall/prd_parsed.py:113-153 | Source appears only for an input file, the task section only for a non-zero task count, and the summary only for content; the summary is a prefix of at most 1500 characters |
| PrdParsed.AppendNumberedTitles | hooks/heimdall/prd_parsed.py:126-128 | the numbered title loop |
| PrdParsed.AppendOverviewSection | hooks/heimdall/prd_parsed.py:124-133 | the task overview block |
| PrdParsed.AppendTasksSection | hooks/heimdall/prd_parsed.py:120-133 | the Generated Tasks section |
| PrdParsed.AppendRequirementsSection | hooks/heimdall/prd_parsed.py:136-143 | the Key Requirements section |
| PrdParsed.AppendSourceSection | hooks/heimdall/prd_parsed.py:113-117 | the Source section |
| PrdParsed.AppendSummarySection | hooks/heimdall/prd_parsed.py:146-153 | the PRD Summary section |
| PrdParsed.CreatePrdMemoryContent | hooks/heimdall/prd_parsed.py:106-161 | the PRD memory is its sections and metadata joined by newlines |
| PostAgentTask.ExtractAgentInfoSpec | hooks/heimdall/post_agent_task.py:31-46 | no info exactly when the agent type is empty; `subagent_type` wins whenever the key is present, and the agent type is `agent_type`'s value when it is absent; the result falls back from `result` to `output` and the task from `task` to `prompt`, each `""` when both keys are missing; the duration defaults to `""` |
| PostAgentTask.LessonsSound | hooks/heimdall/post_agent_task.py:70-76 | every lesson is a stripped result line that qualifies |
| PostAgentTask.LessonsComplete | hooks/heimdall/post_agent_task.py:70-76 | every qualifying line gives a lesson |
| PostAgentTask.LessonShape | hooks/heimdall/post_agent_task.py:54-76 | a lesson is longer than 20 characters and has no whitespace at its ends |
| PostAgentTask.FilterLessons | hooks/heimdall/post_agent_task.py:70-76 | the line loop keeps exactly the qualifying stripped lines, in order |
| PostAgentTask.ExtractLessonsFromResult | hooks/heimdall/post_agent_task.py:49-78 | the lessons are the first five qualifying stripped lines, in order |
| PostAgentTask.LessonLinesSpec | hooks/heimdall/post_agent_task.py:101-103 | one line per lesson, each lesson cut to 200 characters |
| PostAgentTask.ResultSummarySpec | hooks/heimdall/post_agent_task.py:107-109 | the result summary is the whole result up to 1000 characters, else its first 1000 followed by `...` |
| PostAgentTask.SummarizeResult | hooks/heimdall/post_agent_task.py:107-109 | computes that summary |
| PostAgentTask.TaskSectionSpec | hooks/heimdall/post_agent_task.py:88-93 | the Task section exists exactly for a task, cut to 500 characters |
| PostAgentTask.InsightsSectionSpec | hooks/heimdall/post_agent_task.py:96-104 | the Key Insights section has one line per lesson, none longer than 202 characters |
| PostAgentTask.ResultSectionSpec | hooks/heimdall/post_agent_task.py:96-115 | the result sections exist exactly for a non-empty result; they hold the Key Insights heading and one `- ` line per lesson (at most five, each cut to 200 characters) when there are lessons, then the Result Summary heading, the summary and a blank entry |
| PostAgentTask.AgentPartsLast | hooks/heimdall/post_agent_task.py:117-124 | the memory ends with the Duration line when there is a duration, else with the Completed line |
| PostAgentTask.AppendLessonLines | hooks/heimdall/post_agent_task.py:101-103 | the lesson-line loop |
| PostAgentTask.AppendTaskSection | hooks/heimdall/post_agent_task.py:88-93 | the Task section |
| PostAgentTask.AppendInsightsSection | hooks/heimdall/post_agent_task.py:96-104 | the Key Insights section |
| PostAgentTask.AppendResultSection | hooks/heimdall/post_agent_task.py:96-115 | the insights and result-summary sections |
| PostAgentTask.CreateAgentMemoryContent | hooks/heimdall/post_agent_task.py:81-126 | the agent memory is its sections joined by newlines |
| ErrorResolved.CountFixPatterns | hooks/heimdall/error_resolved.py:76-85 | the loop adds one for each fix stem present |
| ErrorResolved.IsErrorResolutionEvent | hooks/heimdall/error_resolved.py:54-88 | an event is an error resolution exactly when the tool is Edit or Bash and at least two indicators and fix stems occur in the lowered event text |
| ErrorResolved.PresentCountBounds | hooks/heimdall/error_resolved.py:73-85 | the number of patterns present is at most their number, and 0 exactly when none occurs |
| ErrorResolved.PresentCountAt | hooks/heimdall/error_resolved.py:73-85 | one occurring pattern makes the count at least 1 |
| ErrorResolved.FixIsEnough | hooks/heimdall/error_resolved.py:33-88 | any text containing `fix` reaches the threshold |
| ErrorResolved.SearchFrom | hooks/heimdall/error_resolved.py:122-134 | finds the leftmost place at or after a position where an error pattern matches |
| ErrorResolved.FindErrorMessage | hooks/heimdall/error_resolved.py:122-134 | the message is that of the first pattern that matches, cut to 200 characters, or empty |
| ErrorResolved.FirstMessageFirst | hooks/heimdall/error_resolved.py:130-134 | there is a message exactly when some pattern matches, and it is then the group of the first pattern that matches |
| ErrorResolved.FirstMessageSpec | hooks/heimdall/error_resolved.py:122-134 | a found message is a slice of the result text without a line break |
| ErrorResolved.TypedPatternsShadowed | hooks/heimdall/error_resolved.py:122-128 | a text matching `typeerror:` or `syntaxerror:` also matches `error:`, which decides the message |
| ErrorResolved.FindErrorType | hooks/heimdall/error_resolved.py:139-144 | the loop over error-type names with `break` |
| ErrorResolved.FirstErrorTypeSpec | hooks/heimdall/error_resolved.py:139-144 | the type is empty exactly when no name occurs, and otherwise the first name that occurs, with `error` capitalised |
| ErrorResolved.ExtractErrorInfo | hooks/heimdall/error_resolved.py:91-146 | for Edit the file is named and the resolution says "Changed code in" or "Edited"; for Bash the resolution is the command cut to 100 characters and the message comes from the result; other tools give neither; the error type comes from the event text |
| ErrorResolved.AppendTypeSection | hooks/heimdall/error_resolved.py:156-160 | the Error Type section |
| ErrorResolved.AppendMessageSection | hooks/heimdall/error_resolved.py:162-169 | the Error Message section |
| ErrorResolved.AppendResolutionSection | hooks/heimdall/error_resolved.py:171-176 | the Resolution section |
| ErrorResolved.AppendFileSection | hooks/heimdall/error_resolved.py:178-183 | the File section |
| ErrorResolved.CreateErrorMemoryContent | hooks/heimdall/error_resolved.py:149-191 | the error memory is its sections joined by newlines |
| ErrorResolved.SectionsSpec | hooks/heimdall/error_resolved.py:156-183 | each section appears exactly when its field is non-empty, with the message fenced and the resolution and file shown |
| ErrorResolved.ErrorPartsShape | hooks/heimdall/error_resolved.py:149-191 | the parts list has 5 to 18 entries, starts with the heading and always ends with the Resolution Context block (a field with line breaks spans more lines once joined) |
| ErrorResolved.EditNamesFile | hooks/heimdall/error_resolved.py:106-115 | an Edit resolution names its file, and the File section shows it |
| ErrorResolved.ExtensionSpec | hooks/heimdall/error_resolved.py:222 | the extension has no dot and is what follows the last dot |
| ErrorResolved.AddExtensionHint | hooks/heimdall/error_resolved.py:221-232 | the stack keeps its entries and gains at most the extension's tech, which is then present; no duplicate is introduced |
| ErrorResolved.ErrorTags | hooks/heimdall/error_resolved.py:235-237 | the additional tags are `error-resolution` and `debugging`, plus `error:<type>` in lower case exactly when there is a type |
| PostTaskComplete.IsTaskCompletionEventIff | hooks/heimdall/post_task_complete.py:31-41 | an event completes a task exactly when the tool name contains `set_task_status` or `task-master` and the status is `done` |
| PostTaskComplete.ExtractTaskInfo | hooks/heimdall/post_task_complete.py:44-71 | no info exactly when the task id is empty; with no tasks all fields are empty; otherwise the first task's fields, its title defaulting to `Task <id>` |
| PostTaskComplete.AppendDescriptionSection | hooks/heimdall/post_task_complete.py:81-86 | the Description section |
| PostTaskComplete.AppendDetailsSection | hooks/heimdall/post_task_complete.py:88-93 | the Implementation Details section |
| PostTaskComplete.CreateTaskMemoryContent | hooks/heimdall/post_task_complete.py:74-101 | the task memory is its sections joined by newlines |
| PostTaskComplete.TaskPartsShape | hooks/heimdall/post_task_complete.py:74-101 | 5, 8 or 11 parts-list entries (a multi-line description or details entry spans more lines once joined); the heading names the title; the Description and Implementation Details sections appear only when non-empty; the memory ends with the Task ID line |
| PostTaskComplete.NoTasksHeading | hooks/heimdall/post_task_complete.py:74-101 | a task without a title, description or details gives the bare five-line memory |
| SessionStart.LoadQueryArgs | hooks/heimdall/session_start.py:29-59 | project memories: five, tagged with the project tag; recent lessons: five of type `lesson`; error resolutions: three of type `error` |
| SessionStart.PreviewSpec | hooks/heimdall/session_start.py:75-77 | the preview is one line: the first line when it has at most 100 characters, else its first 100 and `...` |
| SessionStart.MemoriesLinesSpec | hooks/heimdall/session_start.py:72-85 | the memories give one line each plus one relevance line per memory with a positive percentage |
| SessionStart.MemoryLayout | hooks/heimdall/session_start.py:72-85 | memory `k`'s header (its type in brackets, `memory` when absent, then its preview) comes right after the lines of the memories before it, followed by its `Relevance: N%` line exactly when its percentage is positive |
| SessionStart.SummaryLinesSpec | hooks/heimdall/session_start.py:62-87 | no lines for no memories; otherwise the title, an underline of `-` as long as the title, and at most five memories |
| SessionStart.SummaryIgnoresRest | hooks/heimdall/session_start.py:72 | memories after the fifth do not change the summary |
| SessionStart.AppendMemoryLines | hooks/heimdall/session_start.py:72-85 | the loop over the memories |
| SessionStart.FormatMemorySummary | hooks/heimdall/session_start.py:62-87 | the summary is its lines joined by newlines, `""` for no memories |
| SessionStart.ContextReportSpec | hooks/heimdall/session_start.py:98-129 | a report is printed exactly when some search found something; it names the project, holds one summary per non-empty result in fixed order, and ends with the search hint |

## Left out

- **Running commands.** The model leaves out running the CLI and git (`store_memory`, `query_memories`, `is_heimdall_ready`, `get_last_commit_info` and the `load_*` functions). It keeps the argument vectors these calls use. The command results are inputs: `GitRun` records (an exit status and output, or a raised timeout or missing-executable error) and search results.
- **Reading the repository and files.** `get_project_root`, `get_project_name`, `load_session_data`, `clear_session_data`, the file read in `load_prd_content` and `log_hook_error` touch the filesystem. The project name, the stored session data and the file text are parameters. `hooks/heimdall/__init__.py` is not part of this model.
- **Parsing the hook input.** `parse_hook_input`, `json.loads` and `json.dumps` are left out. Events are typed records whose optional keys are `Option`s. JSON and `str()` renderings of the event are opaque strings.
- **The clock.** `datetime.now()` and `datetime.fromisoformat` are parameters. `SessionEnd.CalculateDuration` takes elapsed seconds, where `None` means the timestamps did not parse and gives `unknown`.
- SessionEnd.DurationForms: states the formats for non-negative seconds only. A negative difference is rendered with Python's floor division, and no property is claimed for it.
- **Relevance scores.** The relevance percentage `int(relevanceScore * 100)` uses floating point. It is passed in already computed.
- **Unicode.** `str.lower()` is ASCII lower-casing. The regular-expression classes are ASCII too: `\d` is an ASCII digit (`Text.IsDigit`), although Python's `\d` on `str` also matches other Unicode decimal digits, and case-insensitive matching is ASCII, so `ſ` is not taken for `s`.
- **Regular expressions.** The regular expressions are modelled by hand for their fixed patterns: the four task-id patterns, and the five error-message patterns as "leftmost occurrence, group to the end of the line". The fix regexes are substring tests of their stems.
- **Process control.** `safe_hook_execution`, the `sys.exit` flow, `print` to stderr and `store_memory` in every `main` are left out. The model keeps the decisions `main` makes: the store/skip test, task-tag selection, the extension hint, the error tags and the context report.
- PostCommit.ExtractTaskIds: `list(set(...))` has no defined order, so only the set of ids and the absence of duplicates are stated, not the order.
- SessionEnd.RankByCountSpec: `sorted` is stable, but the model states only that the order is non-increasing by count and is a permutation. It does not state how tools with equal counts are ordered.
- **Outside these hooks.** The inter-agent mailbox and the file-change routing are not in these hook files and are not modelled.

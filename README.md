# Literature Review Agent: prompt selection, routing and formatting in Dafny

This project models the deterministic core of the Literature Review Agent, a tool
that splits an academic paper into chunks, asks a chat model for a summary, key
findings, methodology, contributions and limitations, and writes the analysis out
as plain text, Markdown or JSON. The model covers:

- the built-in prompt registry: four prompt versions, each a set of task templates
  with one `{text}` field; the module-level default instance; and
  `set_default_version`;
- the override store: named configurations loaded from YAML and then JSON files by
  whole-entry `dict.update`, with lookups, listings and `reload`;
- the agent itself: the constructor's API-key check, which chunks each analysis
  reads, prompt selection with its fallbacks, `analyze_paper` and the bullet-point
  parser;
- the utilities: reading time, keyword extraction, output-format validation and
  extension lookup, and the step counter of `ProgressTracker`;
- the plain-text and Markdown formatters of `AnalysisFormatter`.

Python's own behaviour is modelled where the code relies on it:

- `str.format` for `{name}`, `{{` and `}}` (module `Formatting`);
- insertion-ordered `dict` (module `Dicts`);
- `strip`, `lstrip(chars)`, `split`, `join`, `lower` and `str(int)` (module `Text`);
- floor division and slices with negative bounds.

The chat model, the text splitter, the configuration files and the clock are inputs:

- a completion function;
- the chunk sequence;
- one parse outcome per file, in directory order;
- a timestamp string.

Modules, one per file:

- `wrappers.dfy`: `Option` and `Result`.
- `dicts.dfy`: `Dict`.
- `text.dfy`: string operations.
- `formatting.dfy`: `str.format`.
- `prompts.dfy`: the built-in registry (prompts/__init__.py).
- `prompt_config.dfy`: the override store (prompts/config.py).
- `agents.dfy`: the agent (agents/__init__.py).
- `utils.dfy`: the helpers (utils/__init__.py).
- `summarizers.dfy`: the formatters (summarizers/__init__.py).

Stateful code is modelled with classes:

- `Prompts.PromptGlobals` holds `default_prompts`.
- `PromptConfigs.PromptConfig` holds `custom_prompts`.
- `Utils.ProgressTracker` holds `current_step`.

The loops of the source are methods with loop invariants, each proved equal to a specification function:

- `_load_custom_prompts`;
- `_parse_bullet_points`;
- the counting loop of `extract_keywords`;
- the `append` sequences of `_format_text` and `_format_markdown`.

## Model

| member | source | states |
|---|---|---|
| Prompts.VersionOf | prompts/__init__.py:7-11 | `PromptVersion(value)` finds a member only for one of the four values, and the member found has that value |
| Prompts.VersionOfValue | prompts/__init__.py:7-11 | each version is found again from its `.value`, so the four values are pairwise distinct |
| Prompts.VersionsComplete | prompts/__init__.py:7-11 | the four declared versions are all there are |
| Prompts.NewPromptTemplates | prompts/__init__.py:16-18 | a new instance keeps the given version and holds the full registry |
| Prompts.RegistryKeys | prompts/__init__.py:20-27 | the registry has one entry per version, four in all |
| Prompts.RegistryKeyIsVersion | prompts/__init__.py:20-27 | a key is in the registry if and only if it is the `.value` of a version |
| Prompts.RegistryEntry | prompts/__init__.py:20-27 | the entry under a version's value is that version's template set |
| Prompts.LoadTemplates | prompts/__init__.py:20-27 | `_load_templates` maps each version's value to its template set; stated by `RegistryKeys`, `RegistryKeyIsVersion` and `RegistryEntry` |
| Prompts.TaskSets | prompts/__init__.py:37-307 | V1, V2 and V3 define `system` and the five analysis tasks; the experimental set defines only `system`, `summary` and `key_findings` |
| Prompts.TemplateShapes | prompts/__init__.py:37-307 | every built-in template is either a non-empty system message without fields or a text, the single field `{text}`, then the closing indentation |
| Prompts.ShapedSimple | prompts/__init__.py:31-33 | a template of either shape is non-empty, so the empty-template check never fires for a defined task, and its only field is a keyword field |
| Prompts.ShapedSubstitute | prompts/__init__.py:35 | filling in a system template needs no argument and gives its text; an analysis template with `text` gives head + text + closing indentation, and without `text` raises a missing key |
| Prompts.PromptTemplates.GetPrompt | prompts/__init__.py:29-35 | `get_prompt` looks the task up, refuses a missing or empty template and formats the rest; stated by `BuiltInPrompt`, `AnalysisPrompt`, `SystemPrompt` and `MissingTask` |
| Prompts.BuiltInPrompt | prompts/__init__.py:29-35 | `PromptTemplates(v).get_prompt(task, **kwargs)` is the task's parsed template filled in from the arguments, or "No template found" for a task the version lacks |
| Prompts.AnalysisPrompt | prompts/__init__.py:29-35 | an analysis template is a head, the field `{text}` and the closing indentation, written out with braces doubled; `get_prompt` returns the head, the `text` argument and the indentation, and raises without `text` |
| Prompts.SystemPieces | prompts/__init__.py:37-307 | every version's `system` template is a single literal, that version's system message |
| Prompts.SystemPrompt | prompts/__init__.py:29-35 | `get_prompt("system")` succeeds whatever the arguments and returns the system message as written |
| Prompts.MissingTask | prompts/__init__.py:31-33 | a task the selected version does not define raises "No template found for task" |
| Prompts.ExperimentalGaps | prompts/__init__.py:272-307 | under the experimental version, methodology, contributions and limitations raise "No template found" |
| Prompts.PromptGlobals.constructor | prompts/__init__.py:309-310 | `default_prompts` starts as the V2 (detailed) instance over the full registry |
| Prompts.PromptGlobals.GetPrompt | prompts/__init__.py:312-318 | module `get_prompt` resolves against the given version when there is one and against the default instance's version otherwise |
| Prompts.PromptGlobals.SetDefaultVersion | prompts/__init__.py:320-323 | after the call, calls without a version resolve against the new version, and calls that name a version give what they gave before |
| Formatting.SubstituteSucceeds | prompts/__init__.py:35 | filling in a parsed template succeeds if and only if every field name has a keyword argument |
| Formatting.Format | prompts/__init__.py:35 | `str.format` with keyword arguments scans the template once; stated by `FormatRender` and `FormatEscaped` |
| Formatting.FormatRender | prompts/__init__.py:35 | `format` on a template written from literal text (braces doubled) and `{name}` fields gives exactly what substituting the parsed fields gives |
| Formatting.FormatEscaped | prompts/config.py:52-53 | literal text with its braces doubled formats back to itself, whatever the arguments |
| PromptConfigs.Step | prompts/config.py:24-29 | merging one file's mapping, or skipping a failed file, keeps the store a well-formed name-to-task-map dictionary |
| PromptConfigs.LoadAll | prompts/config.py:23-39 | loading any sequence of files keeps the store well formed |
| PromptConfigs.Loaded | prompts/config.py:17-41 | the loaded store is well formed |
| PromptConfigs.LoadFiles | prompts/config.py:23-29 | the file loop leaves the store that folding `update` over the parsed files gives, failed files skipped |
| PromptConfigs.LoadCustomPrompts | prompts/config.py:17-41 | `_load_custom_prompts` starts from `{}` and loads the YAML files, then the JSON files |
| PromptConfigs.LoadAllGet | prompts/config.py:27 | a name maps to the whole task map of the last file that defines it; an earlier entry is replaced, not merged task by task |
| PromptConfigs.LoadAllAppend | prompts/config.py:23-39 | loading `a` and then `b` is loading `a + b` |
| PromptConfigs.LoadedInOrder | prompts/config.py:21-39 | the directory loads as its YAML results followed by its JSON results |
| PromptConfigs.FailedFileSkipped | prompts/config.py:28-29 | a file that fails leaves the store unchanged, and the files after it are still loaded |
| PromptConfigs.LoadedNames | prompts/config.py:17-41 | a configuration is present after loading if and only if some file defines it, and it holds the last such definition |
| PromptConfigs.LastDefinitionSome | prompts/config.py:17-41 | a last definition exists if and only if some file defines the name |
| PromptConfigs.PromptConfig.constructor | prompts/config.py:13-15 | a new configuration holds the load of its directory |
| PromptConfigs.PromptConfig.GetCustomPrompt | prompts/config.py:43-53 | raises "Configuration not found" exactly for an unknown name and "Task not found" exactly for a known name without the task; otherwise it formats that template |
| PromptConfigs.PromptConfig.ListConfigurations | prompts/config.py:55-57 | lists exactly the loaded names, each once |
| PromptConfigs.PromptConfig.ListTasks | prompts/config.py:59-63 | lists exactly the configuration's tasks, each once, and `[]` for an unknown name |
| PromptConfigs.PromptConfig.Reload | prompts/config.py:65-67 | the store becomes a fresh load of the directory as it is now; nothing of the earlier store survives, and reloading unchanged files gives the same store |
| PromptConfigs.CustomPromptSubstitutes | prompts/config.py:52-53 | a configured `{name}` template succeeds if and only if every field has an argument, and then gives the template filled in |
| Dicts.Dict.Put | utils/__init__.py:103 | `d[k] = v` sets `k`, leaves every other key alone, appends a new key to the order and keeps an existing key in place |
| Dicts.Dict.Items | utils/__init__.py:106 | `items()` lists every key once, in insertion order, with its value |
| Dicts.Dict.Update | prompts/config.py:27 | `update` takes the other dict's value for each of its keys, keeps the rest, and appends new keys in the other dict's order |
| Dicts.Dict.PutAll | prompts/config.py:27 | putting a list of keys one by one gives them their new values and appends the new ones in order |
| Dicts.Empty | prompts/config.py:19 | `{}` has no key |
| Text.StripStart | agents/__init__.py:131 | what `lstrip()` leaves starts with a non-whitespace character |
| Text.StripStartSuffix | agents/__init__.py:131 | `lstrip()` keeps a suffix and removes only whitespace |
| Text.StripEnd | agents/__init__.py:131 | what `rstrip()` leaves ends with a non-whitespace character |
| Text.StripEndPrefix | agents/__init__.py:131 | `rstrip()` keeps a prefix and removes only whitespace |
| Text.Strip | agents/__init__.py:131 | `strip()` leaves nothing or a string that starts and ends with non-whitespace |
| Text.StripSlice | agents/__init__.py:131 | `strip()` keeps a contiguous slice that holds every non-whitespace character |
| Text.StripWithin | agents/__init__.py:131 | a character the line lacks, its strip lacks too |
| Text.StripIdempotent | agents/__init__.py:131 | stripping twice is stripping once |
| Text.LStrip | agents/__init__.py:134 | what `lstrip(chars)` leaves does not start with one of `chars` |
| Text.LStripSuffix | agents/__init__.py:134 | `lstrip(chars)` keeps a suffix and removes only characters of `chars` |
| Text.LStripWithin | agents/__init__.py:134 | a character the string lacks, `lstrip(chars)` lacks too |
| Text.Split | agents/__init__.py:127 | `split('\n')` gives at least one piece and no piece holds the separator |
| Text.JoinSplit | agents/__init__.py:127 | joining the pieces of a split with the separator gives back the string |
| Text.SplitJoin | summarizers/__init__.py:90 | splitting a join of separator-free lines gives back the lines |
| Text.Lower | utils/__init__.py:125 | `lower()` maps each character on its own and keeps the length |
| Text.LowerIdempotent | utils/__init__.py:125 | lower-casing twice is lower-casing once |
| Text.NatToString | summarizers/__init__.py:54 | `str(i)` is a non-empty string of decimal digits without a leading zero |
| Text.DecimalRoundTrip | summarizers/__init__.py:54 | reading `str(i)` back as a decimal gives `i` |
| Text.Words | utils/__init__.py:82 | `split()` gives non-empty words that hold no whitespace |
| Text.WordsCover | utils/__init__.py:82 | every maximal run of non-whitespace characters is one of the words |
| Text.WordsJoin | utils/__init__.py:82 | the words, concatenated, are the text with its whitespace removed |
| Agents.NewAgent | agents/__init__.py:9-20 | construction fails if and only if the API key is absent or empty, and otherwise keeps the version and configuration name |
| Agents.SummaryChunks | agents/__init__.py:43 | the summary reads the first min(3, N) chunks, in order |
| Agents.KeyFindingsChunks | agents/__init__.py:51 | key findings read the last min(3, N) chunks, in order |
| Agents.MethodologyChunks | agents/__init__.py:61 | methodology reads all chunks but the first and the last when N > 2, and all chunks otherwise |
| Agents.ContributionsChunks | agents/__init__.py:70 | contributions read the first chunk and the last two when N > 2, and all chunks otherwise |
| Agents.LimitationsChunks | agents/__init__.py:80 | limitations read the last min(2, N) chunks, in order |
| Agents.Agent.GetPrompt | agents/__init__.py:87-96 | a named custom configuration takes precedence over the built-in version; any failure gives "Analyze this text for {task}: {text}" |
| Agents.Agent.GetSystemPrompt | agents/__init__.py:115-123 | the custom `system` task when a configuration is named, with the generic system prompt on failure; otherwise the version's system message |
| Agents.BuiltInSystemPrompt | agents/__init__.py:120-121 | the built-in system prompt never falls back: it is the version's system message |
| Agents.Agent.CallModel | agents/__init__.py:98-113 | `_call_openai` returns the stripped answer or the error text; how each analysis uses it is stated by `AnalyzePaper` |
| Agents.Agent.AnalyzePaper | agents/__init__.py:22-38 | the record holds the five analyses, each over its own chunks and task, and the metadata unchanged; the three list analyses are never empty |
| Agents.BulletMarkerIsStartsWith | agents/__init__.py:132 | deciding on the first two characters is the same as trying each of the eight markers with `startswith` |
| Agents.CleanBullet | agents/__init__.py:134 | the cleaned item is no longer than the line and does not start with a digit 1-9, a dot or a space |
| Agents.LineItem | agents/__init__.py:131-136 | the item a line gives is non-empty and does not start with a digit 1-9, a dot or a space |
| Agents.BulletItems | agents/__init__.py:130-136 | the items are no more than the lines, and none is empty |
| Agents.ParseBullets | agents/__init__.py:125-138 | the parse is never empty |
| Agents.ParseBulletPoints | agents/__init__.py:125-138 | the loop over the lines gives the items of the lines in order, or `[text]` when there are none |
| Agents.ItemSource | agents/__init__.py:130-136 | every item comes from a line that gives it |
| Agents.ItemPresent | agents/__init__.py:130-136 | every line that gives an item has that item in the list |
| Agents.BulletItemsEmpty | agents/__init__.py:130-136 | the list is empty if and only if no line gives an item |
| Agents.ParseBulletsFallback | agents/__init__.py:138 | with no item line the result is the unmodified text alone; otherwise it is the item list, each item non-empty |
| Agents.BulletItemShape | agents/__init__.py:125-138 | every item is non-empty, holds no line break and does not start with a digit 1-9, a dot or a space |
| Agents.LineItemWithin | agents/__init__.py:131-134 | an item is a piece of its line: a character the line lacks, the item lacks |
| Agents.OneLine | agents/__init__.py:125-138 | a one-line answer parses to its item, or to itself when it gives none |
| Agents.UnmarkedLine | agents/__init__.py:132 | a one-line answer without a marker comes back whole |
| Agents.LongNumberingIgnored | agents/__init__.py:132 | lines numbered `10.` or `6.` are not items |
| Agents.ItemOfSolidLine | agents/__init__.py:131-136 | a line without outer whitespace that has a marker gives its cleaned form |
| Agents.DashedYear | agents/__init__.py:134 | `- 2023 results` gives `023 results`: the number strip runs after the marker strip |
| Agents.NumberedDash | agents/__init__.py:134 | `1. -item` gives `-item`: a dash behind the number stays |
| Agents.BuiltInTaskPrompt | agents/__init__.py:92-93 | with no custom configuration, an analysis prompt is the version's template with the joined chunks in place of `{text}` |
| Agents.MissingTaskFallsBack | agents/__init__.py:94-96 | a task the version lacks gives the generic prompt instead of raising |
| Agents.UnknownCustomFallsBack | agents/__init__.py:89-96 | an unknown configuration, or one without the task, gives the generic prompt |
| Agents.FallbackIsBasicSystem | agents/__init__.py:122-123 | the generic system prompt is the basic version's system message |
| Utils.FloorDiv | utils/__init__.py:83 | `a // b` rounds toward minus infinity |
| Utils.EstimateReadingTime | utils/__init__.py:80-83 | raises exactly for 0 words per minute; otherwise at least 1, and for a positive rate the whole minutes that the word count fills, floored at 1 |
| Utils.Tokens | utils/__init__.py:97 | every token is a run of at least three ASCII letters |
| Utils.TokensCover | utils/__init__.py:97 | every whole run of word characters made of three or more ASCII letters is a token |
| Utils.TokensSound | utils/__init__.py:97 | every token is such a run of the text |
| Utils.TokensLowerCase | utils/__init__.py:97 | tokens of lower-cased text are lower-case letters only |
| Utils.Frequencies | utils/__init__.py:100-103 | the counting loop builds a well-formed dictionary |
| Utils.FrequencyCounts | utils/__init__.py:100-103 | a word is counted if and only if it occurs and is kept (not a stop word, longer than 3), and its count is its number of occurrences |
| Utils.FrequencyKeyOrder | utils/__init__.py:100-103 | the dictionary lists the counted words in order of first occurrence |
| Utils.InsertByCount | utils/__init__.py:106 | inserting keeps every entry: the result is a permutation of the list plus the new entry |
| Utils.SortByCount | utils/__init__.py:106 | the sort is a permutation of its input |
| Utils.InsertRanked | utils/__init__.py:106 | inserting an entry that occurs later into a ranked list keeps it ranked |
| Utils.SortRanked | utils/__init__.py:106 | sorting entries given in first-occurrence order gives counts that do not increase, ties in first-occurrence order: the stable descending sort |
| Utils.TakePrefix | utils/__init__.py:107 | `s[:n]` is a prefix of length min(n, len) for n ≥ 0 and max(0, len + n) for n < 0 |
| Utils.Words0 | utils/__init__.py:107 | the keyword list is the entries' words, in order |
| Utils.ExtractKeywords | utils/__init__.py:85-107 | the counting loop then sort and take give the ranked keywords |
| Utils.RankedEntry | utils/__init__.py:100-107 | every ranked entry is a kept word of the text with its number of occurrences |
| Utils.KeywordsDistinct | utils/__init__.py:100-107 | at most `max_keywords` keywords for a non-negative limit, and no keyword twice |
| Utils.KeywordsShape | utils/__init__.py:97-102 | every keyword is a token of the text, lower-case ASCII letters, at least 4 long and not a stop word |
| Utils.KeywordsOrdered | utils/__init__.py:103-107 | keywords come in non-increasing frequency, ties in first-occurrence order |
| Utils.FrequencyItems | utils/__init__.py:100-103 | the dictionary has one item per distinct counted word |
| Utils.KeywordsCount | utils/__init__.py:100-107 | there are min(`max_keywords`, number of distinct counted words) keywords for a non-negative limit, and that number less `-max_keywords`, at least 0, for a negative one |
| Utils.KeywordsComplete | utils/__init__.py:100-107 | a counted word left out of the keywords ranks behind every keyword: a lower count, or the same count and a later first occurrence |
| Utils.ValidateOutputFormat | utils/__init__.py:122-125 | true if and only if the lower-cased format is `text`, `markdown` or `json` |
| Utils.FileExtension | utils/__init__.py:127-134 | `.md` exactly for markdown, `.json` exactly for json, `.txt` for anything else, in any letter case |
| Utils.FormatChecksAgree | utils/__init__.py:122-134 | both checks ignore letter case, and a format is valid exactly when it has its own extension entry |
| Utils.ProgressTracker.constructor | utils/__init__.py:139-143 | a tracker starts at step 0 with its total and description, which never change |
| Utils.ProgressTracker.Update | utils/__init__.py:145-159 | `update` advances the step by exactly one and then fails exactly when the total is 0 |
| Utils.ProgressTracker.Finish | utils/__init__.py:161-166 | `finish` raises the step to the total only when it is below, and otherwise leaves it |
| Summarizers.RuleShape | summarizers/__init__.py:23-33 | the banner rule is 60 `=` and the section underline 20 `-` |
| Summarizers.NumberedFrom | summarizers/__init__.py:53-54 | list items are rendered `{i}. {item}`, `i` counting from 1 in order |
| Summarizers.Dashed | summarizers/__init__.py:120-121 | Markdown list items are rendered `- {item}`, in order |
| Summarizers.TextSection | summarizers/__init__.py:47-57 | a text section is absent exactly when its key is; otherwise title, underline, body, empty line |
| Summarizers.MarkdownSection | summarizers/__init__.py:115-124 | a Markdown section is absent exactly when its key is; otherwise heading, body, empty line |
| Summarizers.TextPairs | summarizers/__init__.py:35-37 | metadata pairs are rendered `key: value`, in mapping order |
| Summarizers.MarkdownPairs | summarizers/__init__.py:104-106 | metadata pairs are rendered `- **key:** value`, in mapping order |
| Summarizers.MetadataBlock | summarizers/__init__.py:30-38 | the pages line says `Unknown` without `num_pages`; the pair lines appear exactly when the inner mapping has entries |
| Summarizers.LineCounts | summarizers/__init__.py:20-154 | both renderings show the same sections: the text has two more banner lines and one more line per section present |
| Summarizers.TextBannerFirst | summarizers/__init__.py:22-27 | the text always opens with the banner, and is the banner alone exactly when no key is present |
| Summarizers.MarkdownBannerFirst | summarizers/__init__.py:94-97 | the Markdown always opens with its title and timestamp, and is only that exactly when no key is present |
| Summarizers.RenderedSingleLines | summarizers/__init__.py:20-154 | every line built is free of line breaks when the values and the timestamp are |
| Summarizers.RoundTrip | summarizers/__init__.py:90 | splitting the output at its line breaks gives back exactly the lines built, when no value holds a line break |
| Summarizers.AppendNumbered | summarizers/__init__.py:53-54 | the loop appends the numbered items |
| Summarizers.AppendDashed | summarizers/__init__.py:120-121 | the loop appends the dashed items |
| Summarizers.AppendTextSection | summarizers/__init__.py:47-57 | appends the text section of a key, nothing when absent |
| Summarizers.AppendMarkdownSection | summarizers/__init__.py:115-124 | appends the Markdown section of a key, nothing when absent |
| Summarizers.AppendTextMetadata | summarizers/__init__.py:30-38 | appends the metadata block, nothing when absent |
| Summarizers.AppendMarkdownMetadata | summarizers/__init__.py:100-107 | appends the Markdown metadata block, nothing when absent |
| Summarizers.FormatText | summarizers/__init__.py:20-90 | the text is the banner and the present sections, in the fixed order, joined with line breaks |
| Summarizers.FormatMarkdown | summarizers/__init__.py:92-154 | the Markdown is the title and the present sections, in the fixed order, joined with line breaks |
| Summarizers.FormatAnalysis | summarizers/__init__.py:11-18 | `json` in any case gives the JSON form, `markdown` the Markdown, anything else the plain text |

## Left out

- The chat-model call (agents/__init__.py:98-113) is a parameter of type `Completion`:
  - its success gives the stripped answer;
  - its failure gives "Error in API call: " and the error text;
  - model name, token limit and temperature are not modelled.
- The text splitter (langchain's `RecursiveCharacterTextSplitter`) is not part of this model. `analyze_paper` takes the chunk sequence as an input, and no chunk size or overlap bound is claimed.
- Configuration-file I/O is an input:
  - globbing, opening and YAML/JSON parsing become one parse outcome per file;
  - `None` stands for a file that fails to open, parse or merge;
  - the files come in directory order, which the filesystem decides;
  - the warning printed for a failed file is not modelled.
- A parsed file whose top level is not a name-to-task-map mapping is not modelled; `ConfigDir.Valid` requires well-formed contents.
- `str.format` is modelled for `{name}` fields and the `{{`/`}}` escapes:
  - format specs, conversions, attribute and index access are reported as unsupported, not evaluated;
  - positional fields always fail, as no positional arguments are passed;
  - template values that are not strings are not modelled.
- Unicode tables are not modelled:
  - Text.LowerChar: lower-cases the ASCII capitals and the Kelvin sign only, and leaves other characters alone. This changes keywords in one case: Python lower-cases U+0130 (capital I with dot above) to `i` followed by U+0307, which is not a word character, so `extract_keywords("Dataİ")` gives `["datai"]` where `Utils.Keywords` gives `["data"]`.
  - `Utils.IsWordChar` is the ASCII part of `\w`. A non-ASCII letter next to an ASCII run therefore splits tokens where Python would not.
  - `str.isspace` is exact.
- The template heads are the source's string literals up to `{text}`. That they hold no brace, so that writing them out with braces doubled leaves them unchanged and the stored template is the source literal, holds by reading them; it is not proved.
- `clean_text`, `extract_sections`, `format_file_size` and `setup_logging` (utils/__init__.py:6-78, 109-120) are not part of this model: regular expressions over Unicode, float formatting and logging set-up.
- `ProgressTracker`: the percentage, elapsed time and console output are not modelled. The ZeroDivisionError for a total of 0 is the `false` result of `Update`, after the step was advanced, as in the source.
- `_format_json`, `save_analysis` and `print_analysis` (summarizers/__init__.py:156-175) are not modelled: JSON encoding and file or console output. `FormatAnalysis` returns `JsonDocument(analysis)` for the JSON format.
- `datetime.now()` timestamps are a string parameter.
- Analysis values are modelled as strings or lists of strings and metadata pairs as strings, as `str` renders them. A non-string, non-list section value, which makes `"\n".join` raise, is not modelled.
- `config/__init__.py` is not part of this model; its `validate_api_key` check is the `apiKey` argument of `NewAgent`.
- Summarizers.RoundTrip: requires that no value holds a line break; a value with one becomes several lines of output.

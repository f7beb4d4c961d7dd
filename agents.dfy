/** `LiteratureReviewAgent` of agents/__init__.py: which chunks of the paper each
    analysis reads, which prompt it sends, and how a bulleted answer is split into
    items. The text splitter and the chat model are inputs. */
module Agents {
  import opened Wrappers
  import opened Text
  import opened Formatting
  import Prompts
  import opened PromptConfigs

  /** The chat model behind `_call_openai`: given the system prompt and the user
      prompt, the message content it answers with, or the text of the exception the
      call raised. */
  type Completion = (string, string) -> Result<string, string>

  /** Why the constructor raises. */
  datatype AgentError = MissingApiKey   // ValueError: OpenAI API key not found

  /** An agent: its built-in prompt version and the name of its custom configuration.
      Both are set once, by the constructor. */
  datatype Agent = Agent(promptVersion: Prompts.PromptVersion, customConfig: Option<string>) {

    /** `if self.custom_config:` holds for a non-empty name only. */
    predicate UsesCustom()
    {
      customConfig.Some? && customConfig.value != ""
    }

    /** `_get_prompt(task, **kwargs)`: the custom configuration when one is named,
        the built-in registry otherwise; any failure gives the generic prompt. */
    function GetPrompt(cfg: PromptConfig, task: string, kwargs: Params): (r: string)
      reads cfg
      ensures UsesCustom() ==>
        var c := cfg.GetCustomPrompt(customConfig.value, task, kwargs);
        r == if c.Success? then c.value else FallbackPrompt(task, kwargs)
      ensures !UsesCustom() ==>
        var b := Prompts.Resolve(promptVersion, task, kwargs);
        r == if b.Success? then b.value else FallbackPrompt(task, kwargs)
    {
      if UsesCustom() then
        match cfg.GetCustomPrompt(customConfig.value, task, kwargs)
        case Success(s) => s
        case Failure(_) => FallbackPrompt(task, kwargs)
      else
        // module `get_prompt` with a version given builds `PromptTemplates(version)`
        Prompts.BuiltInPrompt(promptVersion, task, kwargs);
        match Prompts.NewPromptTemplates(promptVersion).GetPrompt(task, kwargs)
        case Success(s) => s
        case Failure(_) => FallbackPrompt(task, kwargs)
    }

    /** `_get_system_prompt()`: the `system` task without arguments; any failure gives
        the generic system prompt. */
    function GetSystemPrompt(cfg: PromptConfig): (r: string)
      reads cfg
      ensures UsesCustom() ==>
        var c := cfg.GetCustomPrompt(customConfig.value, SystemTask, NoArguments);
        r == if c.Success? then c.value else FallbackSystemPrompt
      ensures !UsesCustom() ==> r == Prompts.SystemMessage(promptVersion)
    {
      if UsesCustom() then
        var c := cfg.GetCustomPrompt(customConfig.value, SystemTask, NoArguments);
        if c.Success? then c.value else FallbackSystemPrompt
      else BuiltInSystemPrompt(promptVersion)
    }

    /** `_call_openai(prompt)`: the stripped answer, or the error text. */
    function CallModel(cfg: PromptConfig, complete: Completion, prompt: string): string
      reads cfg
    {
      match complete(GetSystemPrompt(cfg), prompt)
      case Success(content) => Strip(content)
      case Failure(msg) => "Error in API call: " + msg
    }

    /** The prompt of one analysis: the task's prompt over its chunks joined by spaces. */
    function TaskPrompt(cfg: PromptConfig, task: string, chunks: seq<string>): string
      reads cfg
    {
      GetPrompt(cfg, task, map["text" := Join(" ", chunks)])
    }

    /** `analyze_paper(text, metadata)`, given the chunks the splitter cuts `text` into:
        five analyses and the metadata, unchanged. */
    function AnalyzePaper<M>(cfg: PromptConfig, complete: Completion, chunks: seq<string>, metadata: M)
      : (a: PaperAnalysis<M>)
      reads cfg
      ensures a.metadata == metadata
      ensures a.summary == CallModel(cfg, complete, TaskPrompt(cfg, "summary", SummaryChunks(chunks)))
      ensures a.keyFindings
           == ParseBullets(CallModel(cfg, complete, TaskPrompt(cfg, "key_findings", KeyFindingsChunks(chunks))))
      ensures a.methodology == CallModel(cfg, complete, TaskPrompt(cfg, "methodology", MethodologyChunks(chunks)))
      ensures a.contributions
           == ParseBullets(CallModel(cfg, complete, TaskPrompt(cfg, "contributions", ContributionsChunks(chunks))))
      ensures a.limitations
           == ParseBullets(CallModel(cfg, complete, TaskPrompt(cfg, "limitations", LimitationsChunks(chunks))))
      ensures |a.keyFindings| >= 1 && |a.contributions| >= 1 && |a.limitations| >= 1
    {
      var keyFindings := ParseBullets(CallModel(cfg, complete, TaskPrompt(cfg, "key_findings", KeyFindingsChunks(chunks))));
      var contributions := ParseBullets(CallModel(cfg, complete, TaskPrompt(cfg, "contributions", ContributionsChunks(chunks))));
      var limitations := ParseBullets(CallModel(cfg, complete, TaskPrompt(cfg, "limitations", LimitationsChunks(chunks))));
      PaperAnalysis(
        CallModel(cfg, complete, TaskPrompt(cfg, "summary", SummaryChunks(chunks))),
        keyFindings,
        CallModel(cfg, complete, TaskPrompt(cfg, "methodology", MethodologyChunks(chunks))),
        contributions,
        limitations,
        metadata)
    }
  }

  /** The dict `analyze_paper` returns: the five analysis keys and `metadata`. */
  datatype PaperAnalysis<M> = PaperAnalysis(
    summary: string,
    keyFindings: seq<string>,
    methodology: string,
    contributions: seq<string>,
    limitations: seq<string>,
    metadata: M)

  /** The constructor's key check: an absent or empty API key raises. */
  function NewAgent(apiKey: Option<string>, version: Prompts.PromptVersion, customConfig: Option<string>)
    : (r: Result<Agent, AgentError>)
    ensures r.Failure? <==> apiKey == None || apiKey == Some("")
    ensures r.Success? ==> r.value.promptVersion == version && r.value.customConfig == customConfig
  {
    if apiKey.None? || |apiKey.value| == 0 then Failure(MissingApiKey)
    else Success(Agent(version, customConfig))
  }

  /** The generic prompt: `Analyze this text for {task}: {text}`, with `text` the
      keyword argument of that name or empty. */
  function FallbackPrompt(task: string, kwargs: Params): string
  {
    "Analyze this text for " + task + ": " + (if "text" in kwargs then kwargs["text"] else "")
  }

  const SystemTask := "system"

  /** `get_prompt("system", version)`, with any failure turned into the generic
      system prompt: the version's system message, which never fails. */
  function BuiltInSystemPrompt(v: Prompts.PromptVersion): (r: string)
    ensures r == Prompts.SystemMessage(v)
  {
    Prompts.SystemPrompt(v, NoArguments);
    match Prompts.NewPromptTemplates(v).GetPrompt(SystemTask, NoArguments)
    case Success(s) => s
    case Failure(_) => FallbackSystemPrompt
  }

  /** A call without keyword arguments. */
  const NoArguments: Params := map[]

  /** The generic system prompt. */
  const FallbackSystemPrompt := "You are an expert academic researcher analyzing scientific papers."

  function Min(a: int, b: int): int
  {
    if a <= b then a else b
  }

  /** `_generate_summary`'s chunks: `chunks[:3]`. */
  function SummaryChunks(chunks: seq<string>): (r: seq<string>)
    ensures |r| == Min(3, |chunks|)
    ensures forall i :: 0 <= i < |r| ==> r[i] == chunks[i]
  {
    if |chunks| <= 3 then chunks else chunks[..3]
  }

  /** `_extract_key_findings`'s chunks: the last three, in order. */
  function KeyFindingsChunks(chunks: seq<string>): (r: seq<string>)
    ensures |r| == Min(3, |chunks|)
    ensures forall i :: 0 <= i < |r| ==> r[i] == chunks[|chunks| - |r| + i]
  {
    if |chunks| > 3 then chunks[|chunks| - 3..] else chunks
  }

  /** `_extract_methodology`'s chunks: all but the first and the last when there are
      more than two, all of them otherwise. */
  function MethodologyChunks(chunks: seq<string>): (r: seq<string>)
    ensures |chunks| > 2 ==> |r| == |chunks| - 2 && forall i :: 0 <= i < |r| ==> r[i] == chunks[i + 1]
    ensures |chunks| <= 2 ==> r == chunks
  {
    if |chunks| > 2 then chunks[1..|chunks| - 1] else chunks
  }

  /** `_extract_contributions`'s chunks: the first and the last two when there are more
      than two, all of them otherwise. */
  function ContributionsChunks(chunks: seq<string>): (r: seq<string>)
    ensures |chunks| > 2 ==> r == [chunks[0], chunks[|chunks| - 2], chunks[|chunks| - 1]]
    ensures |chunks| <= 2 ==> r == chunks
  {
    if |chunks| > 2 then [chunks[0]] + chunks[|chunks| - 2..] else chunks
  }

  /** `_extract_limitations`'s chunks: the last two, in order. */
  function LimitationsChunks(chunks: seq<string>): (r: seq<string>)
    ensures |r| == Min(2, |chunks|)
    ensures forall i :: 0 <= i < |r| ==> r[i] == chunks[|chunks| - |r| + i]
  {
    if |chunks| > 1 then chunks[|chunks| - 2..] else chunks
  }

  /** The markers of `line.startswith(...)`, decided on the first two characters. */
  predicate HasBulletMarker(line: string)
  {
    && |line| >= 1
    && (|| line[0] == '"' || line[0] == '-' || line[0] == '*'
        || (|line| >= 2 && '1' <= line[0] <= '5' && line[1] == '.'))
  }

  /** The markers a bulleted line may start with. */
  const BulletMarkers: seq<string> := ["\"", "-", "*", "1.", "2.", "3.", "4.", "5."]

  /** `line.startswith(('"', '-', '*', '1.', '2.', '3.', '4.', '5.'))`. */
  predicate IsBulletLine(line: string)
  {
    exists i :: 0 <= i < |BulletMarkers| && StartsWith(line, BulletMarkers[i])
  }

  /** Deciding on the first two characters is the same as trying each marker. */
  lemma BulletMarkerIsStartsWith(line: string)
    ensures HasBulletMarker(line) <==> IsBulletLine(line)
  {
    if HasBulletMarker(line) {
      if line[0] == '"' { assert StartsWith(line, BulletMarkers[0]); }
      else if line[0] == '-' { assert StartsWith(line, BulletMarkers[1]); }
      else if line[0] == '*' { assert StartsWith(line, BulletMarkers[2]); }
      else {
        var i := 3 + (line[0] as int - '1' as int);
        assert line[..2] == BulletMarkers[i];
        assert StartsWith(line, BulletMarkers[i]);
      }
    }
    if IsBulletLine(line) {
      var i :| 0 <= i < |BulletMarkers| && StartsWith(line, BulletMarkers[i]);
      assert line[..|BulletMarkers[i]|] == BulletMarkers[i];
      assert line[0] == BulletMarkers[i][0];
      if i >= 3 { assert line[1] == BulletMarkers[i][1]; }
    }
  }

  /** The characters of `lstrip('"-* ')`. */
  const MarkerChars: set<char> := {'"', '-', '*', ' '}

  /** The characters of `lstrip('123456789. ')`; `0` is not among them. */
  const NumberChars: set<char> := set c: char | '1' <= c <= '9' || c == '.' || c == ' '

  /** The item a bulleted line gives: its markers, then its numbering, removed. */
  function CleanBullet(line: string): (r: string)
    ensures r != [] ==> r[0] !in NumberChars
    ensures |r| <= |line|
  {
    LStrip(LStrip(line, MarkerChars), NumberChars)
  }

  /** The item one line gives: the line stripped, if it is bulleted, and cleaned, if
      that leaves something. */
  function LineItem(line: string): (r: Option<string>)
    ensures r.Some? ==> r.value != "" && r.value[0] !in NumberChars
  {
    var stripped := Strip(line);
    if HasBulletMarker(stripped) && CleanBullet(stripped) != "" then Some(CleanBullet(stripped)) else None
  }

  /** The items the lines give, in order: each stripped line that is bulleted and
      does not clean to nothing. */
  function BulletItems(lines: seq<string>): (items: seq<string>)
    ensures |items| <= |lines|
    ensures forall i :: 0 <= i < |items| ==> items[i] != ""
    decreases |lines|
  {
    if lines == [] then []
    else
      var prev := BulletItems(lines[..|lines| - 1]);
      match LineItem(lines[|lines| - 1])
      case Some(item) => prev + [item]
      case None => prev
  }

  /** `_parse_bullet_points(text)`: the items of its lines, or the unmodified text as
      the only item when no line gives one. */
  function ParseBullets(text: string): (r: seq<string>)
    ensures |r| >= 1
  {
    var items := BulletItems(Split(text, '\n'));
    if items == [] then [text] else items
  }

  /** `_parse_bullet_points`: one pass over the lines, appending each item. */
  method ParseBulletPoints(text: string) returns (points: seq<string>)
    ensures points == ParseBullets(text)
  {
    var lines := Split(text, '\n');
    var bulletPoints := [];
    for i := 0 to |lines|
      invariant bulletPoints == BulletItems(lines[..i])
    {
      assert lines[..i + 1][..i] == lines[..i];
      var line := Strip(lines[i]);
      if HasBulletMarker(line) {
        var cleaned := CleanBullet(line);
        if cleaned != "" {
          bulletPoints := bulletPoints + [cleaned];
        }
      }
    }
    assert lines[..|lines|] == lines;
    points := if bulletPoints == [] then [text] else bulletPoints;
  }

  /** Every item comes from a line that gives it: the index of that line. */
  lemma {:induction false} ItemSource(lines: seq<string>, k: nat) returns (j: nat)
    requires k < |BulletItems(lines)|
    ensures j < |lines| && LineItem(lines[j]) == Some(BulletItems(lines)[k])
    decreases |lines|
  {
    assert lines != [];
    var init := lines[..|lines| - 1];
    var prev := BulletItems(init);
    var items := BulletItems(lines);
    if k < |prev| {
      assert items[k] == prev[k];
      j := ItemSource(init, k);
      assert lines[j] == init[j];
    } else {
      assert LineItem(lines[|lines| - 1]) == Some(items[k]);
      j := |lines| - 1;
    }
  }

  /** Every line that gives an item has its item in the list: the item's position. */
  lemma {:induction false} ItemPresent(lines: seq<string>, j: nat) returns (k: nat)
    requires j < |lines| && LineItem(lines[j]).Some?
    ensures k < |BulletItems(lines)| && BulletItems(lines)[k] == LineItem(lines[j]).value
    decreases |lines|
  {
    var init := lines[..|lines| - 1];
    var prev := BulletItems(init);
    var items := BulletItems(lines);
    if j < |lines| - 1 {
      assert lines[j] == init[j];
      k := ItemPresent(init, j);
      assert items[k] == prev[k];
    } else {
      assert items == prev + [LineItem(lines[j]).value];
      k := |prev|;
    }
  }

  /** No line gives an item exactly when the bullet list is empty. */
  lemma BulletItemsEmpty(lines: seq<string>)
    ensures BulletItems(lines) == [] <==> forall j :: 0 <= j < |lines| ==> LineItem(lines[j]).None?
  {
    if BulletItems(lines) != [] {
      var j := ItemSource(lines, 0);
    } else {
      forall j | 0 <= j < |lines| ensures LineItem(lines[j]).None? {
        if LineItem(lines[j]).Some? {
          var k := ItemPresent(lines, j);
        }
      }
    }
  }

  /** When no line of the answer is an item, the result is the answer itself, unmodified;
      otherwise it is the list of items, each non-empty. */
  lemma ParseBulletsFallback(text: string)
    ensures var lines := Split(text, '\n');
      && ((forall j :: 0 <= j < |lines| ==> LineItem(lines[j]).None?) ==> ParseBullets(text) == [text])
      && ((exists j :: 0 <= j < |lines| && LineItem(lines[j]).Some?) ==>
            ParseBullets(text) == BulletItems(lines) && forall k :: 0 <= k < |ParseBullets(text)| ==> ParseBullets(text)[k] != "")
  {
    var lines := Split(text, '\n');
    BulletItemsEmpty(lines);
  }

  /** An item is a line of the answer with its markers and numbering removed: it holds
      no line break and starts neither with a digit from 1 to 9, nor a dot, nor a space. */
  lemma BulletItemShape(text: string, k: nat)
    requires k < |BulletItems(Split(text, '\n'))|
    ensures var item := BulletItems(Split(text, '\n'))[k];
      && item != "" && '\n' !in item && item[0] !in NumberChars
  {
    var lines := Split(text, '\n');
    var j := ItemSource(lines, k);
    assert '\n' !in lines[j];
    LineItemWithin(lines[j], '\n');
  }

  /** An item is a piece of its line: a character the line lacks, the item lacks too. */
  lemma LineItemWithin(line: string, c: char)
    requires c !in line
    ensures LineItem(line).Some? ==> c !in LineItem(line).value
  {
    StripWithin(line, c);
    LStripWithin(Strip(line), MarkerChars, c);
    LStripWithin(LStrip(Strip(line), MarkerChars), NumberChars, c);
  }

  /** A line that is its own strip: it starts and ends with a non-space character. */
  lemma StripSolid(line: string)
    requires line != [] && !IsSpace(line[0]) && !IsSpace(line[|line| - 1])
    ensures Strip(line) == line
  {
  }

  /** The parse of a one-line answer. */
  lemma OneLine(line: string)
    requires '\n' !in line
    ensures ParseBullets(line) == if LineItem(line).Some? then [LineItem(line).value] else [line]
  {
    SplitPlain(line, '\n');
    OneLineItems(line);
  }

  lemma OneLineItems(line: string)
    ensures BulletItems([line]) == if LineItem(line).Some? then [LineItem(line).value] else []
  {
    assert [line][..0] == [];
  }

  /** `lstrip` on a string given by its first character. */
  lemma LStripCons(c: char, t: string, chars: set<char>)
    ensures LStrip([c] + t, chars) == if c in chars then LStrip(t, chars) else [c] + t
  {
    assert ([c] + t)[1..] == t;
  }

  /** A one-line answer whose first two characters, both non-space, are neither a marker
      nor a number from 1 to 5 with its dot is not an item: the answer comes back whole. */
  lemma UnmarkedLine(line: string)
    requires '\n' !in line && |line| >= 2
    requires !IsSpace(line[0]) && !IsSpace(line[|line| - 1])
    requires !HasBulletMarker(line)
    ensures ParseBullets(line) == [line]
  {
    OneLine(line);
    StripSolid(line);
  }

  /** Items numbered `10.` or `6.` are not recognised as bullets. */
  lemma LongNumberingIgnored(t: string)
    requires t != [] && '\n' !in t && !IsSpace(t[|t| - 1])
    ensures ParseBullets("10." + t) == ["10." + t]
    ensures ParseBullets("6." + t) == ["6." + t]
  {
    var a, b := "10." + t, "6." + t;
    assert a[0] == '1' && a[1] == '0' && a[|a| - 1] == t[|t| - 1];
    assert b[0] == '6' && b[|b| - 1] == t[|t| - 1];
    UnmarkedLine(a);
    UnmarkedLine(b);
  }

  /** The item of a line given by its stripped form and its cleaned form. */
  lemma ItemOfSolidLine(line: string, cleaned: string)
    requires line != [] && !IsSpace(line[0]) && !IsSpace(line[|line| - 1])
    requires HasBulletMarker(line)
    requires CleanBullet(line) == cleaned && cleaned != ""
    ensures LineItem(line) == Some(cleaned)
  {
    StripSolid(line);
  }

  /** An item after a dash loses the digits from 1 to 9 it starts with, since
      `lstrip('123456789. ')` runs after the marker is gone: `- 2023 results` gives
      `023 results`. */
  lemma DashedYear(d: char, t: string)
    requires '1' <= d <= '9'
    requires t != [] && t[0] == '0' && '\n' !in t && !IsSpace(t[|t| - 1])
    ensures ParseBullets("- " + [d] + t) == [t]
  {
    var line := "- " + [d] + t;
    assert line == ['-'] + ([' '] + ([d] + t));
    assert line[|line| - 1] == t[|t| - 1];
    assert '\n' !in line;
    DashedClean(d, t);
    ItemOfSolidLine(line, t);
    OneLine(line);
  }

  lemma DashedClean(d: char, t: string)
    requires '1' <= d <= '9' && t != [] && t[0] == '0'
    ensures CleanBullet(['-'] + ([' '] + ([d] + t))) == t
  {
    LStripCons('-', [' '] + ([d] + t), MarkerChars);
    LStripCons(' ', [d] + t, MarkerChars);
    LStripCons(d, t, MarkerChars);
    LStripCons(d, t, NumberChars);
    assert t == [t[0]] + t[1..];
    LStripCons(t[0], t[1..], NumberChars);
  }

  /** The number is stripped after the markers, so a dash behind a number stays:
      `1. - item` gives `- item`. */
  lemma NumberedDash(d: char, t: string)
    requires '1' <= d <= '5'
    requires t != [] && '\n' !in t && !IsSpace(t[|t| - 1])
    ensures ParseBullets([d] + ". -" + t) == ["-" + t]
  {
    var line := [d] + ". -" + t;
    assert line == [d] + (['.'] + ([' '] + (['-'] + t)));
    assert line[|line| - 1] == t[|t| - 1];
    assert '\n' !in line;
    assert CleanBullet(line) == "-" + t by {
      LStripCons(d, ['.'] + ([' '] + (['-'] + t)), MarkerChars);
      LStripCons(d, ['.'] + ([' '] + (['-'] + t)), NumberChars);
      LStripCons('.', [' '] + (['-'] + t), NumberChars);
      LStripCons(' ', ['-'] + t, NumberChars);
      LStripCons('-', t, NumberChars);
    }
    ItemOfSolidLine(line, "-" + t);
    OneLine(line);
  }

  /** With no custom configuration, an analysis prompt is the version's template with
      the joined chunks in place of `{text}`. */
  lemma BuiltInTaskPrompt(agent: Agent, cfg: PromptConfig, task: string, text: string)
    requires !agent.UsesCustom()
    requires task in Prompts.PiecesOf(agent.promptVersion) && task != "system"
    ensures Prompts.Shaped(task, Prompts.PiecesOf(agent.promptVersion)[task])
    ensures agent.GetPrompt(cfg, task, map["text" := text])
         == Prompts.PiecesOf(agent.promptVersion)[task][0].text + text + Prompts.TemplateEnd
  {
    Prompts.AnalysisPrompt(agent.promptVersion, task, map["text" := text]);
    Prompts.BuiltInPrompt(agent.promptVersion, task, map["text" := text]);
  }

  /** A task the version lacks, such as the experimental set's methodology, falls back
      to the generic prompt instead of raising. */
  lemma MissingTaskFallsBack(agent: Agent, cfg: PromptConfig, task: string, text: string)
    requires !agent.UsesCustom()
    requires task !in Prompts.TemplatesOf(agent.promptVersion)
    ensures agent.GetPrompt(cfg, task, map["text" := text]) == "Analyze this text for " + task + ": " + text
  {
  }

  /** An unknown custom configuration, or a task it lacks, falls back to the generic
      prompt too. */
  lemma UnknownCustomFallsBack(agent: Agent, cfg: PromptConfig, task: string, kwargs: Params)
    requires agent.UsesCustom()
    requires !cfg.customPrompts.Contains(agent.customConfig.value)
          || !cfg.customPrompts.values[agent.customConfig.value].Contains(task)
    ensures agent.GetPrompt(cfg, task, kwargs) == FallbackPrompt(task, kwargs)
  {
  }

  /** The generic system prompt is the basic version's system message. */
  lemma FallbackIsBasicSystem()
    ensures FallbackSystemPrompt == Prompts.SystemMessage(Prompts.V1Basic)
  {
  }
}

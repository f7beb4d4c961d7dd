/** The built-in prompt registry of prompts/__init__.py: four template sets, one per
    `PromptVersion`, each mapping a task name to a template with one `{text}` field
    (the system message has none), and the module-level default instance. */
module Prompts {
  import opened Wrappers
  import opened Formatting

  /** `PromptVersion`: a closed set of four versions. */
  datatype PromptVersion = V1Basic | V2Detailed | V3Structured | Experimental {
    /** The member's `.value`, the key of its set in the registry. */
    function Value(): string
    {
      match this
      case V1Basic => "v1_basic"
      case V2Detailed => "v2_detailed"
      case V3Structured => "v3_structured"
      case Experimental => "experimental"
    }
  }

  /** `PromptVersion(value)`: the member whose value is `value`, if any. */
  function VersionOf(value: string): (v: Option<PromptVersion>)
    ensures v.Some? ==> v.value.Value() == value
  {
    if value == "v1_basic" then Some(V1Basic)
    else if value == "v2_detailed" then Some(V2Detailed)
    else if value == "v3_structured" then Some(V3Structured)
    else if value == "experimental" then Some(Experimental)
    else None
  }

  /** Each version is found again from its value, so the values are pairwise distinct. */
  lemma VersionOfValue(v: PromptVersion)
    ensures VersionOf(v.Value()) == Some(v)
  {
  }

  /** The four versions, in declaration order. */
  const Versions: seq<PromptVersion> := [V1Basic, V2Detailed, V3Structured, Experimental]

  lemma VersionsComplete(v: PromptVersion)
    ensures v in Versions
  {
  }

  /** The version that `PromptTemplates()` and the module default use. */
  const DefaultVersion := V2Detailed

  /** What follows `{text}` in every analysis template: the line break and the
      indentation before the closing quotes. */
  const TemplateEnd := "\n            "

  // prompts/__init__.py line 40
  const V1System :=
      "You are an expert academic researcher analyzing scientific papers."

  // prompts/__init__.py lines 42-47, the text before `{text}`
  const V1SummaryHead :=
      "\n"
    + "            Please provide a comprehensive summary of this academic paper excerpt.\n"
    + "            Focus on the main research question, approach, and key findings.\n"
    + "            \n"
    + "            Text: "

  // prompts/__init__.py lines 49-54, the text before `{text}`
  const V1KeyFindingsHead :=
      "\n"
    + "            Extract the key findings from this academic paper excerpt.\n"
    + "            Return them as a list of bullet points.\n"
    + "            \n"
    + "            Text: "

  // prompts/__init__.py lines 56-61, the text before `{text}`
  const V1MethodologyHead :=
      "\n"
    + "            Extract and summarize the methodology used in this research.\n"
    + "            Focus on experimental design and methods.\n"
    + "            \n"
    + "            Text: "

  // prompts/__init__.py lines 63-68, the text before `{text}`
  const V1ContributionsHead :=
      "\n"
    + "            Identify the main contributions of this research paper.\n"
    + "            List them as bullet points.\n"
    + "            \n"
    + "            Text: "

  // prompts/__init__.py lines 70-75, the text before `{text}`
  const V1LimitationsHead :=
      "\n"
    + "            Identify the limitations of this research.\n"
    + "            List them as bullet points.\n"
    + "            \n"
    + "            Text: "

  // prompts/__init__.py line 81
  const V2System :=
      "You are an expert academic researcher with deep knowledge in literature analysis. Provide detailed, accurate, and well-structured responses."

  // prompts/__init__.py lines 83-99, the text before `{text}`
  const V2SummaryHead :=
      "\n"
    + "            Analyze this academic paper excerpt and provide a comprehensive summary in 3-4 paragraphs.\n"
    + "            \n"
    + "            Structure your response as follows:\n"
    + "            1. Research context and motivation\n"
    + "            2. Methodology and approach\n"
    + "            3. Key findings and results\n"
    + "            4. Implications and significance\n"
    + "            \n"
    + "            Focus on:\n"
    + "            - Main research question and objectives\n"
    + "            - Novel contributions to the field\n"
    + "            - Practical applications\n"
    + "            - Scientific rigor and validity\n"
    + "            \n"
    + "            Text: "

  // prompts/__init__.py lines 101-116, the text before `{text}`
  const V2KeyFindingsHead :=
      "\n"
    + "            Extract the key findings from this academic paper excerpt.\n"
    + "            Focus on concrete results, discoveries, and measurable outcomes.\n"
    + "            \n"
    + "            Format as bullet points, each containing:\n"
    + "            - The specific finding\n"
    + "            - Supporting evidence or data when available\n"
    + "            - Statistical significance if mentioned\n"
    + "            \n"
    + "            Avoid:\n"
    + "            - Methodology descriptions\n"
    + "            - Background information\n"
    + "            - Speculation or interpretations\n"
    + "            \n"
    + "            Text: "

  // prompts/__init__.py lines 118-132, the text before `{text}`
  const V2MethodologyHead :=
      "\n"
    + "            Extract and summarize the research methodology from this paper.\n"
    + "            \n"
    + "            Include details about:\n"
    + "            - Study design (experimental, observational, etc.)\n"
    + "            - Sample size and participant characteristics\n"
    + "            - Data collection methods and instruments\n"
    + "            - Analysis techniques and statistical methods\n"
    + "            - Controls and variables\n"
    + "            - Timeline and procedures\n"
    + "            \n"
    + "            Present in a clear, structured format that another researcher could understand and potentially replicate.\n"
    + "            \n"
    + "            Text: "

  // prompts/__init__.py lines 134-148, the text before `{text}`
  const V2ContributionsHead :=
      "\n"
    + "            Identify the main contributions of this research paper to the scientific field.\n"
    + "            \n"
    + "            Consider:\n"
    + "            - Novel theoretical insights\n"
    + "            - New methodological approaches\n"
    + "            - Empirical discoveries\n"
    + "            - Practical applications\n"
    + "            - Tools, datasets, or frameworks introduced\n"
    + "            - Challenges to existing paradigms\n"
    + "            \n"
    + "            For each contribution, briefly explain why it\'s significant and how it advances the field.\n"
    + "            \n"
    + "            Text: "

  // prompts/__init__.py lines 150-164, the text before `{text}`
  const V2LimitationsHead :=
      "\n"
    + "            Identify the limitations of this research and any suggested future work.\n"
    + "            \n"
    + "            Look for:\n"
    + "            - Acknowledged limitations by the authors\n"
    + "            - Methodological constraints\n"
    + "            - Sample size or scope limitations\n"
    + "            - Generalizability concerns\n"
    + "            - Technical or resource constraints\n"
    + "            - Suggestions for future research directions\n"
    + "            \n"
    + "            Distinguish between explicit limitations mentioned by authors and potential limitations you can infer.\n"
    + "            \n"
    + "            Text: "

  // prompts/__init__.py lines 170-172
  const V3System :=
      "You are an expert academic researcher specializing in literature analysis. \n"
    + "            Provide responses in the exact format requested, using clear structure and academic language.\n"
    + "            Always base your analysis strictly on the provided text."

  // prompts/__init__.py lines 174-191, the text before `{text}`
  const V3SummaryHead :=
      "\n"
    + "            Analyze this academic paper excerpt and provide a structured summary.\n"
    + "            \n"
    + "            OUTPUT FORMAT:\n"
    + "            **Research Question**: [1-2 sentences]\n"
    + "            **Methodology**: [2-3 sentences about approach]\n"
    + "            **Key Results**: [2-3 sentences about main findings]\n"
    + "            **Significance**: [1-2 sentences about implications]\n"
    + "            \n"
    + "            REQUIREMENTS:\n"
    + "            - Use only information from the provided text\n"
    + "            - Be concise but comprehensive\n"
    + "            - Use academic language\n"
    + "            - Highlight novel aspects\n"
    + "            \n"
    + "            TEXT TO ANALYZE:\n"
    + "            "

  // prompts/__init__.py lines 193-213, the text before `{text}`
  const V3KeyFindingsHead :=
      "\n"
    + "            Extract key findings using this exact format:\n"
    + "            \n"
    + "            FINDING 1: [Specific result]\n"
    + "            - Evidence: [Supporting data/observation]\n"
    + "            - Significance: [Why this matters]\n"
    + "            \n"
    + "            FINDING 2: [Specific result]\n"
    + "            - Evidence: [Supporting data/observation]\n"
    + "            - Significance: [Why this matters]\n"
    + "            \n"
    + "            [Continue for all significant findings]\n"
    + "            \n"
    + "            INSTRUCTIONS:\n"
    + "            - Only include findings explicitly stated in the text\n"
    + "            - Focus on quantitative results when available\n"
    + "            - Avoid methodology or background information\n"
    + "            - Maximum 5 findings\n"
    + "            \n"
    + "            TEXT: "

  // prompts/__init__.py lines 215-228, the text before `{text}`
  const V3MethodologyHead :=
      "\n"
    + "            Extract methodology information in this structured format:\n"
    + "            \n"
    + "            STUDY DESIGN: [Type of study]\n"
    + "            PARTICIPANTS/SAMPLE: [Who/what was studied]\n"
    + "            DATA COLLECTION: [How data was gathered]\n"
    + "            ANALYSIS METHODS: [Statistical/analytical approaches]\n"
    + "            CONTROLS: [What was controlled for]\n"
    + "            \n"
    + "            Only include information explicitly mentioned in the text.\n"
    + "            If a section is not mentioned, write \"Not specified in excerpt\"\n"
    + "            \n"
    + "            TEXT: "

  // prompts/__init__.py lines 230-248, the text before `{text}`
  const V3ContributionsHead :=
      "\n"
    + "            List contributions using this format:\n"
    + "            \n"
    + "            CONTRIBUTION 1: [Brief title]\n"
    + "            Description: [What was contributed]\n"
    + "            Impact: [How it advances the field]\n"
    + "            \n"
    + "            CONTRIBUTION 2: [Brief title]\n"
    + "            Description: [What was contributed]\n"
    + "            Impact: [How it advances the field]\n"
    + "            \n"
    + "            REQUIREMENTS:\n"
    + "            - Focus on novel contributions only\n"
    + "            - Base on explicit claims in the text\n"
    + "            - Maximum 4 contributions\n"
    + "            - Avoid restating existing knowledge\n"
    + "            \n"
    + "            TEXT: "

  // prompts/__init__.py lines 250-269, the text before `{text}`
  const V3LimitationsHead :=
      "\n"
    + "            Extract limitations in this format:\n"
    + "            \n"
    + "            AUTHOR-ACKNOWLEDGED LIMITATIONS:\n"
    + "            \U{2022} [Limitation 1 as stated by authors]\n"
    + "            \U{2022} [Limitation 2 as stated by authors]\n"
    + "            \n"
    + "            METHODOLOGICAL CONSTRAINTS:\n"
    + "            \U{2022} [Constraint 1 from the methodology]\n"
    + "            \U{2022} [Constraint 2 from the methodology]\n"
    + "            \n"
    + "            FUTURE WORK SUGGESTIONS:\n"
    + "            \U{2022} [Suggestion 1 for future research]\n"
    + "            \U{2022} [Suggestion 2 for future research]\n"
    + "            \n"
    + "            Only include items explicitly mentioned in the text.\n"
    + "            If a category has no items, write \"None mentioned in excerpt\"\n"
    + "            \n"
    + "            TEXT: "

  // prompts/__init__.py line 275
  const ExperimentalSystem :=
      "You are an AI research assistant. Provide detailed analysis with confidence scores."

  // prompts/__init__.py lines 277-290, the text before `{text}`
  const ExperimentalSummaryHead :=
      "\n"
    + "            [EXPERIMENTAL PROMPT - Chain of Thought]\n"
    + "            \n"
    + "            Let me analyze this paper step by step:\n"
    + "            \n"
    + "            Step 1: Identify the core research question\n"
    + "            Step 2: Understand the methodology \n"
    + "            Step 3: Extract key results\n"
    + "            Step 4: Assess significance\n"
    + "            \n"
    + "            Now provide a comprehensive summary addressing each step:\n"
    + "            \n"
    + "            Text: "

  // prompts/__init__.py lines 292-304, the text before `{text}`
  const ExperimentalKeyFindingsHead :=
      "\n"
    + "            [EXPERIMENTAL PROMPT - Confidence Scoring]\n"
    + "            \n"
    + "            Extract findings and rate your confidence in each extraction:\n"
    + "            \n"
    + "            For each finding, provide:\n"
    + "            - Finding: [What was found]\n"
    + "            - Confidence: [High/Medium/Low]\n"
    + "            - Evidence strength: [Strong/Moderate/Weak]\n"
    + "            - Quote: [Relevant text excerpt if available]\n"
    + "            \n"
    + "            Text: "

  /** A system message: literal text, no field. */
  function Plain(text: string): seq<Piece>
  {
    [Literal(text)]
  }

  /** An analysis template: literal text, the field `{text}`, `TemplateEnd`. */
  function WithText(head: string): seq<Piece>
  {
    [Literal(head), Field("text"), Literal(TemplateEnd)]
  }

  /** Task name to parsed template, for one version. */
  type PieceSet = map<string, seq<Piece>>

  /** Task name to template string, for one version. */
  type TemplateSet = map<string, string>

  /** `_get_v1_templates`: basic templates. */
  function V1Pieces(): PieceSet
  {
    map[
      "system" := Plain(V1System),
      "summary" := WithText(V1SummaryHead),
      "key_findings" := WithText(V1KeyFindingsHead),
      "methodology" := WithText(V1MethodologyHead),
      "contributions" := WithText(V1ContributionsHead),
      "limitations" := WithText(V1LimitationsHead)
    ]
  }

  /** `_get_v2_templates`: detailed templates. */
  function V2Pieces(): PieceSet
  {
    map[
      "system" := Plain(V2System),
      "summary" := WithText(V2SummaryHead),
      "key_findings" := WithText(V2KeyFindingsHead),
      "methodology" := WithText(V2MethodologyHead),
      "contributions" := WithText(V2ContributionsHead),
      "limitations" := WithText(V2LimitationsHead)
    ]
  }

  /** `_get_v3_templates`: templates that fix the output format. */
  function V3Pieces(): PieceSet
  {
    map[
      "system" := Plain(V3System),
      "summary" := WithText(V3SummaryHead),
      "key_findings" := WithText(V3KeyFindingsHead),
      "methodology" := WithText(V3MethodologyHead),
      "contributions" := WithText(V3ContributionsHead),
      "limitations" := WithText(V3LimitationsHead)
    ]
  }

  /** `_get_experimental_templates`: only the system message, summary and key findings. */
  function ExperimentalPieces(): PieceSet
  {
    map[
      "system" := Plain(ExperimentalSystem),
      "summary" := WithText(ExperimentalSummaryHead),
      "key_findings" := WithText(ExperimentalKeyFindingsHead)
    ]
  }

  /** One version's templates in parsed form. */
  function PiecesOf(v: PromptVersion): PieceSet
  {
    match v
    case V1Basic => V1Pieces()
    case V2Detailed => V2Pieces()
    case V3Structured => V3Pieces()
    case Experimental => ExperimentalPieces()
  }

  /** One version's template strings, as its `_get_*_templates` returns them. */
  function TemplatesOf(v: PromptVersion): TemplateSet
  {
    var ps := PiecesOf(v);
    map task | task in ps :: Render(ps[task])
  }

  /** Version value to template set. */
  type Registry = map<string, TemplateSet>

  /** The values of the four versions. */
  const VersionValues: set<string> := {"v1_basic", "v2_detailed", "v3_structured", "experimental"}

  /** `_load_templates`: one entry per version, keyed by its value. */
  function LoadTemplates(): Registry
  {
    map key | key in VersionValues && VersionOf(key).Some? :: TemplatesOf(VersionOf(key).value)
  }

  /** Why `PromptTemplates.get_prompt` raises. */
  datatype PromptError =
    | UnknownVersion(value: string)   // KeyError: the instance has no set for its version
    | NoTemplate(task: string)        // ValueError: No template found for task
    | BadFormat(error: FormatError)   // raised by `template.format(**kwargs)`

  /** A `PromptTemplates` instance: its version and its registry, both fixed once built. */
  datatype PromptTemplates = PromptTemplates(version: PromptVersion, templates: Registry) {

    /** `get_prompt(task, **kwargs)`: look the task up in this version's set, refuse a
        missing or empty template, then format it with the keyword arguments. */
    function GetPrompt(task: string, kwargs: Params): Result<string, PromptError>
    {
      if version.Value() !in templates then Failure(UnknownVersion(version.Value()))
      else
        var ts := templates[version.Value()];
        if task !in ts || ts[task] == "" then Failure(NoTemplate(task))
        else
          match Format(ts[task], kwargs)
          case Success(s) => Success(s)
          case Failure(e) => Failure(BadFormat(e))
    }
  }

  /** `PromptTemplates(version)`. */
  function NewPromptTemplates(version: PromptVersion): (p: PromptTemplates)
    ensures p.version == version && p.templates == LoadTemplates()
  {
    PromptTemplates(version, LoadTemplates())
  }

  /** What a prompt of the built-in registry is, from the parsed templates: the task's
      fields filled in from the keyword arguments. */
  function Resolve(v: PromptVersion, task: string, kwargs: Params): Result<string, PromptError>
  {
    if task !in PiecesOf(v) then Failure(NoTemplate(task))
    else
      match Substitute(PiecesOf(v)[task], kwargs)
      case Success(s) => Success(s)
      case Failure(e) => Failure(BadFormat(e))
  }

  /** The registry has exactly one entry per version, keyed by its value. */
  lemma RegistryKeys()
    ensures |LoadTemplates()| == |Versions| == 4
  {
    assert VersionOf("v1_basic").Some? && VersionOf("v2_detailed").Some?;
    assert VersionOf("v3_structured").Some? && VersionOf("experimental").Some?;
    assert LoadTemplates().Keys == VersionValues;
  }

  /** The registry's keys are exactly the version values. */
  lemma RegistryKeyIsVersion(key: string)
    ensures key in LoadTemplates() <==> VersionOf(key).Some?
  {
    if VersionOf(key).Some? {
      assert VersionOf(key).value.Value() in VersionValues;
    }
  }

  /** The entry for a version is that version's template set. */
  lemma RegistryEntry(v: PromptVersion)
    ensures v.Value() in LoadTemplates() && LoadTemplates()[v.Value()] == TemplatesOf(v)
  {
    VersionOfValue(v);
    assert v.Value() in VersionValues;
  }

  /** The five analysis tasks. */
  const AnalysisTasks: set<string> := {"summary", "key_findings", "methodology", "contributions", "limitations"}

  /** V1, V2 and V3 define the system message and all five analysis tasks; the
      experimental set only the system message, summary and key findings. */
  lemma TaskSets(v: PromptVersion)
    ensures TemplatesOf(v).Keys
         == if v == Experimental then {"system", "summary", "key_findings"} else {"system"} + AnalysisTasks
  {
  }

  /** The two shapes of a built-in template: a system message is one non-empty
      literal and no field; an analysis template is a literal, the field `{text}`
      and `TemplateEnd`. */
  predicate Shaped(task: string, ps: seq<Piece>)
  {
    if task == "system" then |ps| == 1 && ps[0].Literal? && ps[0].text != ""
    else |ps| == 3 && ps[0].Literal? && ps == WithText(ps[0].text)
  }

  /** Every built-in template has the shape its task calls for. */
  lemma TemplateShapes(v: PromptVersion, task: string)
    requires task in PiecesOf(v)
    ensures Shaped(task, PiecesOf(v)[task])
  {
  }

  lemma TextIsSimple()
    ensures SimpleName("text")
  {
    assert "text"[0] == 't';
  }

  /** A template of either shape is non-empty and its only field is a keyword field. */
  lemma ShapedSimple(task: string, ps: seq<Piece>)
    requires Shaped(task, ps)
    ensures SimplePieces(ps)
    ensures Render(ps) != ""
  {
    if task == "system" {
      assert Render(ps) == Escape(ps[0].text) + Render(ps[1..]);
    } else {
      WithTextSimple(ps[0].text);
    }
  }

  lemma WithTextSimple(head: string)
    ensures SimplePieces(WithText(head))
    ensures Render(WithText(head)) != ""
  {
    TextIsSimple();
    WithTextRender(head);
  }

  lemma WithTextRender(head: string)
    ensures |Render(WithText(head))| >= 6
  {
    var ps := WithText(head);
    var q := ps[1..];
    assert q[0] == Field("text");
    assert |Render(q)| >= 6;
    assert Render(ps) == Escape(head) + Render(q);
  }

  /** Filling in a template of either shape: the system message needs no argument,
      an analysis template needs `text` and puts it between its literal parts. */
  lemma ShapedSubstitute(task: string, ps: seq<Piece>, kwargs: Params)
    requires Shaped(task, ps)
    ensures Substitute(ps, kwargs)
         == if task == "system" then Success(ps[0].text)
            else if "text" in kwargs then Success(ps[0].text + kwargs["text"] + TemplateEnd)
            else Failure(MissingKey("text"))
  {
    if task == "system" {
      assert ps[0].text + "" == ps[0].text;
    } else if "text" in kwargs {
      var head, t := ps[0].text, kwargs["text"];
      assert ps[1..] == [Field("text"), Literal(TemplateEnd)];
      assert ps[2..] == [Literal(TemplateEnd)];
      assert Substitute(ps[2..], kwargs) == Success(TemplateEnd + "");
      assert TemplateEnd + "" == TemplateEnd;
      assert head + (t + TemplateEnd) == head + t + TemplateEnd;
    } else {
      assert ps[1..] == [Field("text"), Literal(TemplateEnd)];
    }
  }

  /** `PromptTemplates(v).get_prompt(task, **kwargs)` is the parsed template filled in:
      a task the version does not define raises, and formatting the built-in template
      string substitutes exactly its fields. */
  lemma BuiltInPrompt(v: PromptVersion, task: string, kwargs: Params)
    ensures NewPromptTemplates(v).GetPrompt(task, kwargs) == Resolve(v, task, kwargs)
  {
    RegistryEntry(v);
    if task in PiecesOf(v) {
      TemplateShapes(v, task);
      ShapedSimple(task, PiecesOf(v)[task]);
      FormatRender(PiecesOf(v)[task], kwargs);
    }
  }

  /** An analysis task returns its template with the `{text}` field replaced by the
      `text` argument and nothing else changed; without a `text` argument it raises. */
  lemma AnalysisPrompt(v: PromptVersion, task: string, kwargs: Params)
    requires task in PiecesOf(v) && task != "system"
    ensures Shaped(task, PiecesOf(v)[task])
    ensures var head := PiecesOf(v)[task][0].text;
      && TemplatesOf(v)[task] == Render(WithText(head))
      && NewPromptTemplates(v).GetPrompt(task, kwargs)
         == if "text" in kwargs then Success(head + kwargs["text"] + TemplateEnd)
            else Failure(BadFormat(MissingKey("text")))
  {
    var ps := PiecesOf(v)[task];
    BuiltInPrompt(v, task, kwargs);
    TemplateShapes(v, task);
    ShapedSubstitute(task, ps, kwargs);
    assert ps == WithText(ps[0].text);
  }

  /** Each version's system message. */
  function SystemMessage(v: PromptVersion): string
  {
    match v
    case V1Basic => V1System
    case V2Detailed => V2System
    case V3Structured => V3System
    case Experimental => ExperimentalSystem
  }

  lemma SystemPieces(v: PromptVersion)
    ensures "system" in PiecesOf(v) && PiecesOf(v)["system"] == Plain(SystemMessage(v))
  {
  }

  /** The system message has no field: it is returned as written, whatever the
      keyword arguments. */
  lemma SystemPrompt(v: PromptVersion, kwargs: Params)
    ensures "system" in PiecesOf(v)
    ensures TemplatesOf(v)["system"] == Render(Plain(SystemMessage(v)))
    ensures NewPromptTemplates(v).GetPrompt("system", kwargs) == Success(SystemMessage(v))
  {
    SystemPieces(v);
    var ps := PiecesOf(v)["system"];
    BuiltInPrompt(v, "system", kwargs);
    TemplateShapes(v, "system");
    ShapedSubstitute("system", ps, kwargs);
  }

  /** A task the selected version does not define raises "No template found", as the
      three analyses that the experimental set lacks do. */
  lemma MissingTask(v: PromptVersion, task: string, kwargs: Params)
    requires task !in TemplatesOf(v)
    ensures NewPromptTemplates(v).GetPrompt(task, kwargs) == Failure(NoTemplate(task))
  {
    BuiltInPrompt(v, task, kwargs);
  }

  lemma ExperimentalGaps(kwargs: Params)
    ensures forall task :: task in {"methodology", "contributions", "limitations"} ==>
              NewPromptTemplates(Experimental).GetPrompt(task, kwargs) == Failure(NoTemplate(task))
  {
    forall task | task in {"methodology", "contributions", "limitations"}
      ensures NewPromptTemplates(Experimental).GetPrompt(task, kwargs) == Failure(NoTemplate(task))
    {
      assert task !in ExperimentalPieces();
      assert task !in TemplatesOf(Experimental);
      MissingTask(Experimental, task, kwargs);
    }
  }

  /** The module state of prompts/__init__.py: the global `default_prompts`. */
  class PromptGlobals {
    var defaultPrompts: PromptTemplates

    /** `default_prompts` holds the built-in registry. */
    predicate Valid()
      reads this
    {
      defaultPrompts.templates == LoadTemplates()
    }

    /** Module import: `default_prompts = PromptTemplates()`. */
    constructor ()
      ensures Valid() && defaultPrompts.version == DefaultVersion
    {
      defaultPrompts := NewPromptTemplates(DefaultVersion);
    }

    /** Module `get_prompt(task, version, **kwargs)`: a fresh `PromptTemplates(version)`
        when a version is given (every member is truthy), `default_prompts` otherwise. */
    function GetPrompt(task: string, version: Option<PromptVersion>, kwargs: Params): (r: Result<string, PromptError>)
      reads this
      ensures Valid() ==> r == Resolve(version.GetOr(defaultPrompts.version), task, kwargs)
    {
      BuiltInPrompt(version.GetOr(defaultPrompts.version), task, kwargs);
      match version
      case Some(v) => NewPromptTemplates(v).GetPrompt(task, kwargs)
      case None => defaultPrompts.GetPrompt(task, kwargs)
    }

    /** `set_default_version(version)`: later calls without a version use `version`;
        calls that name a version are unaffected. */
    method SetDefaultVersion(version: PromptVersion)
      modifies this
      ensures Valid() && defaultPrompts == NewPromptTemplates(version)
      ensures forall task, kwargs :: GetPrompt(task, None, kwargs) == Resolve(version, task, kwargs)
      ensures forall task, v, kwargs :: GetPrompt(task, Some(v), kwargs) == old(GetPrompt(task, Some(v), kwargs))
    {
      defaultPrompts := NewPromptTemplates(version);
    }
  }
}

/** `AnalysisFormatter` of summarizers/__init__.py: the plain-text and Markdown
    renderings of an analysis record. Each builds a list of lines, section by section
    in a fixed order, and joins it with line breaks. The generation time is a
    parameter. */
module Summarizers {
  import opened Wrappers
  import opened Text

  /** A section value that may be a list: a list is rendered item by item, anything
      else as it is. */
  datatype SectionValue = Plain(text: string) | Items(items: seq<string>)

  /** `analysis['metadata']`: `num_pages` as `str` renders it, when the key is there,
      and the pairs of `metadata['metadata']` in mapping order (none when it is
      missing, empty or otherwise false). */
  datatype DocumentMetadata = DocumentMetadata(numPages: Option<string>, info: seq<(string, string)>)

  /** The analysis dict: each key present or absent. */
  datatype Analysis = Analysis(
    metadata: Option<DocumentMetadata>,
    summary: Option<string>,
    keyFindings: Option<SectionValue>,
    methodology: Option<string>,
    contributions: Option<SectionValue>,
    limitations: Option<SectionValue>)

  /** What `format_analysis` returns: the JSON document (not modelled), or the
      rendered text. */
  datatype Formatted = JsonDocument(analysis: Analysis) | Rendered(text: string)

  /** Ten equals signs. */
  const TenEquals: string := "=========="

  /** `"=" * 60`. */
  const Rule: string := TenEquals + TenEquals + TenEquals + TenEquals + TenEquals + TenEquals

  /** `"-" * 20`. */
  const Underline: string := "--------------------"

  /** The rule is sixty equals signs and the underline twenty hyphens. */
  lemma RuleShape()
    ensures |Rule| == 60 && forall i :: 0 <= i < 60 ==> Rule[i] == '='
    ensures |Underline| == 20 && forall i :: 0 <= i < 20 ==> Underline[i] == '-'
  {
    assert forall i :: 0 <= i < 10 ==> TenEquals[i] == '=';
  }

  /** `"{i}. {item}"` for each item, `i` counting from `start`. */
  function NumberedFrom(items: seq<string>, start: nat): (lines: seq<string>)
    ensures |lines| == |items|
    ensures forall i :: 0 <= i < |items| ==> lines[i] == NatToString(start + i) + ". " + items[i]
    decreases |items|
  {
    if items == [] then [] else [NatToString(start) + ". " + items[0]] + NumberedFrom(items[1..], start + 1)
  }

  /** `"- {item}"` for each item. */
  function Dashed(items: seq<string>): (lines: seq<string>)
    ensures |lines| == |items|
    ensures forall i :: 0 <= i < |items| ==> lines[i] == "- " + items[i]
  {
    if items == [] then [] else ["- " + items[0]] + Dashed(items[1..])
  }

  /** The body of a section in plain text: numbered items, or the value as it is. */
  function TextBody(v: SectionValue): seq<string>
  {
    match v
    case Items(items) => NumberedFrom(items, 1)
    case Plain(text) => [text]
  }

  /** The body of a section in Markdown: dashed items, or the value as it is. */
  function MarkdownBody(v: SectionValue): seq<string>
  {
    match v
    case Items(items) => Dashed(items)
    case Plain(text) => [text]
  }

  /** A plain-text section: its title, the underline, its body and an empty line;
      nothing at all when the key is absent. */
  function TextSection(title: string, v: Option<SectionValue>): (lines: seq<string>)
    ensures v.None? <==> lines == []
    ensures v.Some? ==> lines == [title, Underline] + TextBody(v.value) + [""]
  {
    match v
    case None => []
    case Some(value) => [title, Underline] + TextBody(value) + [""]
  }

  /** A Markdown section: its heading, its body and an empty line; nothing at all when
      the key is absent. */
  function MarkdownSection(heading: string, v: Option<SectionValue>): (lines: seq<string>)
    ensures v.None? <==> lines == []
    ensures v.Some? ==> lines == [heading] + MarkdownBody(v.value) + [""]
  {
    match v
    case None => []
    case Some(value) => [heading] + MarkdownBody(value) + [""]
  }

  function PlainValue(s: Option<string>): Option<SectionValue>
  {
    match s
    case None => None
    case Some(text) => Some(Plain(text))
  }

  /** `metadata.get('num_pages', 'Unknown')`. */
  function Pages(m: DocumentMetadata): string
  {
    m.numPages.GetOr("Unknown")
  }

  /** The metadata pairs, `"{key}: {value}"` each, in order. */
  function TextPairs(info: seq<(string, string)>): (lines: seq<string>)
    ensures |lines| == |info|
    ensures forall i :: 0 <= i < |info| ==> lines[i] == info[i].0 + ": " + info[i].1
  {
    if info == [] then [] else [info[0].0 + ": " + info[0].1] + TextPairs(info[1..])
  }

  /** The metadata pairs, `"- **{key}:** {value}"` each, in order. */
  function MarkdownPairs(info: seq<(string, string)>): (lines: seq<string>)
    ensures |lines| == |info|
    ensures forall i :: 0 <= i < |info| ==> lines[i] == "- **" + info[i].0 + ":** " + info[i].1
  {
    if info == [] then [] else ["- **" + info[0].0 + ":** " + info[0].1] + MarkdownPairs(info[1..])
  }

  /** The plain-text metadata section. */
  function TextMetadata(m: Option<DocumentMetadata>): seq<string>
  {
    match m
    case None => []
    case Some(md) => ["DOCUMENT METADATA:", Underline, "Pages: " + Pages(md)] + TextPairs(md.info) + [""]
  }

  /** The Markdown metadata section. */
  function MarkdownMetadata(m: Option<DocumentMetadata>): seq<string>
  {
    match m
    case None => []
    case Some(md) => ["## Document Metadata", "- **Pages:** " + Pages(md)] + MarkdownPairs(md.info) + [""]
  }

  /** The plain-text banner: a rule, the title, a rule, the generation time and an
      empty line. */
  function TextBanner(generated: string): seq<string>
  {
    [Rule, "LITERATURE REVIEW ANALYSIS", Rule, "Generated: " + generated, ""]
  }

  /** The Markdown banner: the title heading, the generation time in italics and an
      empty line. */
  function MarkdownBanner(generated: string): seq<string>
  {
    ["# Literature Review Analysis", "*Generated: " + generated + "*", ""]
  }

  /** The lines of `_format_text`: the banner, then the sections that are present, in
      the order metadata, summary, key findings, methodology, contributions,
      limitations. */
  function TextLines(a: Analysis, generated: string): seq<string>
  {
    TextBanner(generated)
    + TextMetadata(a.metadata)
    + TextSection("SUMMARY:", PlainValue(a.summary))
    + TextSection("KEY FINDINGS:", a.keyFindings)
    + TextSection("METHODOLOGY:", PlainValue(a.methodology))
    + TextSection("MAIN CONTRIBUTIONS:", a.contributions)
    + TextSection("LIMITATIONS & FUTURE WORK:", a.limitations)
  }

  /** The lines of `_format_markdown`, in the same section order. */
  function MarkdownLines(a: Analysis, generated: string): seq<string>
  {
    MarkdownBanner(generated)
    + MarkdownMetadata(a.metadata)
    + MarkdownSection("## Summary", PlainValue(a.summary))
    + MarkdownSection("## Key Findings", a.keyFindings)
    + MarkdownSection("## Methodology", PlainValue(a.methodology))
    + MarkdownSection("## Main Contributions", a.contributions)
    + MarkdownSection("## Limitations & Future Work", a.limitations)
  }


  /** The number of keys of the analysis that have a section of their own. */
  function PresentSections(a: Analysis): (n: nat)
    ensures n <= 6
  {
    (if a.metadata.Some? then 1 else 0) + (if a.summary.Some? then 1 else 0)
    + (if a.keyFindings.Some? then 1 else 0) + (if a.methodology.Some? then 1 else 0)
    + (if a.contributions.Some? then 1 else 0) + (if a.limitations.Some? then 1 else 0)
  }

  /** A section has one more line in plain text (the underline) than in Markdown. */
  lemma SectionCounts(title: string, heading: string, v: Option<SectionValue>)
    ensures |TextSection(title, v)| == |MarkdownSection(heading, v)| + (if v.Some? then 1 else 0)
  {
    if v.Some? {
      match v.value
      case Items(items) =>
      case Plain(text) =>
    }
  }

  /** Both renderings show the same sections with the same number of body lines: the
      plain text has two more banner lines and one more line (the underline) per
      section present. */
  lemma LineCounts(a: Analysis, generated: string)
    ensures |TextLines(a, generated)| == |MarkdownLines(a, generated)| + 2 + PresentSections(a)
  {
    SectionCounts("SUMMARY:", "## Summary", PlainValue(a.summary));
    SectionCounts("KEY FINDINGS:", "## Key Findings", a.keyFindings);
    SectionCounts("METHODOLOGY:", "## Methodology", PlainValue(a.methodology));
    SectionCounts("MAIN CONTRIBUTIONS:", "## Main Contributions", a.contributions);
    SectionCounts("LIMITATIONS & FUTURE WORK:", "## Limitations & Future Work", a.limitations);
  }

  /** Whatever the analysis holds, the plain text opens with its banner, and is the
      banner alone exactly when no key is present. */
  lemma TextBannerFirst(a: Analysis, generated: string)
    ensures StartsWith(Join("\n", TextLines(a, generated)), Join("\n", TextBanner(generated)))
    ensures PresentSections(a) == 0 <==> TextLines(a, generated) == TextBanner(generated)
  {
    var t := TextLines(a, generated);
    var tb := TextBanner(generated);
    assert t[..5] == tb;
    assert t == tb + t[5..];
    JoinPrefix("\n", tb, t[5..]);
    LineCounts(a, generated);
  }

  /** The same for the Markdown. */
  lemma MarkdownBannerFirst(a: Analysis, generated: string)
    ensures StartsWith(Join("\n", MarkdownLines(a, generated)), Join("\n", MarkdownBanner(generated)))
    ensures PresentSections(a) == 0 <==> MarkdownLines(a, generated) == MarkdownBanner(generated)
  {
    var m := MarkdownLines(a, generated);
    var mb := MarkdownBanner(generated);
    assert m[..3] == mb;
    assert m == mb + m[3..];
    JoinPrefix("\n", mb, m[3..]);
    LineCounts(a, generated);
  }

  /** The lines before a break lead the joined text. */
  lemma {:induction false} JoinPrefix(sep: string, p: seq<string>, q: seq<string>)
    requires p != []
    ensures q == [] ==> Join(sep, p + q) == Join(sep, p)
    ensures q != [] ==> Join(sep, p + q) == Join(sep, p) + sep + Join(sep, q)
    ensures StartsWith(Join(sep, p + q), Join(sep, p))
    decreases |p|
  {
    if q == [] {
      assert p + q == p;
    } else if |p| == 1 {
      assert (p + q)[1..] == q;
    } else {
      assert (p + q)[1..] == p[1..] + q;
      JoinPrefix(sep, p[1..], q);
    }
  }

  /** A metadata block without `num_pages` shows the pages as "Unknown", and its
      key-value lines appear exactly when the inner mapping has entries. */
  lemma MetadataBlock(md: DocumentMetadata)
    ensures md.numPages.None? ==>
              TextMetadata(Some(md))[2] == "Pages: Unknown" && MarkdownMetadata(Some(md))[1] == "- **Pages:** Unknown"
    ensures md.numPages.Some? ==> TextMetadata(Some(md))[2] == "Pages: " + md.numPages.value
    ensures |TextMetadata(Some(md))| == 4 + |md.info| && |MarkdownMetadata(Some(md))| == 3 + |md.info|
    ensures md.info == [] <==> |TextMetadata(Some(md))| == 4
  {
    var t := ["DOCUMENT METADATA:", Underline, "Pages: " + Pages(md)];
    var m := ["## Document Metadata", "- **Pages:** " + Pages(md)];
    assert TextMetadata(Some(md)) == t + (TextPairs(md.info) + [""]);
    assert MarkdownMetadata(Some(md)) == m + (MarkdownPairs(md.info) + [""]);
  }

  /** A line holds no line break. */
  predicate SingleLine(s: string)
  {
    '\n' !in s
  }

  predicate AllSingleLines(lines: seq<string>)
  {
    forall i :: 0 <= i < |lines| ==> SingleLine(lines[i])
  }

  predicate ValueSingleLine(v: Option<SectionValue>)
  {
    match v
    case None => true
    case Some(Plain(text)) => SingleLine(text)
    case Some(Items(items)) => AllSingleLines(items)
  }

  predicate MetadataSingleLine(m: Option<DocumentMetadata>)
  {
    match m
    case None => true
    case Some(md) =>
      (md.numPages.Some? ==> SingleLine(md.numPages.value))
      && forall i :: 0 <= i < |md.info| ==> SingleLine(md.info[i].0) && SingleLine(md.info[i].1)
  }

  /** No value of the analysis holds a line break. */
  predicate AnalysisSingleLine(a: Analysis)
  {
    MetadataSingleLine(a.metadata)
    && ValueSingleLine(PlainValue(a.summary)) && ValueSingleLine(a.keyFindings)
    && ValueSingleLine(PlainValue(a.methodology)) && ValueSingleLine(a.contributions)
    && ValueSingleLine(a.limitations)
  }

  lemma NumberSingleLine(n: nat)
    ensures SingleLine(NatToString(n))
  {
  }

  lemma SectionSingleLines(title: string, heading: string, v: Option<SectionValue>)
    requires SingleLine(title) && SingleLine(heading) && ValueSingleLine(v)
    ensures AllSingleLines(TextSection(title, v)) && AllSingleLines(MarkdownSection(heading, v))
  {
    if v.Some? {
      match v.value
      case Plain(text) =>
      case Items(items) =>
        forall i | 0 <= i < |items| ensures SingleLine(NumberedFrom(items, 1)[i]) {
          NumberSingleLine(1 + i);
        }
    }
  }

  lemma MetadataSingleLines(m: Option<DocumentMetadata>)
    requires MetadataSingleLine(m)
    ensures AllSingleLines(TextMetadata(m)) && AllSingleLines(MarkdownMetadata(m))
  {
    if m.Some? {
      var md := m.value;
      forall i | 0 <= i < |md.info|
        ensures SingleLine(TextPairs(md.info)[i]) && SingleLine(MarkdownPairs(md.info)[i])
      {
      }
      assert SingleLine("Pages: " + Pages(md));
      assert SingleLine("- **Pages:** " + Pages(md));
      assert AllSingleLines(["DOCUMENT METADATA:", Underline, "Pages: " + Pages(md)]);
      AppendSingleLines(["DOCUMENT METADATA:", Underline, "Pages: " + Pages(md)], TextPairs(md.info));
      AppendSingleLines(["DOCUMENT METADATA:", Underline, "Pages: " + Pages(md)] + TextPairs(md.info), [""]);
      AppendSingleLines(["## Document Metadata", "- **Pages:** " + Pages(md)], MarkdownPairs(md.info));
      AppendSingleLines(["## Document Metadata", "- **Pages:** " + Pages(md)] + MarkdownPairs(md.info), [""]);
    }
  }

  lemma BannerSingleLines(generated: string)
    requires SingleLine(generated)
    ensures AllSingleLines(TextBanner(generated)) && AllSingleLines(MarkdownBanner(generated))
  {
    assert SingleLine(Rule) && SingleLine(Underline);
    assert SingleLine("Generated: " + generated);
    assert SingleLine("*Generated: " + generated + "*");
  }

  lemma AppendSingleLines(p: seq<string>, q: seq<string>)
    requires AllSingleLines(p) && AllSingleLines(q)
    ensures AllSingleLines(p + q)
  {
  }

  /** Every line either rendering produces is free of line breaks when the analysis
      and the timestamp are. */
  lemma RenderedSingleLines(a: Analysis, generated: string)
    requires AnalysisSingleLine(a) && SingleLine(generated)
    ensures AllSingleLines(TextLines(a, generated)) && AllSingleLines(MarkdownLines(a, generated))
  {
    MetadataSingleLines(a.metadata);
    SectionSingleLines("SUMMARY:", "## Summary", PlainValue(a.summary));
    SectionSingleLines("KEY FINDINGS:", "## Key Findings", a.keyFindings);
    SectionSingleLines("METHODOLOGY:", "## Methodology", PlainValue(a.methodology));
    SectionSingleLines("MAIN CONTRIBUTIONS:", "## Main Contributions", a.contributions);
    SectionSingleLines("LIMITATIONS & FUTURE WORK:", "## Limitations & Future Work", a.limitations);
    BannerSingleLines(generated);
    var t := TextBanner(generated) + TextMetadata(a.metadata);
    AppendSingleLines(TextBanner(generated), TextMetadata(a.metadata));
    AppendSingleLines(t, TextSection("SUMMARY:", PlainValue(a.summary)));
    t := t + TextSection("SUMMARY:", PlainValue(a.summary));
    AppendSingleLines(t, TextSection("KEY FINDINGS:", a.keyFindings));
    t := t + TextSection("KEY FINDINGS:", a.keyFindings);
    AppendSingleLines(t, TextSection("METHODOLOGY:", PlainValue(a.methodology)));
    t := t + TextSection("METHODOLOGY:", PlainValue(a.methodology));
    AppendSingleLines(t, TextSection("MAIN CONTRIBUTIONS:", a.contributions));
    t := t + TextSection("MAIN CONTRIBUTIONS:", a.contributions);
    AppendSingleLines(t, TextSection("LIMITATIONS & FUTURE WORK:", a.limitations));
    var m := MarkdownBanner(generated) + MarkdownMetadata(a.metadata);
    AppendSingleLines(MarkdownBanner(generated), MarkdownMetadata(a.metadata));
    AppendSingleLines(m, MarkdownSection("## Summary", PlainValue(a.summary)));
    m := m + MarkdownSection("## Summary", PlainValue(a.summary));
    AppendSingleLines(m, MarkdownSection("## Key Findings", a.keyFindings));
    m := m + MarkdownSection("## Key Findings", a.keyFindings);
    AppendSingleLines(m, MarkdownSection("## Methodology", PlainValue(a.methodology)));
    m := m + MarkdownSection("## Methodology", PlainValue(a.methodology));
    AppendSingleLines(m, MarkdownSection("## Main Contributions", a.contributions));
    m := m + MarkdownSection("## Main Contributions", a.contributions);
    AppendSingleLines(m, MarkdownSection("## Limitations & Future Work", a.limitations));
  }

  /** The rendered text splits back, at its line breaks, into exactly the lines the
      formatter built, as long as no value holds a line break itself. */
  lemma RoundTrip(a: Analysis, generated: string)
    requires AnalysisSingleLine(a) && SingleLine(generated)
    ensures Split(Join("\n", TextLines(a, generated)), '\n') == TextLines(a, generated)
    ensures Split(Join("\n", MarkdownLines(a, generated)), '\n') == MarkdownLines(a, generated)
  {
    RenderedSingleLines(a, generated);
    assert |TextLines(a, generated)| >= 1 && |MarkdownLines(a, generated)| >= 1;
    SplitJoin(TextLines(a, generated), '\n');
    SplitJoin(MarkdownLines(a, generated), '\n');
  }

  lemma Regroup<T>(p: seq<T>, q: seq<T>, r: seq<T>, s: seq<T>)
    ensures p + q + r + s == p + (q + r + s)
  {
  }

  /** Appends the numbered items, one line each. */
  method AppendNumbered(output: seq<string>, items: seq<string>) returns (out: seq<string>)
    ensures out == output + NumberedFrom(items, 1)
  {
    out := output;
    for i := 0 to |items|
      invariant |out| == |output| + i
      invariant out[..|output|] == output
      invariant forall k :: 0 <= k < i ==> out[|output| + k] == NatToString(k + 1) + ". " + items[k]
    {
      out := out + [NatToString(i + 1) + ". " + items[i]];
    }
  }

  /** Appends the dashed items, one line each. */
  method AppendDashed(output: seq<string>, items: seq<string>) returns (out: seq<string>)
    ensures out == output + Dashed(items)
  {
    out := output;
    for i := 0 to |items|
      invariant |out| == |output| + i
      invariant out[..|output|] == output
      invariant forall k :: 0 <= k < i ==> out[|output| + k] == "- " + items[k]
    {
      out := out + ["- " + items[i]];
    }
  }

  /** Appends one plain-text section, when its key is present. */
  method AppendTextSection(output: seq<string>, title: string, v: Option<SectionValue>) returns (out: seq<string>)
    ensures out == output + TextSection(title, v)
  {
    out := output;
    if v.Some? {
      out := out + [title, Underline];
      match v.value {
        case Items(items) =>
          out := AppendNumbered(out, items);
        case Plain(text) =>
          out := out + [text];
      }
      out := out + [""];
      Regroup(output, [title, Underline], TextBody(v.value), [""]);
    }
  }

  /** Appends one Markdown section, when its key is present. */
  method AppendMarkdownSection(output: seq<string>, heading: string, v: Option<SectionValue>) returns (out: seq<string>)
    ensures out == output + MarkdownSection(heading, v)
  {
    out := output;
    if v.Some? {
      out := out + [heading];
      match v.value {
        case Items(items) =>
          out := AppendDashed(out, items);
        case Plain(text) =>
          out := out + [text];
      }
      out := out + [""];
      Regroup(output, [heading], MarkdownBody(v.value), [""]);
    }
  }

  /** Appends the plain-text metadata section, when the key is present. */
  method AppendTextMetadata(output: seq<string>, m: Option<DocumentMetadata>) returns (out: seq<string>)
    ensures out == output + TextMetadata(m)
  {
    out := output;
    if m.Some? {
      var md := m.value;
      out := out + ["DOCUMENT METADATA:", Underline, "Pages: " + Pages(md)];
      for i := 0 to |md.info|
        invariant |out| == |output| + 3 + i
        invariant out[..|output| + 3] == output + ["DOCUMENT METADATA:", Underline, "Pages: " + Pages(md)]
        invariant forall k :: 0 <= k < i ==> out[|output| + 3 + k] == md.info[k].0 + ": " + md.info[k].1
      {
        out := out + [md.info[i].0 + ": " + md.info[i].1];
      }
      assert out == output + ["DOCUMENT METADATA:", Underline, "Pages: " + Pages(md)] + TextPairs(md.info);
      assert TextMetadata(m) == ["DOCUMENT METADATA:", Underline, "Pages: " + Pages(md)] + TextPairs(md.info) + [""];
      out := out + [""];
      Regroup(output, ["DOCUMENT METADATA:", Underline, "Pages: " + Pages(md)], TextPairs(md.info), [""]);
    }
  }

  /** Appends the Markdown metadata section, when the key is present. */
  method AppendMarkdownMetadata(output: seq<string>, m: Option<DocumentMetadata>) returns (out: seq<string>)
    ensures out == output + MarkdownMetadata(m)
  {
    out := output;
    if m.Some? {
      var md := m.value;
      out := out + ["## Document Metadata", "- **Pages:** " + Pages(md)];
      for i := 0 to |md.info|
        invariant |out| == |output| + 2 + i
        invariant out[..|output| + 2] == output + ["## Document Metadata", "- **Pages:** " + Pages(md)]
        invariant forall k :: 0 <= k < i ==> out[|output| + 2 + k] == "- **" + md.info[k].0 + ":** " + md.info[k].1
      {
        out := out + ["- **" + md.info[i].0 + ":** " + md.info[i].1];
      }
      assert out == output + ["## Document Metadata", "- **Pages:** " + Pages(md)] + MarkdownPairs(md.info);
      assert MarkdownMetadata(m) == ["## Document Metadata", "- **Pages:** " + Pages(md)] + MarkdownPairs(md.info) + [""];
      out := out + [""];
      Regroup(output, ["## Document Metadata", "- **Pages:** " + Pages(md)], MarkdownPairs(md.info), [""]);
    }
  }

  /** `_format_text(analysis)`. */
  method FormatText(a: Analysis, generated: string) returns (s: string)
    ensures s == Join("\n", TextLines(a, generated))
  {
    var output := [Rule, "LITERATURE REVIEW ANALYSIS", Rule, "Generated: " + generated, ""];
    output := AppendTextMetadata(output, a.metadata);
    output := AppendTextSection(output, "SUMMARY:", PlainValue(a.summary));
    output := AppendTextSection(output, "KEY FINDINGS:", a.keyFindings);
    output := AppendTextSection(output, "METHODOLOGY:", PlainValue(a.methodology));
    output := AppendTextSection(output, "MAIN CONTRIBUTIONS:", a.contributions);
    output := AppendTextSection(output, "LIMITATIONS & FUTURE WORK:", a.limitations);
    s := Join("\n", output);
  }

  /** `_format_markdown(analysis)`. */
  method FormatMarkdown(a: Analysis, generated: string) returns (s: string)
    ensures s == Join("\n", MarkdownLines(a, generated))
  {
    var output := ["# Literature Review Analysis", "*Generated: " + generated + "*", ""];
    output := AppendMarkdownMetadata(output, a.metadata);
    output := AppendMarkdownSection(output, "## Summary", PlainValue(a.summary));
    output := AppendMarkdownSection(output, "## Key Findings", a.keyFindings);
    output := AppendMarkdownSection(output, "## Methodology", PlainValue(a.methodology));
    output := AppendMarkdownSection(output, "## Main Contributions", a.contributions);
    output := AppendMarkdownSection(output, "## Limitations & Future Work", a.limitations);
    s := Join("\n", output);
  }

  /** `format_analysis(analysis, output_format)`: JSON for `json`, Markdown for
      `markdown`, in any letter case, and plain text for anything else. */
  method FormatAnalysis(a: Analysis, outputFormat: string, generated: string) returns (r: Formatted)
    ensures Lower(outputFormat) == "json" ==> r == JsonDocument(a)
    ensures Lower(outputFormat) == "markdown" ==> r == Rendered(Join("\n", MarkdownLines(a, generated)))
    ensures Lower(outputFormat) != "json" && Lower(outputFormat) != "markdown" ==>
              r == Rendered(Join("\n", TextLines(a, generated)))
  {
    if Lower(outputFormat) == "json" {
      r := JsonDocument(a);
    } else if Lower(outputFormat) == "markdown" {
      var s := FormatMarkdown(a, generated);
      r := Rendered(s);
    } else {
      var s := FormatText(a, generated);
      r := Rendered(s);
    }
  }
}

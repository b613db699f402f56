/** The writer agent (src/agents/writer.py): citation formatting in the
    three styles and the assembly of the final report from the generated
    text and the references footer. The generated text is the output of a
    model call `write`; `now` is the current time in ISO 8601, `stamp` the
    `%Y-%m-%d %H:%M` rendering of it, and `render` Python's `str` of a
    float. */
module Writer {
  import opened Text
  import opened State
  import Base

  const Name: string := "Writer"

  /** A source dictionary as the writer reads it: only its text fields. */
  type SourceDict = map<string, string>

  /** The text fields of `Source.to_dict`. */
  function SourceFields(s: Source): (d: SourceDict)
    ensures "title" in d && "url" in d && "retrieved_at" in d
    ensures d["title"] == s.title && d["url"] == s.url && d["retrieved_at"] == s.retrievedAt
  {
    map["url" := s.url, "title" := s.title, "content" := s.content, "query" := s.query,
        "provider" := s.provider, "retrieved_at" := s.retrievedAt]
  }

  function SourceDicts(ss: seq<Source>): (r: seq<SourceDict>)
    ensures |r| == |ss|
    ensures forall k :: 0 <= k < |ss| ==> r[k] == SourceFields(ss[k])
  {
    seq(|ss|, k requires 0 <= k < |ss| => SourceFields(ss[k]))
  }

  /** `d.get(key, default)`. */
  function Field(d: SourceDict, key: string, default: string): string {
    if key in d then d[key] else default
  }

  /** The label `[i] ` that opens citation `i`. */
  function Label(i: nat): string { "[" + NatToString(i) + "] " }

  // The three templates, each following the label `[i] `.

  function Apa(title: string, retrieved: string, url: string): (r: string)
    ensures |r| >= |title| + |url| && r[..|title|] == title && r[|r| - |url|..] == url
  {
    title + ". Retrieved " + retrieved + ", from " + url
  }

  function Mla(title: string, retrieved: string, url: string): (r: string)
    ensures |r| >= |title| + |url| + 2 && r[1..|title| + 1] == title && r[|r| - |url| - 1..] == url + ">"
  {
    "\"" + title + ".\" Web. " + retrieved + ". <" + url + ">"
  }

  function Chicago(title: string, retrieved: string, url: string): (r: string)
    ensures |r| >= |title| + |url| + 1 && r[1..|title| + 1] == title && r[|r| - |url|..] == url
  {
    "\"" + title + ",\" accessed " + retrieved + ", " + url
  }

  /** Citation `i` of `d`: a missing title reads "Unknown Title", a missing url
      is empty, and the date is the first ten characters of `retrieved_at`
      (of `now` when it is missing). "apa" and "mla" select their templates;
      every other style falls back to Chicago. */
  function Citation(i: nat, d: SourceDict, style: string, now: string): (r: string)
    ensures var title := Field(d, "title", "Unknown Title");
      var url := Field(d, "url", "");
      var retrieved := Take(Field(d, "retrieved_at", now), 10);
      && (style == "apa" ==> r == Label(i) + Apa(title, retrieved, url))
      && (style == "mla" ==> r == Label(i) + Mla(title, retrieved, url))
      && (style != "apa" && style != "mla" ==> r == Label(i) + Chicago(title, retrieved, url))
  {
    var title := Field(d, "title", "Unknown Title");
    var url := Field(d, "url", "");
    var retrieved := Take(Field(d, "retrieved_at", now), 10);
    var template := if style == "apa" then Apa(title, retrieved, url)
                    else if style == "mla" then Mla(title, retrieved, url)
                    else Chicago(title, retrieved, url);
    Label(i) + template
  }

  /** The citations for `sources`, numbered from 1 in input order. */
  function Citations(sources: seq<SourceDict>, style: string, now: string): (r: seq<string>)
    ensures |r| == |sources|
    ensures forall k :: 0 <= k < |sources| ==> r[k] == Citation(k + 1, sources[k], style, now)
  {
    seq(|sources|, k requires 0 <= k < |sources| => Citation(k + 1, sources[k], style, now))
  }

  /** `_format_citations`. */
  method FormatCitations(sources: seq<SourceDict>, style: string, now: string) returns (r: string)
    ensures r == Join("\n", Citations(sources, style, now))
  {
    var citations := CollectCitations(sources, style, now);
    r := Join("\n", citations);
  }

  /** The loop of `_format_citations`: one citation per source, in order. */
  method CollectCitations(sources: seq<SourceDict>, style: string, now: string) returns (citations: seq<string>)
    ensures citations == Citations(sources, style, now)
  {
    ghost var target := Citations(sources, style, now);
    citations := [];
    for i := 0 to |sources|
      invariant citations == target[..i]
    {
      var citation := FormatCitation(i + 1, sources[i], style, now);
      assert citation == target[i];
      TakeOneMore(target, i);
      citations := citations + [citation];
    }
    TakeAll(target);
  }

  /** The body of the loop of `_format_citations`: citation `i` of `d`. */
  method FormatCitation(i: nat, d: SourceDict, style: string, now: string) returns (citation: string)
    ensures citation == Citation(i, d, style, now)
  {
    var title := Field(d, "title", "Unknown Title");
    var url := Field(d, "url", "");
    var retrieved := Take(Field(d, "retrieved_at", now), 10);
    if style == "apa" {
      citation := Label(i) + Apa(title, retrieved, url);
    } else if style == "mla" {
      citation := Label(i) + Mla(title, retrieved, url);
    } else {
      citation := Label(i) + Chicago(title, retrieved, url);
    }
  }

  /** No field of `d`, and not `now`, contains a line break. */
  predicate SingleLine(d: SourceDict, now: string) {
    && '\n' !in Field(d, "title", "Unknown Title")
    && '\n' !in Field(d, "url", "")
    && '\n' !in Field(d, "retrieved_at", now)
  }

  lemma LabelSingleLine(i: nat)
    ensures '\n' !in Label(i)
  {
    var n := NatToString(i);
    assert forall k :: 0 <= k < |n| ==> n[k] != '\n';
  }

  lemma CitationSingleLine(i: nat, d: SourceDict, style: string, now: string)
    requires SingleLine(d, now)
    ensures '\n' !in Citation(i, d, style, now)
  {
    LabelSingleLine(i);
    var title := Field(d, "title", "Unknown Title");
    var url := Field(d, "url", "");
    var date := Field(d, "retrieved_at", now);
    var retrieved := Take(date, 10);
    assert forall c :: c in retrieved ==> c in date;
    var template := if style == "apa" then Apa(title, retrieved, url)
                    else if style == "mla" then Mla(title, retrieved, url)
                    else Chicago(title, retrieved, url);
    LayoutsSingleLine(title, retrieved, url);
    assert Citation(i, d, style, now) == Label(i) + template;
  }

  lemma LayoutsSingleLine(title: string, retrieved: string, url: string)
    requires '\n' !in title && '\n' !in retrieved && '\n' !in url
    ensures '\n' !in Apa(title, retrieved, url)
    ensures '\n' !in Mla(title, retrieved, url)
    ensures '\n' !in Chicago(title, retrieved, url)
  {
  }

  /** The formatted citations read back line by line as one citation per
      source, the k-th labelled `[k+1]`; with no sources the text is empty. */
  lemma CitationLines(sources: seq<SourceDict>, style: string, now: string)
    requires forall k :: 0 <= k < |sources| ==> SingleLine(sources[k], now)
    ensures sources == [] ==> Join("\n", Citations(sources, style, now)) == ""
    ensures sources != [] ==>
      var lines := SplitOn(Join("\n", Citations(sources, style, now)), '\n');
      && |lines| == |sources|
      && forall k :: 0 <= k < |lines| ==>
           lines[k] == Citation(k + 1, sources[k], style, now)
           && lines[k][..|Label(k + 1)|] == Label(k + 1)
  {
    if sources != [] {
      var cs := Citations(sources, style, now);
      forall k | 0 <= k < |cs|
        ensures '\n' !in cs[k]
      {
        CitationSingleLine(k + 1, sources[k], style, now);
      }
      SplitJoin(cs, '\n');
    }
  }

  /** The quality block of the prompt: present exactly when a report exists. */
  function QualityContext(q: Option<QualityReport>, render: real -> string): (ctx: string)
    ensures ctx == "" <==> q.None?
  {
    match q
    case None => ""
    case Some(r) =>
      "\nResearch Quality Assessment:\n- Overall Score: " + render(r.overallScore)
      + "/10\n- Completeness: " + render(r.completeness)
      + "/10\n- Source Diversity: " + render(r.sourceDiversity) + "/10\n"
  }

  function Prompt(topic: string, qualityContext: string, researchData: seq<string>): string {
    "Write a comprehensive research report on: \"" + topic + "\"\n\n" + qualityContext
    + "\n\nResearch Data:\n" + Join("\n\n---\n\n", researchData)
    + "\n\nGenerate a thorough, well-organized markdown report."
  }

  function Footer(citations: string, stamp: string, score: string): string {
    "\n\n---\n\n## References\n\n" + citations + "\n\n---\n\n*Report generated on " + stamp
    + "*\n*Research quality score: " + score + "/10*\n"
  }

  /** `WriterAgent.run`. The footer reads the stored report's overall score,
      so a state without a quality report makes the source raise; the graph
      only runs the writer after the critic has stored one. */
  method Run(s: AgentState, write: string -> string, style: string, now: string, stamp: string,
             render: real -> string)
    returns (u: Update)
    requires s.qualityReport.Some?
    ensures var report := write(Prompt(s.topic, QualityContext(s.qualityReport, render), s.researchData));
      var cited := SourceDicts(Take(s.sources, 15));
      && u.finalReport == Some(report + Footer(Join("\n", Citations(cited, style, now)), stamp,
                                               render(s.qualityReport.value.overallScore)))
      && u.status == Some(Complete)
      && u.messages == Some([Base.Tag(Name, "Generated report: " + NatToString(|u.finalReport.value|) + " characters"),
                             Base.Tag(Name, "Included " + NatToString(|cited|) + " citations in "
                                            + Upper(style) + " format")])
      && u.plan.None? && u.planApproved.None? && u.sources.None? && u.researchData.None?
      && u.qualityReport.None? && u.revisionNumber.None?
  {
    var context := QualityContext(s.qualityReport, render);
    var report := write(Prompt(s.topic, context, s.researchData));
    var cited := SourceDicts(Take(s.sources, 15));
    var citations := FormatCitations(cited, style, now);
    var finalReport := report + Footer(citations, stamp, render(s.qualityReport.value.overallScore));
    var messages := [Base.Tag(Name, "Generated report: " + NatToString(|finalReport|) + " characters"),
                     Base.Tag(Name, "Included " + NatToString(|cited|) + " citations in " + Upper(style) + " format")];
    u := Update(None, None, None, None, None, Some(finalReport), None, Some(Complete), Some(messages));
  }

  /** The final report starts with the generated text, and its references
      list only the first 15 sources, one line each. */
  lemma ReportShape(s: AgentState, report: string, style: string, now: string, stamp: string, score: string)
    requires forall k :: 0 <= k < |s.sources| ==> SingleLine(SourceFields(s.sources[k]), now)
    ensures var cited := SourceDicts(Take(s.sources, 15));
      var citations := Join("\n", Citations(cited, style, now));
      var final := report + Footer(citations, stamp, score);
      && final[..|report|] == report
      && (s.sources != [] ==> |SplitOn(citations, '\n')| == Min(15, |s.sources|))
  {
    var cited := SourceDicts(Take(s.sources, 15));
    forall k | 0 <= k < |cited|
      ensures SingleLine(cited[k], now)
    {
      assert Take(s.sources, 15)[k] == s.sources[k];
    }
    CitationLines(cited, style, now);
  }
}

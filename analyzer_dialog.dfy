/** The qualification analyser dialog (src/components/AIAnalyzerDialog.tsx): the job-details
    text it builds once, the `handleAnalyze` state transitions, the Analyze-button rule, and
    `renderAnalysis`, which splits the returned markdown into classified sections. */
module AnalyzerDialog {
  import opened Wrappers
  import opened Text
  import AnalyzeRoute

  datatype JobAttributes = JobAttributes(isRemote: bool, jobType: string)

  /** `items.map(item => `- ${item}`).join('\n')`. */
  function Bullets(items: seq<string>): string {
    Join("\n", BulletLines(items))
  }

  function BulletLines(items: seq<string>): (lines: seq<string>)
    ensures |lines| == |items|
    ensures forall k :: 0 <= k < |items| ==> lines[k] == "- " + items[k]
  {
    seq(|items|, k requires 0 <= k < |items| => "- " + items[k])
  }

  /** A list renders as its items in input order, one `- item` line each: splitting the
      block on newlines gives the lines back (when no item holds a newline), and an empty
      list gives an empty block. */
  lemma BulletsLines(items: seq<string>)
    requires forall k :: 0 <= k < |items| ==> "\n"[0] !in items[k]
    ensures items == [] ==> Bullets(items) == ""
    ensures items != [] ==> Split(Bullets(items), "\n") == BulletLines(items)
  {
    if items != [] {
      var lines := BulletLines(items);
      forall k | 0 <= k < |lines| ensures !Contains(lines[k], "\n") {
        assert "\n"[0] !in lines[k];
        NoOccurrenceWithoutLead(lines[k], "\n");
      }
      SplitJoin(lines, "\n");
    }
  }

  /** `'- Remote: ' + (isRemote ? 'Yes' : 'No')`. */
  function RemoteLine(isRemote: bool): (line: string)
    ensures line == "- Remote: Yes" <==> isRemote
    ensures line == "- Remote: No" <==> !isRemote
  {
    "- Remote: " + if isRemote then "Yes" else "No"
  }

  /** The text blocks of the job details, in order. */
  function DetailBlocks(jobTitle: string, attributes: JobAttributes, benefits: seq<string>,
                        aboutRole: seq<string>, whatWeDo: seq<string>, waysToWork: seq<string>): seq<string>
  {
    [ "Job Title: " + jobTitle,
      "Job Attributes:\n" + RemoteLine(attributes.isRemote) + "\n- Type: " + attributes.jobType,
      "Benefits:\n" + Bullets(benefits),
      "About the Role:\n" + Bullets(aboutRole),
      "What We Do:\n" + Bullets(whatWeDo),
      "Ways to Work:\n" + Bullets(waysToWork) ]
  }

  /** The template literal: a leading newline, the blocks with a blank line between each
      two, and a newline and two spaces of indentation before the closing backtick. */
  function DetailsTemplate(jobTitle: string, attributes: JobAttributes, benefits: seq<string>,
                           aboutRole: seq<string>, whatWeDo: seq<string>, waysToWork: seq<string>): string
  {
    "\n" + Join("\n\n", DetailBlocks(jobTitle, attributes, benefits, aboutRole, whatWeDo, waysToWork)) + "\n  "
  }

  /** The job details sent for analysis: the template, trimmed. */
  function JobDetails(jobTitle: string, attributes: JobAttributes, benefits: seq<string>,
                      aboutRole: seq<string>, whatWeDo: seq<string>, waysToWork: seq<string>): string
  {
    Trim(DetailsTemplate(jobTitle, attributes, benefits, aboutRole, whatWeDo, waysToWork))
  }

  lemma TemplateFrameIsWhitespace()
    ensures AllWhitespace("\n") && AllWhitespace("\n  ")
  {
  }

  /** Six blocks joined by blank lines: the first five, then the last. */
  lemma JoinSix(blocks: seq<string>)
    requires |blocks| == 6
    ensures Join("\n\n", blocks) == Join("\n\n", blocks[..5]) + "\n\n" + blocks[5]
    ensures Join("\n\n", blocks[..5]) == blocks[0] + ("\n\n" + Join("\n\n", blocks[1..5]))
  {
    assert blocks == blocks[..5] + [blocks[5]];
    JoinSnoc("\n\n", blocks[..5], blocks[5]);
    assert blocks[..5][1..] == blocks[1..5];
  }

  /** Trimming the framed template keeps a solid first part and trims the end of the rest. */
  lemma TrimTemplate(hm: string, tail: string)
    requires |hm| > 0 && !IsWhitespace(hm[0]) && !IsWhitespace(hm[|hm| - 1])
    ensures Trim("\n" + (hm + tail) + "\n  ") == hm + TrimEnd(tail)
  {
    TrimEndAfterSolid(hm, tail);
    TemplateFrameIsWhitespace();
    assert (hm + tail)[0] == hm[0];
    TrimFramed("\n", hm + tail, "\n  ");
  }

  /** The blocks up to the last heading: they start with the title line and end with the
      heading's colon. */
  lemma HeadingPartShape(title: string, blocks: seq<string>)
    requires |blocks| == 6 && blocks[0] == "Job Title: " + title
    ensures var hm := Join("\n\n", blocks[..5]) + "\n\nWays to Work:";
      |hm| > |"Job Title: " + title| && hm[..|"Job Title: " + title|] == "Job Title: " + title
      && hm[0] == 'J' && hm[|hm| - 1] == ':'
  {
    JoinSix(blocks);
    var hm := Join("\n\n", blocks[..5]) + "\n\nWays to Work:";
    assert hm == blocks[0] + (("\n\n" + Join("\n\n", blocks[1..5])) + "\n\nWays to Work:");
  }

  /** A solid first part followed by a right-trimmed rest neither starts nor ends with
      whitespace, and keeps the first part as its prefix. */
  lemma SolidThenTrimmed(hm: string, tail: string)
    requires |hm| > 0 && !IsWhitespace(hm[0]) && !IsWhitespace(hm[|hm| - 1])
    ensures var d := hm + TrimEnd(tail);
      d[..|hm|] == hm && !IsWhitespace(d[0]) && !IsWhitespace(d[|d| - 1])
  {
    var d := hm + TrimEnd(tail);
    assert d[..|hm|] == hm;
    if TrimEnd(tail) == [] {
      assert d == hm;
    } else {
      assert d[|d| - 1] == TrimEnd(tail)[|TrimEnd(tail)| - 1];
    }
  }

  /** The framed template of any six blocks, the first a title line and the last a heading
      followed by `tail`, trims to the joined blocks with only the end of `tail` trimmed. */
  /** The joined blocks are a solid part, from the title line to the last heading, then the tail. */
  lemma JoinedBlocksSplit(title: string, blocks: seq<string>, tail: string)
    requires |blocks| == 6 && blocks[0] == "Job Title: " + title && blocks[5] == "Ways to Work:" + tail
    ensures var hm := Join("\n\n", blocks[..5]) + "\n\nWays to Work:";
      Join("\n\n", blocks) == hm + tail
      && |hm| > |"Job Title: " + title| && hm[..|"Job Title: " + title|] == "Job Title: " + title
      && !IsWhitespace(hm[0]) && !IsWhitespace(hm[|hm| - 1])
  {
    var hm := Join("\n\n", blocks[..5]) + "\n\nWays to Work:";
    assert Join("\n\n", blocks) == hm + tail by { JoinSix(blocks); }
    assert hm[0] == 'J' && hm[|hm| - 1] == ':' by { HeadingPartShape(title, blocks); }
    HeadingPartShape(title, blocks);
  }

  lemma TrimJoinedBlocks(title: string, blocks: seq<string>, tail: string)
    requires |blocks| == 6 && blocks[0] == "Job Title: " + title && blocks[5] == "Ways to Work:" + tail
    ensures var d := Trim("\n" + Join("\n\n", blocks) + "\n  ");
      d == TrimEnd(Join("\n\n", blocks))
      && d == Join("\n\n", blocks[..5]) + "\n\nWays to Work:" + TrimEnd(tail)
      && |d| > |"Job Title: " + title| && d[..|"Job Title: " + title|] == "Job Title: " + title
      && !IsWhitespace(d[0]) && !IsWhitespace(d[|d| - 1])
  {
    var hm := Join("\n\n", blocks[..5]) + "\n\nWays to Work:";
    var n := |"Job Title: " + title|;
    JoinedBlocksSplit(title, blocks, tail);
    var d := hm + TrimEnd(tail);
    assert Trim("\n" + Join("\n\n", blocks) + "\n  ") == d by { TrimTemplate(hm, tail); }
    assert TrimEnd(Join("\n\n", blocks)) == d by { TrimEndAfterSolid(hm, tail); }
    assert d[..|hm|] == hm && !IsWhitespace(d[0]) && !IsWhitespace(d[|d| - 1]) by {
      SolidThenTrimmed(hm, tail);
    }
    assert d[..n] == d[..|hm|][..n];
  }

  /** The built text is the blocks separated by blank lines with trailing whitespace removed:
      it starts with `Job Title: ` and the title, everything up to the last heading is kept
      verbatim, and it neither starts nor ends with whitespace. */
  lemma JobDetailsShape(jobTitle: string, attributes: JobAttributes, benefits: seq<string>,
                        aboutRole: seq<string>, whatWeDo: seq<string>, waysToWork: seq<string>)
    ensures var d := JobDetails(jobTitle, attributes, benefits, aboutRole, whatWeDo, waysToWork);
      var blocks := DetailBlocks(jobTitle, attributes, benefits, aboutRole, whatWeDo, waysToWork);
      d == TrimEnd(Join("\n\n", blocks))
      && d == Join("\n\n", blocks[..5]) + "\n\nWays to Work:" + TrimEnd("\n" + Bullets(waysToWork))
      && |d| > |"Job Title: " + jobTitle| && d[..|"Job Title: " + jobTitle|] == "Job Title: " + jobTitle
      && !IsWhitespace(d[0]) && !IsWhitespace(d[|d| - 1])
  {
    var blocks := DetailBlocks(jobTitle, attributes, benefits, aboutRole, whatWeDo, waysToWork);
    var tail := "\n" + Bullets(waysToWork);
    assert blocks[5] == "Ways to Work:" + tail;
    TrimJoinedBlocks(jobTitle, blocks, tail);
  }

  /** The details are never empty, so only `loading` and the skills decide the Analyze button. */
  lemma JobDetailsNonEmpty(jobTitle: string, attributes: JobAttributes, benefits: seq<string>,
                           aboutRole: seq<string>, whatWeDo: seq<string>, waysToWork: seq<string>)
    ensures JobDetails(jobTitle, attributes, benefits, aboutRole, whatWeDo, waysToWork) != ""
  {
    JobDetailsShape(jobTitle, attributes, benefits, aboutRole, whatWeDo, waysToWork);
  }

  // ----- renderAnalysis -----

  /** The style a section gets from its heading. */
  datatype Category = Qualification | StrongPoints | WeakPoints | Recommendations | Other

  /** The exact heading text each styled category is selected by; `Other` has none. */
  function CategoryHeading(c: Category): string
    requires c != Other
  {
    match c
    case Qualification => "Overall Qualification"
    case StrongPoints => "Strong Points"
    case WeakPoints => "Weak Points"
    case Recommendations => "Recommendations"
  }

  /** The `switch` on the trimmed heading: an exact, case-sensitive match, gray by default. */
  function Classify(heading: string): (c: Category)
    ensures c != Other ==> Trim(heading) == CategoryHeading(c)
    ensures c == Other <==> forall k: Category :: k != Other ==> Trim(heading) != CategoryHeading(k)
  {
    var h := Trim(heading);
    if h == "Overall Qualification" then Qualification
    else if h == "Strong Points" then StrongPoints
    else if h == "Weak Points" then WeakPoints
    else if h == "Recommendations" then Recommendations
    else Other
  }

  /** The Tailwind classes of each category. */
  function SectionClass(c: Category): string {
    match c
    case Qualification => "bg-blue-50 border-blue-200"
    case StrongPoints => "bg-green-50 border-green-200"
    case WeakPoints => "bg-red-50 border-red-200"
    case Recommendations => "bg-yellow-50 border-yellow-200"
    case Other => "bg-gray-50 border-gray-200"
  }

  /** Every styled heading is recognised, also with whitespace around it (a trailing `\r`,
      say), and selects its own category. */
  lemma {:induction false} ClassifyHeading(c: Category, before: string, after: string)
    requires c != Other && AllWhitespace(before) && AllWhitespace(after)
    ensures Classify(before + CategoryHeading(c) + after) == c
  {
    var h := CategoryHeading(c);
    assert !IsWhitespace(h[0]) && !IsWhitespace(h[|h| - 1]);
    TrimPadded(before, h, after);
  }

  /** The five categories have five different styles. */
  lemma SectionClassInjective(c: Category, d: Category)
    requires SectionClass(c) == SectionClass(d)
    ensures c == d
  {
  }

  /** A heading outside the table, also one that differs only in casing, falls back to gray
      without failing. */
  lemma {:induction false} UnlistedHeadingIsGray(heading: string)
    requires |heading| > 0 && !IsWhitespace(heading[0]) && !IsWhitespace(heading[|heading| - 1])
    requires heading !in ["Overall Qualification", "Strong Points", "Weak Points", "Recommendations"]
    ensures Classify(heading) == Other
    ensures SectionClass(Classify(heading)) == "bg-gray-50 border-gray-200"
  {
    TrimStable(heading);
  }

  lemma LowerCaseHeadingIsGray()
    ensures Classify("strong points") == Other
  {
    var h := "strong points";
    assert h[0] == 's' && h[|h| - 1] == 's';
    assert h != "Strong Points" by { assert h[0] != "Strong Points"[0]; }
    UnlistedHeadingIsGray(h);
  }

  /** One rendered section: the heading line as shown, and the markdown body below it. */
  datatype Section = Section(heading: string, body: string, category: Category)

  /** `const [heading, ...content] = section.split('\n')` with the content joined back by `'\n'`. */
  function ParseSection(chunk: string): (s: Section)
    ensures !Contains(s.heading, "\n")
    ensures Contains(chunk, "\n") ==> chunk == s.heading + "\n" + s.body
    ensures !Contains(chunk, "\n") ==> s.heading == chunk && s.body == ""
    ensures s.category == Classify(s.heading)
  {
    var lines := Split(chunk, "\n");
    SplitHeadRest(chunk, "\n");
    Section(lines[0], Join("\n", lines[1..]), Classify(lines[0]))
  }

  /** A chunk written as a heading line and a body parses back into that heading and body. */
  lemma ParseSectionOf(heading: string, body: string)
    requires !Contains(heading, "\n")
    ensures ParseSection(heading + "\n" + body) == Section(heading, body, Classify(heading))
  {
    FirstOccurrenceAfterFree(heading, "\n", body);
    var chunk := heading + "\n" + body;
    SplitFirst(chunk, "\n");
    assert chunk[..|heading|] == heading;
    assert chunk[|heading| + 1..] == body;
  }

  /** `analysis.split('## ')`: the text before the first heading marker, then one chunk per marker. */
  function Chunks(analysis: string): seq<string> {
    Split(analysis, "## ")
  }

  /** The sections of a non-empty analysis: every chunk after the first, in order. */
  function Sections(analysis: string): (r: seq<Section>)
    ensures |r| == |Chunks(analysis)| - 1
    ensures forall k :: 0 <= k < |r| ==> r[k] == ParseSection(Chunks(analysis)[k + 1])
  {
    var chunks := Chunks(analysis)[1..];
    seq(|chunks|, k requires 0 <= k < |chunks| => ParseSection(chunks[k]))
  }

  /** `renderAnalysis`: nothing for a missing or empty analysis, else its sections. */
  function RenderAnalysis(analysis: Option<string>): (r: Option<seq<Section>>)
    ensures r.None? <==> analysis.None? || analysis.value == ""
    ensures r.Some? ==> r.value == Sections(analysis.value)
  {
    if analysis.None? || analysis.value == "" then None else Some(Sections(analysis.value))
  }

  lemma HeadingMarkerSelfDisjoint()
    ensures SelfDisjoint("## ")
  {
    assert "## "[1..] != "## "[..2] by { assert "## "[1..][1] == ' '; }
    assert "## "[2..] != "## "[..1] by { assert "## "[2..][0] == ' '; }
  }

  /** Nothing is lost by splitting: the preamble, then each chunk after a `## ` marker, give
      back the analysis; the preamble holds no marker, and with no marker there are no sections. */
  lemma ChunksRoundTrip(analysis: string)
    ensures var c := Chunks(analysis);
      (|c| == 1 ==> c[0] == analysis)
      && (|c| > 1 ==> c[0] + "## " + Join("## ", c[1..]) == analysis)
      && !Contains(c[0], "## ")
      && (!Contains(analysis, "## ") <==> Sections(analysis) == [])
  {
    var c := Chunks(analysis);
    SplitFirst(analysis, "## ");
    if |c| > 1 {
      assert c[1..][0] == c[1];
    }
    if IndexOf(analysis, "## ").Some? {
      assert |Sections(analysis)| >= 1;
    }
  }

  /** There is one section per non-overlapping `## ` occurrence, scanning left to right. */
  lemma SectionCount(analysis: string)
    ensures |Sections(analysis)| == CountOccurrences(analysis, "## ")
  {
    SplitCount(analysis, "## ");
  }

  /** The analysis text a reply in the requested format consists of: a preamble and then,
      for each section, `## `, its heading line, a newline and its body. */
  function Compose(preamble: string, sections: seq<(string, string)>): string {
    Join("## ", [preamble] + SectionTexts(sections))
  }

  function SectionTexts(sections: seq<(string, string)>): (texts: seq<string>)
    ensures |texts| == |sections|
    ensures forall k :: 0 <= k < |sections| ==> texts[k] == sections[k].0 + "\n" + sections[k].1
  {
    seq(|sections|, k requires 0 <= k < |sections| => sections[k].0 + "\n" + sections[k].1)
  }

  /** A well-formed reply renders as its sections, in order, each with its own heading, body
      and style, whenever neither the preamble, the headings nor the bodies hold `## `
      and no heading holds a newline. */
  lemma SectionsOfComposed(preamble: string, sections: seq<(string, string)>)
    requires !Contains(preamble, "## ")
    requires forall k :: 0 <= k < |sections| ==>
      !Contains(sections[k].0, "\n") && !Contains(sections[k].0, "## ") && !Contains(sections[k].1, "## ")
    ensures |Sections(Compose(preamble, sections))| == |sections|
    ensures forall k :: 0 <= k < |sections| ==>
      Sections(Compose(preamble, sections))[k] == Section(sections[k].0, sections[k].1, Classify(sections[k].0))
  {
    var texts := SectionTexts(sections);
    var parts := [preamble] + texts;
    forall k | 0 <= k < |parts| ensures !Contains(parts[k], "## ") {
      if k > 0 {
        assert parts[k] == sections[k - 1].0 + ['\n'] + sections[k - 1].1;
        NoOccurrenceAcross(sections[k - 1].0, '\n', sections[k - 1].1, "## ");
      }
    }
    HeadingMarkerSelfDisjoint();
    SplitJoin(parts, "## ");
    forall k | 0 <= k < |sections|
      ensures Sections(Compose(preamble, sections))[k] == Section(sections[k].0, sections[k].1, Classify(sections[k].0))
    {
      assert Chunks(Compose(preamble, sections))[k + 1] == texts[k];
      ParseSectionOf(sections[k].0, sections[k].1);
    }
  }

  lemma ComposeTwo(h0: string, b0: string, h1: string, b1: string)
    ensures Compose("", [(h0, b0), (h1, b1)]) == ("## " + (h0 + "\n" + b0)) + ("## " + (h1 + "\n" + b1))
  {
    var texts := SectionTexts([(h0, b0), (h1, b1)]);
    assert ([""] + texts)[1..] == texts;
    assert texts[1..] == [texts[1]];
    assert Join("## ", texts[1..]) == texts[1];
    assert Join("## ", texts) == texts[0] + "## " + texts[1];
    assert Join("## ", [""] + texts) == "" + "## " + Join("## ", texts);
  }

  lemma TwoSectionsRendered(h0: string, b0: string, h1: string, b1: string)
    requires !Contains(h0, "\n") && !Contains(h0, "## ") && !Contains(b0, "## ")
    requires !Contains(h1, "\n") && !Contains(h1, "## ") && !Contains(b1, "## ")
    ensures RenderAnalysis(Some(("## " + (h0 + "\n" + b0)) + ("## " + (h1 + "\n" + b1))))
      == Some([Section(h0, b0, Classify(h0)), Section(h1, b1, Classify(h1))])
  {
    var secs := [(h0, b0), (h1, b1)];
    var analysis := Compose("", secs);
    ComposeTwo(h0, b0, h1, b1);
    NoOccurrenceWithoutLead("", "## ");
    SectionsOfComposed("", secs);
    var r := Sections(analysis);
    assert r == [Section(h0, b0, Classify(h0)), Section(h1, b1, Classify(h1))];
    assert analysis != [] by { assert |Chunks(analysis)| == 3; }
  }

  lemma ExampleTexts()
    ensures "## " + ("Overall Qualification" + "\n" + "Yes.\n") == "## Overall Qualification\nYes.\n"
    ensures "## " + ("Strong Points" + "\n" + "- A\n") == "## Strong Points\n- A\n"
  {
  }

  lemma HeadingFree(h: string)
    requires '\n' !in h && '#' !in h
    ensures !Contains(h, "\n") && !Contains(h, "## ")
  {
    NoOccurrenceWithoutLead(h, "\n");
    NoOccurrenceWithoutLead(h, "## ");
  }

  lemma ExampleHeadings()
    ensures !Contains("Overall Qualification", "\n") && !Contains("Overall Qualification", "## ")
    ensures !Contains("Strong Points", "\n") && !Contains("Strong Points", "## ")
  {
    HeadingFree("Overall Qualification");
    HeadingFree("Strong Points");
  }

  lemma ExampleBodies()
    ensures !Contains("Yes.\n", "## ") && !Contains("- A\n", "## ")
  {
    NoOccurrenceWithoutLead("Yes.\n", "## ");
    NoOccurrenceWithoutLead("- A\n", "## ");
  }

  lemma ExampleCategories()
    ensures Classify("Overall Qualification") == Qualification && Classify("Strong Points") == StrongPoints
  {
    ClassifyHeading(Qualification, "", "");
    ClassifyHeading(StrongPoints, "", "");
    assert "" + "Overall Qualification" + "" == "Overall Qualification";
    assert "" + "Strong Points" + "" == "Strong Points";
  }

  /** The two-section reply `"## Overall Qualification\nYes.\n## Strong Points\n- A\n"`
      renders as a blue section with body `"Yes.\n"` and a green one with body `"- A\n"`. */
  lemma TwoSectionExample()
    ensures RenderAnalysis(Some("## Overall Qualification\nYes.\n" + "## Strong Points\n- A\n"))
      == Some([Section("Overall Qualification", "Yes.\n", Qualification),
               Section("Strong Points", "- A\n", StrongPoints)])
  {
    ExampleTexts();
    ExampleHeadings();
    ExampleBodies();
    ExampleCategories();
    TwoSectionsRendered("Overall Qualification", "Yes.\n", "Strong Points", "- A\n");
  }

  // ----- the dialog's state -----

  /** What `fetch('/api/analyze')` and `response.json()` came to. */
  datatype FetchOutcome =
    | NetworkFailure
    | HttpError(status: int)
    | BadBody
    | Delivered(analysis: Option<string>)

  const FailureMessage := "Something went wrong. Please try again."

  /** The click's `fetch('/api/analyze', ...)`: a POST of the JSON body
      `{ jobDetails, skills }`, kept as the path and the two fields the route reads. */
  datatype AnalyzeCall = AnalyzeCall(path: string, jobDetails: string, skills: string)

  const AnalyzePath := "/api/analyze"

  /** What the browser gets from the route's response: `response.ok` is a 2xx status,
      and a 200 body carries `analysis`. */
  function Received(r: AnalyzeRoute.Response): (o: FetchOutcome)
    ensures o.Delivered? <==> 200 <= r.status < 300
  {
    if 200 <= r.status < 300 then
      Delivered(if r.body.AnalysisBody? then Some(r.body.analysis) else None)
    else HttpError(r.status)
  }

  /** The analyser panel: the job details fixed when it is created, the skills text box,
      and the analysis, loading and error state. */
  class Analyzer {
    const jobDetails: string
    var skills: string
    var analysis: Option<string>
    var loading: bool
    var error: string

    constructor(jobTitle: string, attributes: JobAttributes, benefits: seq<string>,
                aboutRole: seq<string>, whatWeDo: seq<string>, waysToWork: seq<string>)
      ensures jobDetails == JobDetails(jobTitle, attributes, benefits, aboutRole, whatWeDo, waysToWork)
      ensures skills == "" && analysis == Some("") && !loading && error == ""
    {
      jobDetails := JobDetails(jobTitle, attributes, benefits, aboutRole, whatWeDo, waysToWork);
      skills := "";
      analysis := Some("");
      loading := false;
      error := "";
    }

    /** `disabled={loading || !jobDetails || !skills}`, negated. */
    predicate AnalyzeEnabled()
      reads this
    {
      !loading && jobDetails != "" && skills != ""
    }

    /** The request a click sends now: the fixed job details and the current skills. */
    function PendingCall(): (c: AnalyzeCall)
      reads this
      ensures c.path == AnalyzePath
    {
      AnalyzeCall(AnalyzePath, jobDetails, skills)
    }

    /** While a request is running the button is disabled. */
    lemma LoadingDisablesAnalyze()
      requires loading
      ensures !AnalyzeEnabled()
    {
    }

    /** An enabled button sends what the route accepts: never the 400 answer. */
    lemma EnabledAnalyzeIsAccepted(completion: AnalyzeRoute.CompletionOutcome)
      requires AnalyzeEnabled()
      ensures AnalyzeRoute.Post(Some(PendingCall().jobDetails), Some(PendingCall().skills), completion).response.status != 400
    {
      EnabledRequestIsAccepted(PendingCall().jobDetails, PendingCall().skills, completion);
    }

    /** The text box's `onChange`. */
    method SetSkills(text: string)
      modifies this
      ensures skills == text
      ensures analysis == old(analysis) && loading == old(loading) && error == old(error)
    {
      skills := text;
    }

    /** The synchronous start of `handleAnalyze`. */
    method BeginAnalyze() returns (call: AnalyzeCall)
      modifies this
      ensures loading && error == "" && analysis == Some("")
      ensures skills == old(skills)
      ensures call == AnalyzeCall(AnalyzePath, jobDetails, skills)
    {
      loading := true;
      error := "";
      analysis := Some("");
      call := AnalyzeCall(AnalyzePath, jobDetails, skills);
    }

    /** The end of `handleAnalyze`: the delivered analysis, or the error message for a failed
      request, a non-2xx status or an unreadable body; `loading` is cleared in every case. */
    method CompleteAnalyze(outcome: FetchOutcome)
      modifies this
      ensures !loading
      ensures outcome.Delivered? ==> analysis == outcome.analysis && error == old(error)
      ensures !outcome.Delivered? ==> analysis == old(analysis) && error == FailureMessage
      ensures skills == old(skills)
    {
      if outcome.Delivered? {
        analysis := outcome.analysis;
      } else {
        error := FailureMessage;
      }
      loading := false;
    }

    /** `handleAnalyze` as a whole. */
    method HandleAnalyze(outcome: FetchOutcome) returns (call: AnalyzeCall)
      modifies this
      ensures call == old(PendingCall())
      ensures old(AnalyzeEnabled()) ==> forall completion: AnalyzeRoute.CompletionOutcome ::
        AnalyzeRoute.Post(Some(call.jobDetails), Some(call.skills), completion).response.status != 400
      ensures !loading && skills == old(skills)
      ensures outcome.Delivered? ==> analysis == outcome.analysis && error == ""
      ensures !outcome.Delivered? ==> analysis == Some("") && error == FailureMessage
    {
      if AnalyzeEnabled() {
        forall completion: AnalyzeRoute.CompletionOutcome
          ensures AnalyzeRoute.Post(Some(jobDetails), Some(skills), completion).response.status != 400
        {
          EnabledAnalyzeIsAccepted(completion);
        }
      }
      call := BeginAnalyze();
      CompleteAnalyze(outcome);
    }
  }

  /** The request an enabled button sends is never refused by the route's input check: the
      route calls the model once and answers 200 with its analysis, or 500. */
  lemma EnabledRequestIsAccepted(jobDetails: string, skills: string, completion: AnalyzeRoute.CompletionOutcome)
    requires jobDetails != "" && skills != ""
    ensures var h := AnalyzeRoute.Post(Some(jobDetails), Some(skills), completion);
      h.response.status != 400 && |h.calls| == 1
    ensures var o := Received(AnalyzeRoute.Post(Some(jobDetails), Some(skills), completion).response);
      match completion
      case Failure => o == HttpError(500)
      case Success(content) => o == Delivered(Some(AnalyzeRoute.AnalysisText(content)))
  {
  }
}

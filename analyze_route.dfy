/** The `POST /api/analyze` handler (src/app/api/analyze/route.ts): it validates the two
    request fields, makes one chat-completion call with a fixed two-message conversation,
    and maps the outcome to a 200, 400 or 500 response.

    The completion call is an input: `completion` is what the call would produce if it
    were made. The handler records the conversations it sends in `calls`, so "the
    service was never called" is `calls == []`. */
module AnalyzeRoute {
  import opened Wrappers
  import opened Text

  datatype Role = System | User
  datatype Message = Message(role: Role, content: string)

  /** What the completion call produces: it throws (network failure, non-2xx status,
      malformed reply), or it returns and the first choice's message content is present
      or absent (`completion.choices[0]?.message?.content`). */
  datatype CompletionOutcome = Failure | Success(content: Option<string>)

  /** A JSON body with exactly one of the two fields. */
  datatype Body = AnalysisBody(analysis: string) | ErrorBody(error: string)

  datatype Response = Response(status: int, body: Body)

  /** The response, and every conversation sent to the completion service, in order. */
  datatype Handled = Handled(response: Response, calls: seq<seq<Message>>)

  const CompletionModel := "meta-llama/llama-4-maverick:free"
  const MissingInputError := "Missing job details or skills"
  const UpstreamError := "Failed to generate analysis"
  const NoAnalysisFallback := "No analysis generated"

  /** The four section headings the system message asks for, in the order it asks for them. */
  const RequestedHeadings: seq<string> :=
    ["Overall Qualification", "Strong Points", "Weak Points", "Recommendations"]

  const PromptIntro := "You are a career advisor. Analyze if the candidate is qualified for the job based on "
    + "the provided job details and their skills. Structure your response in markdown with: "
  const FirstNote := " (yes/no/maybe with explanation), "
  const ListNote := " (bullet list), "
  const LastNote := " (bullet list)."

  /** The note that follows each heading. */
  const SectionNotes: seq<string> := [FirstNote, ListNote, ListNote, LastNote]

  /** The system message: the introduction, then the four headings, each as a `## ` heading
      followed by a note on what it should hold. */
  const SystemPrompt: string := PromptIntro + PromptSections(RequestedHeadings, SectionNotes)

  function PromptSection(heading: string, note: string): string {
    "## " + heading + note
  }

  /** The sections for `headings` and their `notes`, one after another. */
  function PromptSections(headings: seq<string>, notes: seq<string>): string
    requires |headings| == |notes|
    decreases |headings|
  {
    if headings == [] then "" else PromptSection(headings[0], notes[0]) + PromptSections(headings[1..], notes[1..])
  }

  function UserContent(jobDetails: string, skills: string): string {
    "Job details: " + jobDetails + "\n\nCandidate skills: " + skills
  }

  /** The user message holds both inputs verbatim, at fixed offsets. */
  lemma UserContentHoldsInputs(jobDetails: string, skills: string)
    ensures var c := UserContent(jobDetails, skills);
      c[..13] == "Job details: "
      && OccursAt(c, jobDetails, 13)
      && OccursAt(c, skills, 13 + |jobDetails| + 20)
      && |c| == 13 + |jobDetails| + 20 + |skills|
  {
    var c := UserContent(jobDetails, skills);
    assert c[13..13 + |jobDetails|] == jobDetails;
    assert c[13 + |jobDetails| + 20..] == skills;
  }

  function Conversation(jobDetails: string, skills: string): seq<Message> {
    [Message(System, SystemPrompt), Message(User, UserContent(jobDetails, skills))]
  }

  /** `completion.choices[0]?.message?.content || 'No analysis generated'`. */
  function AnalysisText(content: Option<string>): (r: string)
    ensures r != ""
    ensures Truthy(content) ==> r == content.value
    ensures !Truthy(content) ==> r == NoAnalysisFallback
  {
    if Truthy(content) then content.value else NoAnalysisFallback
  }

  /** The handler, for a JSON body whose `jobDetails` and `skills` fields are given (or `None`
      when absent or null). */
  function Post(jobDetails: Option<string>, skills: Option<string>, completion: CompletionOutcome): (h: Handled)
    ensures h.response.status == 400 <==> !(Truthy(jobDetails) && Truthy(skills))
    ensures h.response.status == 400 ==> h.calls == [] && h.response.body == ErrorBody(MissingInputError)
    ensures h.response.status != 400 ==>
      h.calls == [Conversation(jobDetails.value, skills.value)]
    ensures h.response.status == 200 <==> h.response.body.AnalysisBody?
    ensures h.response.status in {200, 400, 500}
  {
    if !(Truthy(jobDetails) && Truthy(skills)) then
      Handled(Response(400, ErrorBody(MissingInputError)), [])
    else
      var sent := [Conversation(jobDetails.value, skills.value)];
      match completion
      case Failure => Handled(Response(500, ErrorBody(UpstreamError)), sent)
      case Success(content) => Handled(Response(200, AnalysisBody(AnalysisText(content))), sent)
  }

  /** Only a rejected completion call yields a 500, and then the body is the generic error. */
  lemma UpstreamFailureIs500(jobDetails: Option<string>, skills: Option<string>, completion: CompletionOutcome)
    ensures var r := Post(jobDetails, skills, completion).response;
      r.status == 500 <==> (Truthy(jobDetails) && Truthy(skills) && completion.Failure?)
    ensures var r := Post(jobDetails, skills, completion).response;
      r.status == 500 ==> r.body == ErrorBody(UpstreamError)
  {
  }

  /** A successful call answers 200 with the returned text, or the fallback text when the
      content is absent or empty; the analysis is never empty. */
  lemma SuccessCarriesContent(jobDetails: string, skills: string, content: Option<string>)
    requires jobDetails != "" && skills != ""
    ensures var r := Post(Some(jobDetails), Some(skills), Success(content)).response;
      r.status == 200 && r.body.analysis != ""
      && (r.body.analysis == NoAnalysisFallback <== !Truthy(content))
      && (Truthy(content) ==> r.body.analysis == content.value)
  {
  }

  /** Whitespace-only inputs pass validation: nothing is trimmed. */
  lemma WhitespaceInputsAccepted(completion: CompletionOutcome)
    ensures Post(Some(" "), Some("\n"), completion).response.status != 400
  {
  }

  /** Every call that is made sends the system message first and the user message second,
      with the inputs verbatim. */
  lemma CallShape(jobDetails: Option<string>, skills: Option<string>, completion: CompletionOutcome)
    ensures var h := Post(jobDetails, skills, completion);
      |h.calls| <= 1
      && (|h.calls| == 1 ==>
            |h.calls[0]| == 2 && h.calls[0][0].role == System && h.calls[0][1].role == User
            && h.calls[0][0].content == SystemPrompt
            && h.calls[0][1].content == "Job details: " + jobDetails.value + "\n\nCandidate skills: " + skills.value)
  {
  }

  /** Where the `k`-th section begins within `PromptSections(headings, notes)`. */
  function SectionOffset(headings: seq<string>, notes: seq<string>, k: nat): nat
    requires |headings| == |notes| && k <= |headings|
    decreases k
  {
    if k == 0 then 0 else |PromptSection(headings[0], notes[0])| + SectionOffset(headings[1..], notes[1..], k - 1)
  }

  /** Where each `## ` heading begins in the system message. */
  function HeadingOffset(k: nat): nat
    requires k < 4
  {
    |PromptIntro| + SectionOffset(RequestedHeadings, SectionNotes, k)
  }

  lemma OccursInLeft(p: string, q: string, x: string, j: nat)
    requires OccursAt(p, x, j)
    ensures OccursAt(p + q, x, j)
  {
    assert (p + q)[j..j + |x|] == p[j..j + |x|];
  }

  lemma OccursInRight(p: string, q: string, x: string, j: nat)
    requires OccursAt(q, x, j)
    ensures OccursAt(p + q, x, |p| + j)
  {
    assert (p + q)[|p| + j..|p| + j + |x|] == q[j..j + |x|];
  }

  lemma SectionStartsWithHeading(heading: string, note: string)
    ensures OccursAt(PromptSection(heading, note), "## " + heading, 0)
  {
    assert PromptSection(heading, note)[..|"## " + heading|] == "## " + heading;
  }

  /** Each section's `## ` heading lies at its section's offset, and the next section
      starts strictly after it. */
  lemma {:induction false} HeadingsAtOffsets(headings: seq<string>, notes: seq<string>, k: nat)
    requires |headings| == |notes| && k < |headings|
    ensures OccursAt(PromptSections(headings, notes), "## " + headings[k], SectionOffset(headings, notes, k))
    ensures SectionOffset(headings, notes, k) < SectionOffset(headings, notes, k + 1)
    decreases k
  {
    var s0 := PromptSection(headings[0], notes[0]);
    var rest := PromptSections(headings[1..], notes[1..]);
    if k == 0 {
      SectionStartsWithHeading(headings[0], notes[0]);
      OccursInLeft(s0, rest, "## " + headings[0], 0);
    } else {
      HeadingsAtOffsets(headings[1..], notes[1..], k - 1);
      assert headings[1..][k - 1] == headings[k];
      OccursInRight(s0, rest, "## " + headings[k], SectionOffset(headings[1..], notes[1..], k - 1));
    }
  }

  /** The system message names the four headings, each as a `## ` heading, in the order
      Overall Qualification, Strong Points, Weak Points, Recommendations. */
  lemma SystemPromptHeadingOrder()
    ensures forall k :: 0 <= k < 4 ==> OccursAt(SystemPrompt, "## " + RequestedHeadings[k], HeadingOffset(k))
    ensures forall k :: 0 <= k < 3 ==> HeadingOffset(k) < HeadingOffset(k + 1)
  {
    forall k | 0 <= k < 4
      ensures OccursAt(SystemPrompt, "## " + RequestedHeadings[k], HeadingOffset(k))
      ensures k < 3 ==> HeadingOffset(k) < HeadingOffset(k + 1)
    {
      HeadingsAtOffsets(RequestedHeadings, SectionNotes, k);
      OccursInRight(PromptIntro, PromptSections(RequestedHeadings, SectionNotes), "## " + RequestedHeadings[k],
                    SectionOffset(RequestedHeadings, SectionNotes, k));
    }
  }
}

/** The five agents of `backend/agents.py`: the prompt each stage sends and
    the failover run that sends it. The model backend is an oracle. */
module Agents {
  import opened Wrappers
  import opened Text
  import opened Json
  import opened Schemas
  import opened Failover

  /** One agent per pipeline stage, each with its own instructions and output schema. */
  datatype Stage = ResumeStage | RoleStage | GapStage | RoadmapStage | InterviewStage

  /** What `agent.run(prompt)` yields for the agent of a stage when the given
      model is active: a JSON output, an empty output, or a raised error. */
  type Backend = (Stage, string, string) -> Outcome<Value>

  /** How the f-strings render a `model_dump()` dictionary inside a prompt. */
  type Render = Value -> string

  /** The error raised when a model's output does not satisfy the stage's schema. */
  const RejectedOutputMessage: string := "Model output failed schema validation"

  /** A rejected output carries no credential marker. */
  lemma RejectionIsRetryable()
    ensures !IsCredentialError(RejectedOutputMessage)
  {
    NoMarker(RejectedOutputMessage);
  }

  /** The output schema applied to one attempt: a JSON output that does not
      decode becomes an error, so the next model is tried. */
  function Validate<T>(o: Outcome<Value>, decode: Value -> Option<T>): (r: Outcome<T>)
    ensures r.Ok? <==> o.Ok? && decode(o.output).Some?
    ensures r.Ok? ==> decode(o.output) == Some(r.output)
    ensures r.Empty? <==> o.Empty?
    ensures o.Err? ==> r == Err(o.message)
    ensures o.Ok? && !r.Ok? ==> Retryable(r)
  {
    RejectionIsRetryable();
    match o
    case Ok(json) =>
      (match decode(json)
       case Some(v) => Ok(v)
       case None => Err(RejectedOutputMessage))
    case Empty => Empty
    case Err(message) => Err(message)
  }

  /** `v` is what `decode` made of the output the model gave for this prompt. */
  ghost predicate Answered<T>(backend: Backend, stage: Stage, model: string, prompt: string,
                              decode: Value -> Option<T>, v: T) {
    var o := backend(stage, model, prompt);
    o.Ok? && decode(o.output) == Some(v)
  }

  /** What a finished stage run promises: the failover description over the
      schema-checked replies (every model before the last one tried failed
      retryably, and an error is the last model's error text); the models tried
      are a non-empty prefix of the roster; a value returned is the decoded
      output of the last model tried; an error returned either names a
      credential problem or comes after every model of the roster was tried. */
  ghost predicate Settled<T>(roster: seq<string>, backend: Backend, stage: Stage, prompt: string,
                             decode: Value -> Option<T>, r: Run<T>) {
    && FailoverSpec(roster, StageCall(backend, stage, prompt, decode), r)
    && 0 < |r.attempts|
    && r.attempts <= roster
    && (r.result.Success? ==>
          Answered(backend, stage, r.attempts[|r.attempts| - 1], prompt, decode, r.result.value))
    && (r.result.Failure? ==> IsCredentialError(r.result.error) || r.attempts == roster)
  }

  /** One attempt of a stage on one model: the backend's reply checked against the schema. */
  function StageCall<T>(backend: Backend, stage: Stage, prompt: string,
                        decode: Value -> Option<T>): string -> Outcome<T> {
    m => Validate(backend(stage, m, prompt), decode)
  }

  /** One stage's call to `run_agent_with_failover`: every attempt sends the
      same prompt to the same agent, and the run settles as described above. */
  function RunStage<T>(roster: seq<string>, backend: Backend, stage: Stage, prompt: string,
                       decode: Value -> Option<T>): (r: Run<T>)
    requires |roster| > 0
    ensures Settled(roster, backend, stage, prompt, decode, r)
  {
    var r := RunWithFailover(roster, StageCall(backend, stage, prompt, decode));
    assert |r.attempts| == |roster| ==> r.attempts == roster;
    r
  }

  /** When the first model of the roster answers with a reply that passes the
      schema, the stage ends after that single attempt with the decoded value. */
  lemma FirstModelAnswers<T>(roster: seq<string>, backend: Backend, stage: Stage, prompt: string,
                             decode: Value -> Option<T>, json: Value, v: T)
    requires |roster| > 0
    requires backend(stage, roster[0], prompt) == Ok(json) && decode(json) == Some(v)
    ensures RunStage(roster, backend, stage, prompt, decode) == Run(Success(v), [roster[0]])
  {
    var call := StageCall(backend, stage, prompt, decode);
    assert call(roster[0]) == Ok(v);
    SucceedsAt(roster, call, 0);
    assert roster[..1] == [roster[0]];
  }

  // Prompts (agents.py:91-107).

  const ResumePrefix: string := "Resume Text:\n"
  const RolePrefix: string := "Target Role: "
  const GapsPrefix: string := "Skill Gaps: "

  function ResumePrompt(text: string): string {
    ResumePrefix + text
  }

  function RolePrompt(roleName: string): string {
    RolePrefix + roleName
  }

  function GapPrompt(render: Render, resume: ResumeAnalysis, role: RoleRequirements): string {
    "Resume Info: " + render(EncodeResume(resume)) + "\nTarget Role Requirements: " + render(EncodeRole(role))
  }

  function RoadmapPrompt(render: Render, gaps: SkillGapAnalysis): string {
    GapsPrefix + render(EncodeGapAnalysis(gaps))
  }

  function InterviewPrompt(render: Render, role: RoleRequirements, gaps: SkillGapAnalysis): string {
    RolePrefix + render(EncodeRole(role)) + "\n" + GapsPrefix + render(EncodeGapAnalysis(gaps))
  }

  /** Each single-input prompt is its fixed prefix followed by the input
      exactly as given. */
  lemma ResumePromptParts(text: string)
    ensures |ResumePrompt(text)| == |ResumePrefix| + |text|
    ensures ResumePrompt(text)[..|ResumePrefix|] == ResumePrefix
    ensures ResumePrompt(text)[|ResumePrefix|..] == text
  {
  }

  lemma RolePromptParts(roleName: string)
    ensures |RolePrompt(roleName)| == |RolePrefix| + |roleName|
    ensures RolePrompt(roleName)[..|RolePrefix|] == RolePrefix
    ensures RolePrompt(roleName)[|RolePrefix|..] == roleName
  {
  }

  lemma RoadmapPromptParts(render: Render, gaps: SkillGapAnalysis)
    ensures |RoadmapPrompt(render, gaps)| == |GapsPrefix| + |render(EncodeGapAnalysis(gaps))|
    ensures RoadmapPrompt(render, gaps)[..|GapsPrefix|] == GapsPrefix
    ensures RoadmapPrompt(render, gaps)[|GapsPrefix|..] == render(EncodeGapAnalysis(gaps))
  {
  }

  /** The prefix never swallows input: different inputs give different prompts. */
  lemma PrefixedPromptInjective(prefix: string, a: string, b: string)
    requires prefix + a == prefix + b
    ensures a == b
  {
    assert a == (prefix + a)[|prefix|..];
    assert b == (prefix + b)[|prefix|..];
  }

  lemma ResumePromptInjective(a: string, b: string)
    requires ResumePrompt(a) == ResumePrompt(b)
    ensures a == b
  {
    PrefixedPromptInjective(ResumePrefix, a, b);
  }

  lemma RolePromptInjective(a: string, b: string)
    requires RolePrompt(a) == RolePrompt(b)
    ensures a == b
  {
    PrefixedPromptInjective(RolePrefix, a, b);
  }

  /** `p` occurs in `x + p + y`. */
  lemma ContainsMiddle(x: string, p: string, y: string)
    ensures Contains(x + p + y, p)
  {
    assert (x + p + y)[|x|..|x| + |p|] == p;
    assert OccursAt(x + p + y, p, |x|);
    ContainsIff(x + p + y, p);
  }

  /** The skill-gap prompt carries both earlier outputs, as dumped and rendered. */
  lemma GapPromptCarriesInputs(render: Render, resume: ResumeAnalysis, role: RoleRequirements)
    ensures Contains(GapPrompt(render, resume, role), render(EncodeResume(resume)))
    ensures Contains(GapPrompt(render, resume, role), render(EncodeRole(role)))
  {
    var r, q := render(EncodeResume(resume)), render(EncodeRole(role));
    ContainsMiddle("Resume Info: ", r, "\nTarget Role Requirements: " + q);
    assert GapPrompt(render, resume, role) == "Resume Info: " + r + ("\nTarget Role Requirements: " + q);
    ContainsMiddle("Resume Info: " + r + "\nTarget Role Requirements: ", q, "");
    assert GapPrompt(render, resume, role) == "Resume Info: " + r + "\nTarget Role Requirements: " + q + "";
  }

  /** The interview prompt carries both the dumped role requirements and the
      dumped gap analysis, as rendered. */
  lemma InterviewPromptCarriesInputs(render: Render, role: RoleRequirements, gaps: SkillGapAnalysis)
    ensures Contains(InterviewPrompt(render, role, gaps), render(EncodeRole(role)))
    ensures Contains(InterviewPrompt(render, role, gaps), render(EncodeGapAnalysis(gaps)))
  {
    var r, g := render(EncodeRole(role)), render(EncodeGapAnalysis(gaps));
    ContainsMiddle(RolePrefix, r, "\n" + GapsPrefix + g);
    assert InterviewPrompt(render, role, gaps) == RolePrefix + r + ("\n" + GapsPrefix + g);
    ContainsMiddle(RolePrefix + r + "\n" + GapsPrefix, g, "");
    assert InterviewPrompt(render, role, gaps) == RolePrefix + r + "\n" + GapsPrefix + g + "";
  }

  // The five public stage functions (agents.py:91-107).

  function RunResumeAnalysis(roster: seq<string>, backend: Backend, text: string): (r: Run<ResumeAnalysis>)
    requires |roster| > 0
    ensures Settled(roster, backend, ResumeStage, ResumePrompt(text), DecodeResume, r)
  {
    RunStage(roster, backend, ResumeStage, ResumePrompt(text), DecodeResume)
  }

  function RunRoleInterpretation(roster: seq<string>, backend: Backend, roleName: string): (r: Run<RoleRequirements>)
    requires |roster| > 0
    ensures Settled(roster, backend, RoleStage, RolePrompt(roleName), DecodeRole, r)
  {
    RunStage(roster, backend, RoleStage, RolePrompt(roleName), DecodeRole)
  }

  /** The gaps returned satisfy the level and priority constraints. */
  function RunSkillGapAnalysis(roster: seq<string>, backend: Backend, render: Render,
                               resume: ResumeAnalysis, role: RoleRequirements): (r: Run<SkillGapAnalysis>)
    requires |roster| > 0
    ensures Settled(roster, backend, GapStage, GapPrompt(render, resume, role), DecodeGapAnalysis, r)
    ensures r.result.Success? ==> ValidGaps(r.result.value.gaps)
  {
    RunStage(roster, backend, GapStage, GapPrompt(render, resume, role), DecodeGapAnalysis)
  }

  function RunRoadmapGeneration(roster: seq<string>, backend: Backend, render: Render,
                                gaps: SkillGapAnalysis): (r: Run<CareerRoadmap>)
    requires |roster| > 0
    ensures Settled(roster, backend, RoadmapStage, RoadmapPrompt(render, gaps), DecodeRoadmap, r)
  {
    RunStage(roster, backend, RoadmapStage, RoadmapPrompt(render, gaps), DecodeRoadmap)
  }

  /** The questions returned carry an allowed difficulty. */
  function RunInterviewSimulation(roster: seq<string>, backend: Backend, render: Render,
                                  role: RoleRequirements, gaps: SkillGapAnalysis): (r: Run<InterviewSimulation>)
    requires |roster| > 0
    ensures Settled(roster, backend, InterviewStage, InterviewPrompt(render, role, gaps), DecodeInterview, r)
    ensures r.result.Success? ==> ValidQuestions(r.result.value.questions)
  {
    RunStage(roster, backend, InterviewStage, InterviewPrompt(render, role, gaps), DecodeInterview)
  }
}

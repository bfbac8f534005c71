/** The two endpoints of `backend/main.py` that drive the agents:
    `/analyze-full` runs the five stages in order and either returns the
    combined report or fails as a whole with status 500; `/parse-resume`
    runs the resume stage on an uploaded text and reports every failure with
    status 400. */
module Api {
  import opened Wrappers
  import opened Text
  import opened Json
  import opened Schemas
  import opened Failover
  import opened Agents

  /** An `HTTPException` raised by an endpoint. */
  datatype HttpError = HttpError(status: int, detail: string)

  /** One stage as the full analysis ran it: the prompt it sent, the models it
      tried, and the error it ended with, if any. */
  datatype StageRecord = StageRecord(stage: Stage, prompt: string, attempts: seq<string>, error: Option<string>)

  /** The response of `/analyze-full` and the stages that ran to produce it. */
  datatype FullAnalysis = FullAnalysis(
    response: Result<CareerCompanionReport, HttpError>,
    stages: seq<StageRecord>)

  const PipelineOrder: seq<Stage> := [ResumeStage, RoleStage, GapStage, RoadmapStage, InterviewStage]

  /** The hint that replaces a credential error; written in pieces so that
      the verifier can check which characters it lacks. */
  const AnalyzeCredentialDetail: string :=
    "OpenRouter API Key is invalid " + "or missing. Please check " + "your .env file."

  /** The hint itself names no credential marker. */
  lemma CredentialHintIsPlain()
    ensures !IsCredentialError(AnalyzeCredentialDetail)
  {
    HintLacksFour();
    HintLacksCapitalU();
    NoMarker(AnalyzeCredentialDetail);
  }

  lemma HintLacksFour() ensures '4' !in AnalyzeCredentialDetail {}
  lemma HintLacksCapitalU() ensures 'U' !in AnalyzeCredentialDetail {}

  /** The detail of the 500 response: a credential problem is replaced by a
      fixed hint, any other error text is passed on as it is. */
  function AnalyzeErrorDetail(message: string): (d: string)
    ensures IsCredentialError(message) ==> d == AnalyzeCredentialDetail
    ensures !IsCredentialError(message) ==> d == message
    ensures !IsCredentialError(d)
  {
    CredentialHintIsPlain();
    if IsCredentialError(message) then AnalyzeCredentialDetail else message
  }

  function ErrorOf<T>(result: Result<T, string>): Option<string> {
    if result.Failure? then Some(result.error) else None
  }

  /** The stage answered `v`: its last model's output decoded to it. */
  ghost predicate RecordAnswered<T>(backend: Backend, record: StageRecord, decode: Value -> Option<T>, v: T) {
    && |record.attempts| > 0
    && Answered(backend, record.stage, record.attempts[|record.attempts| - 1], record.prompt, decode, v)
  }

  /** A stage tried a non-empty prefix of the roster, and gave up before its
      end only on a credential error. */
  ghost predicate Tried(roster: seq<string>, record: StageRecord) {
    && 0 < |record.attempts|
    && record.attempts <= roster
    && (record.error.Some? ==> IsCredentialError(record.error.value) || record.attempts == roster)
  }

  /** A stage as the pipeline sees it: its record, and its output when it succeeded. */
  datatype Staged<T> = Staged(record: StageRecord, output: Option<T>)

  /** The record keeps the run's attempts and error text, and the output is
      the run's value. */
  ghost predicate FromRun<T>(s: Staged<T>, run: Run<T>) {
    && s.record.attempts == run.attempts
    && s.record.error == ErrorOf(run.result)
    && (s.output.Some? ==> run.result == Success(s.output.value))
  }

  /** A stage run, recorded. */
  function Record<T>(roster: seq<string>, backend: Backend, stage: Stage, prompt: string,
                     decode: Value -> Option<T>, run: Run<T>): (s: Staged<T>)
    requires Settled(roster, backend, stage, prompt, decode, run)
    ensures FromRun(s, run)
    ensures Tried(roster, s.record)
    ensures s.record.stage == stage && s.record.prompt == prompt
    ensures s.output.Some? <==> s.record.error.None?
    ensures s.output.Some? ==> RecordAnswered(backend, s.record, decode, s.output.value)
  {
    match run.result
    case Success(v) => Staged(StageRecord(stage, prompt, run.attempts, None), Some(v))
    case Failure(e) => Staged(StageRecord(stage, prompt, run.attempts, Some(e)), None)
  }

  function ResumeStep(roster: seq<string>, backend: Backend, text: string): (s: Staged<ResumeAnalysis>)
    requires |roster| > 0
    ensures Tried(roster, s.record)
    ensures s.record.stage == ResumeStage && s.record.prompt == ResumePrompt(text)
    ensures s.output.Some? <==> s.record.error.None?
    ensures s.output.Some? ==> RecordAnswered(backend, s.record, DecodeResume, s.output.value)
  {
    Record(roster, backend, ResumeStage, ResumePrompt(text), DecodeResume, RunResumeAnalysis(roster, backend, text))
  }

  function RoleStep(roster: seq<string>, backend: Backend, roleName: string): (s: Staged<RoleRequirements>)
    requires |roster| > 0
    ensures Tried(roster, s.record)
    ensures s.record.stage == RoleStage && s.record.prompt == RolePrompt(roleName)
    ensures s.output.Some? <==> s.record.error.None?
    ensures s.output.Some? ==> RecordAnswered(backend, s.record, DecodeRole, s.output.value)
  {
    Record(roster, backend, RoleStage, RolePrompt(roleName), DecodeRole, RunRoleInterpretation(roster, backend, roleName))
  }

  function GapStep(roster: seq<string>, backend: Backend, render: Render,
                   resume: ResumeAnalysis, role: RoleRequirements): (s: Staged<SkillGapAnalysis>)
    requires |roster| > 0
    ensures Tried(roster, s.record)
    ensures s.record.stage == GapStage && s.record.prompt == GapPrompt(render, resume, role)
    ensures s.output.Some? <==> s.record.error.None?
    ensures s.output.Some? ==>
      RecordAnswered(backend, s.record, DecodeGapAnalysis, s.output.value) && ValidGaps(s.output.value.gaps)
  {
    var run := RunSkillGapAnalysis(roster, backend, render, resume, role);
    Record(roster, backend, GapStage, GapPrompt(render, resume, role), DecodeGapAnalysis, run)
  }

  function RoadmapStep(roster: seq<string>, backend: Backend, render: Render,
                       gaps: SkillGapAnalysis): (s: Staged<CareerRoadmap>)
    requires |roster| > 0
    ensures Tried(roster, s.record)
    ensures s.record.stage == RoadmapStage && s.record.prompt == RoadmapPrompt(render, gaps)
    ensures s.output.Some? <==> s.record.error.None?
    ensures s.output.Some? ==> RecordAnswered(backend, s.record, DecodeRoadmap, s.output.value)
  {
    Record(roster, backend, RoadmapStage, RoadmapPrompt(render, gaps), DecodeRoadmap,
           RunRoadmapGeneration(roster, backend, render, gaps))
  }

  function InterviewStep(roster: seq<string>, backend: Backend, render: Render,
                         role: RoleRequirements, gaps: SkillGapAnalysis): (s: Staged<InterviewSimulation>)
    requires |roster| > 0
    ensures Tried(roster, s.record)
    ensures s.record.stage == InterviewStage && s.record.prompt == InterviewPrompt(render, role, gaps)
    ensures s.output.Some? <==> s.record.error.None?
    ensures s.output.Some? ==>
      RecordAnswered(backend, s.record, DecodeInterview, s.output.value) && ValidQuestions(s.output.value.questions)
  {
    var run := RunInterviewSimulation(roster, backend, render, role, gaps);
    Record(roster, backend, InterviewStage, InterviewPrompt(render, role, gaps), DecodeInterview, run)
  }

  /** Each stage record keeps its failover run's attempts and error text, and
      a stage output is the run's value. */
  lemma ResumeStepFromRun(roster: seq<string>, backend: Backend, text: string)
    requires |roster| > 0
    ensures FromRun(ResumeStep(roster, backend, text), RunResumeAnalysis(roster, backend, text))
  {
  }

  lemma RoleStepFromRun(roster: seq<string>, backend: Backend, roleName: string)
    requires |roster| > 0
    ensures FromRun(RoleStep(roster, backend, roleName), RunRoleInterpretation(roster, backend, roleName))
  {
  }

  lemma GapStepFromRun(roster: seq<string>, backend: Backend, render: Render, resume: ResumeAnalysis, role: RoleRequirements)
    requires |roster| > 0
    ensures FromRun(GapStep(roster, backend, render, resume, role), RunSkillGapAnalysis(roster, backend, render, resume, role))
  {
  }

  lemma RoadmapStepFromRun(roster: seq<string>, backend: Backend, render: Render, gaps: SkillGapAnalysis)
    requires |roster| > 0
    ensures FromRun(RoadmapStep(roster, backend, render, gaps), RunRoadmapGeneration(roster, backend, render, gaps))
  {
  }

  lemma InterviewStepFromRun(roster: seq<string>, backend: Backend, render: Render,
                                role: RoleRequirements, gaps: SkillGapAnalysis)
    requires |roster| > 0
    ensures FromRun(InterviewStep(roster, backend, render, role, gaps), RunInterviewSimulation(roster, backend, render, role, gaps))
  {
  }

  /** What the body of the `try` in `analyze_full` leaves behind: the report
      when every stage succeeded, and the stages that ran. */
  datatype Trace = Trace(report: Option<CareerCompanionReport>, stages: seq<StageRecord>)

  /** The part of the report a successful stage accounts for: the stage's
      output decodes to it, and its prompt was built from the report's
      earlier parts. */
  ghost predicate Justifies(backend: Backend, render: Render, record: StageRecord, rep: CareerCompanionReport) {
    match record.stage
    case ResumeStage =>
      RecordAnswered(backend, record, DecodeResume, rep.resumeAnalysis)
    case RoleStage =>
      RecordAnswered(backend, record, DecodeRole, rep.roleRequirements)
    case GapStage =>
      && record.prompt == GapPrompt(render, rep.resumeAnalysis, rep.roleRequirements)
      && RecordAnswered(backend, record, DecodeGapAnalysis, SkillGapAnalysis(rep.skillGaps))
    case RoadmapStage =>
      && record.prompt == RoadmapPrompt(render, SkillGapAnalysis(rep.skillGaps))
      && RecordAnswered(backend, record, DecodeRoadmap, CareerRoadmap(rep.roadmap))
    case InterviewStage =>
      && record.prompt == InterviewPrompt(render, rep.roleRequirements, SkillGapAnalysis(rep.skillGaps))
      && RecordAnswered(backend, record, DecodeInterview, InterviewSimulation(rep.interviewQuestions))
  }

  /** A run of the pipeline from stage `from` onwards: the stages that ran
      follow the pipeline order, each tried a prefix of the roster, all but the
      last succeeded, and there is a report exactly when the run reached the
      end with a success, in which case every stage accounts for its part. */
  ghost predicate Ran(roster: seq<string>, backend: Backend, render: Render, t: Trace, from: nat) {
    && from < |PipelineOrder|
    && 0 < |t.stages| <= |PipelineOrder| - from
    && (forall i :: 0 <= i < |t.stages| ==> t.stages[i].stage == PipelineOrder[from + i])
    && (forall i :: 0 <= i < |t.stages| ==> Tried(roster, t.stages[i]))
    && (forall i :: 0 <= i < |t.stages| - 1 ==> t.stages[i].error.None?)
    && (t.report.Some? <==> from + |t.stages| == |PipelineOrder| && t.stages[|t.stages| - 1].error.None?)
    && (t.report.None? ==> t.stages[|t.stages| - 1].error.Some?)
    && (t.report.Some? ==>
          forall i :: 0 <= i < |t.stages| ==> Justifies(backend, render, t.stages[i], t.report.value))
  }

  /** Putting a tried, successful stage in front of the stages that follow it
      keeps every per-stage fact of `Ran`, one index further on. */
  lemma ShiftStages(roster: seq<string>, record: StageRecord, rest: seq<StageRecord>, from: nat)
    requires from + 1 + |rest| <= |PipelineOrder| && record.stage == PipelineOrder[from]
    requires Tried(roster, record) && record.error.None?
    requires forall i :: 0 <= i < |rest| ==> rest[i].stage == PipelineOrder[from + 1 + i]
    requires forall i :: 0 <= i < |rest| ==> Tried(roster, rest[i])
    requires forall i :: 0 <= i < |rest| - 1 ==> rest[i].error.None?
    ensures forall i :: 0 <= i < |[record] + rest| ==> ([record] + rest)[i].stage == PipelineOrder[from + i]
    ensures forall i :: 0 <= i < |[record] + rest| ==> Tried(roster, ([record] + rest)[i])
    ensures forall i :: 0 <= i < |[record] + rest| - 1 ==> ([record] + rest)[i].error.None?
  {
    var all := [record] + rest;
    assert forall i :: 0 < i < |all| ==> all[i] == rest[i - 1];
  }

  /** The same shift for the facts that tie each stage to the final report. */
  lemma ShiftJustified(backend: Backend, render: Render, record: StageRecord, rest: seq<StageRecord>, report: CareerCompanionReport)
    requires Justifies(backend, render, record, report)
    requires forall i :: 0 <= i < |rest| ==> Justifies(backend, render, rest[i], report)
    ensures forall i :: 0 <= i < |[record] + rest| ==> Justifies(backend, render, ([record] + rest)[i], report)
  {
    var all := [record] + rest;
    assert forall i :: 0 < i < |all| ==> all[i] == rest[i - 1];
  }

  /** A stage that failed ends the run at `from`. */
  function Stop(roster: seq<string>, backend: Backend, render: Render, record: StageRecord, from: nat): (t: Trace)
    requires from < |PipelineOrder| && record.stage == PipelineOrder[from]
    requires Tried(roster, record) && record.error.Some?
    ensures Ran(roster, backend, render, t, from)
    ensures t.stages == [record] && t.report.None?
  {
    Trace(None, [record])
  }

  /** A stage that succeeded, followed by the run of the rest of the pipeline. */
  function Prepend(roster: seq<string>, backend: Backend, render: Render, record: StageRecord,
                   rest: Trace, from: nat): (t: Trace)
    requires from + 1 < |PipelineOrder| && record.stage == PipelineOrder[from]
    requires Tried(roster, record) && record.error.None?
    requires Ran(roster, backend, render, rest, from + 1)
    requires rest.report.Some? ==> Justifies(backend, render, record, rest.report.value)
    ensures Ran(roster, backend, render, t, from)
    ensures t.stages == [record] + rest.stages && t.report == rest.report
  {
    PrependRuns(roster, backend, render, record, rest, from);
    Trace(rest.report, [record] + rest.stages)
  }

  /** The run that starts with a successful stage and continues with `rest`. */
  lemma PrependRuns(roster: seq<string>, backend: Backend, render: Render, record: StageRecord,
                    rest: Trace, from: nat)
    requires from + 1 < |PipelineOrder| && record.stage == PipelineOrder[from]
    requires Tried(roster, record) && record.error.None?
    requires Ran(roster, backend, render, rest, from + 1)
    requires rest.report.Some? ==> Justifies(backend, render, record, rest.report.value)
    ensures Ran(roster, backend, render, Trace(rest.report, [record] + rest.stages), from)
  {
    var t := Trace(rest.report, [record] + rest.stages);
    ShiftStages(roster, record, rest.stages, from);
    assert |t.stages| == |rest.stages| + 1;
    assert t.stages[|t.stages| - 1] == rest.stages[|rest.stages| - 1];
    if rest.report.Some? {
      ShiftJustified(backend, render, record, rest.stages, rest.report.value);
    }
  }

  /** The outputs of the stages that already succeeded. */
  datatype Outputs = Outputs(
    resume: Option<ResumeAnalysis>,
    role: Option<RoleRequirements>,
    gaps: Option<SkillGapAnalysis>,
    roadmap: Option<CareerRoadmap>)

  /** Exactly the outputs of the stages before stage `k` are there. */
  predicate ReadyFor(o: Outputs, k: nat) {
    && (o.resume.Some? <==> k > 0)
    && (o.role.Some? <==> k > 1)
    && (o.gaps.Some? <==> k > 2)
    && (o.roadmap.Some? <==> k > 3)
  }

  /** The report keeps the outputs that were already there. */
  predicate Keeps(o: Outputs, rep: CareerCompanionReport) {
    && (o.resume.Some? ==> rep.resumeAnalysis == o.resume.value)
    && (o.role.Some? ==> rep.roleRequirements == o.role.value)
    && (o.gaps.Some? ==> rep.skillGaps == o.gaps.value.gaps)
    && (o.roadmap.Some? ==> rep.roadmap == o.roadmap.value.roadmap)
  }

  /** The pipeline from stage `k` on, given the outputs of the stages before it. */
  function Onwards(roster: seq<string>, backend: Backend, render: Render, resumeText: string,
                   targetRole: string, k: nat, o: Outputs): (t: Trace)
    requires |roster| > 0 && k < |PipelineOrder| && ReadyFor(o, k)
    ensures Ran(roster, backend, render, t, k)
    ensures k == 0 ==> t.stages[0].prompt == ResumePrompt(resumeText)
    ensures k == 1 ==> t.stages[0].prompt == RolePrompt(targetRole)
    ensures t.report.Some? ==> Keeps(o, t.report.value)
    decreases |PipelineOrder| - k, 1
  {
    if k == 0 then ResumeOnwards(roster, backend, render, resumeText, targetRole)
    else if k == 1 then RoleOnwards(roster, backend, render, resumeText, targetRole, o.resume.value)
    else if k == 2 then
      GapOnwards(roster, backend, render, resumeText, targetRole, o.resume.value, o.role.value)
    else if k == 3 then
      RoadmapOnwards(roster, backend, render, resumeText, targetRole, o.resume.value, o.role.value, o.gaps.value)
    else
      InterviewOnwards(roster, backend, render, o.resume.value, o.role.value, o.gaps.value, o.roadmap.value)
  }

  function ResumeOnwards(roster: seq<string>, backend: Backend, render: Render,
                         resumeText: string, targetRole: string): (t: Trace)
    requires |roster| > 0
    ensures Ran(roster, backend, render, t, 0)
    ensures t.stages[0].prompt == ResumePrompt(resumeText)
    decreases |PipelineOrder|, 0
  {
    var s := ResumeStep(roster, backend, resumeText);
    if s.output.None? then Stop(roster, backend, render, s.record, 0) else
    var rest := Onwards(roster, backend, render, resumeText, targetRole, 1, Outputs(s.output, None, None, None));
    assert rest.report.Some? ==> rest.report.value.resumeAnalysis == s.output.value;
    Prepend(roster, backend, render, s.record, rest, 0)
  }

  function RoleOnwards(roster: seq<string>, backend: Backend, render: Render, resumeText: string,
                       targetRole: string, resume: ResumeAnalysis): (t: Trace)
    requires |roster| > 0
    ensures Ran(roster, backend, render, t, 1)
    ensures t.stages[0].prompt == RolePrompt(targetRole)
    ensures t.report.Some? ==> t.report.value.resumeAnalysis == resume
    decreases |PipelineOrder| - 1, 0
  {
    var s := RoleStep(roster, backend, targetRole);
    if s.output.None? then Stop(roster, backend, render, s.record, 1) else
    var rest := Onwards(roster, backend, render, resumeText, targetRole, 2, Outputs(Some(resume), s.output, None, None));
    Prepend(roster, backend, render, s.record, rest, 1)
  }

  function GapOnwards(roster: seq<string>, backend: Backend, render: Render, resumeText: string,
                      targetRole: string, resume: ResumeAnalysis, role: RoleRequirements): (t: Trace)
    requires |roster| > 0
    ensures Ran(roster, backend, render, t, 2)
    ensures t.report.Some? ==>
      && t.report.value.resumeAnalysis == resume
      && t.report.value.roleRequirements == role
    decreases |PipelineOrder| - 2, 0
  {
    var s := GapStep(roster, backend, render, resume, role);
    if s.output.None? then Stop(roster, backend, render, s.record, 2) else
    var rest := Onwards(roster, backend, render, resumeText, targetRole, 3,
                        Outputs(Some(resume), Some(role), s.output, None));
    assert rest.report.Some? ==>
      && rest.report.value.resumeAnalysis == resume
      && rest.report.value.roleRequirements == role
      && rest.report.value.skillGaps == s.output.value.gaps;
    Prepend(roster, backend, render, s.record, rest, 2)
  }

  function RoadmapOnwards(roster: seq<string>, backend: Backend, render: Render, resumeText: string,
                          targetRole: string, resume: ResumeAnalysis, role: RoleRequirements,
                          gaps: SkillGapAnalysis): (t: Trace)
    requires |roster| > 0
    ensures Ran(roster, backend, render, t, 3)
    ensures t.report.Some? ==>
      && t.report.value.resumeAnalysis == resume
      && t.report.value.roleRequirements == role
      && t.report.value.skillGaps == gaps.gaps
    decreases |PipelineOrder| - 3, 0
  {
    var s := RoadmapStep(roster, backend, render, gaps);
    if s.output.None? then Stop(roster, backend, render, s.record, 3) else
    var rest := Onwards(roster, backend, render, resumeText, targetRole, 4,
                        Outputs(Some(resume), Some(role), Some(gaps), s.output));
    Prepend(roster, backend, render, s.record, rest, 3)
  }

  function InterviewOnwards(roster: seq<string>, backend: Backend, render: Render, resume: ResumeAnalysis,
                            role: RoleRequirements, gaps: SkillGapAnalysis, roadmap: CareerRoadmap): (t: Trace)
    requires |roster| > 0
    ensures Ran(roster, backend, render, t, 4)
    ensures t.report.Some? ==>
      && t.report.value.resumeAnalysis == resume
      && t.report.value.roleRequirements == role
      && t.report.value.skillGaps == gaps.gaps
      && t.report.value.roadmap == roadmap.roadmap
    ensures t.stages == [InterviewStep(roster, backend, render, role, gaps).record]
  {
    var s := InterviewStep(roster, backend, render, role, gaps);
    if s.output.None? then Stop(roster, backend, render, s.record, 4) else
    var rep := CareerCompanionReport(resume, role, gaps.gaps, roadmap.roadmap, s.output.value.questions);
    assert Justifies(backend, render, s.record, rep);
    Trace(Some(rep), [s.record])
  }

  /** What the `try` block ends with: the report, or the error text of the
      stage that raised. */
  function Verdict(t: Trace): Result<CareerCompanionReport, string>
    requires t.report.None? ==> 0 < |t.stages| && t.stages[|t.stages| - 1].error.Some?
  {
    match t.report
    case Some(rep) => Success(rep)
    case None => Failure(t.stages[|t.stages| - 1].error.value)
  }

  /** The `try` block of `analyze_full` written directly over the five
      `run_*` calls: each call is fed the results of the earlier ones, and the
      first error is passed on, as an uncaught exception is. */
  function AnalysisChain(roster: seq<string>, backend: Backend, render: Render,
                         resumeText: string, targetRole: string): Result<CareerCompanionReport, string>
    requires |roster| > 0
  {
    var resume :- RunResumeAnalysis(roster, backend, resumeText).result;
    var role :- RunRoleInterpretation(roster, backend, targetRole).result;
    var gaps :- RunSkillGapAnalysis(roster, backend, render, resume, role).result;
    var roadmap :- RunRoadmapGeneration(roster, backend, render, gaps).result;
    var interview :- RunInterviewSimulation(roster, backend, render, role, gaps).result;
    Success(CareerCompanionReport(resume, role, gaps.gaps, roadmap.roadmap, interview.questions))
  }

  /** The records of the stage calls of a full analysis, in order, each stage
      run on the outputs of the stages before it, up to and including the
      first stage that failed: from the roadmap stage on, ... */
  function RoadmapRecords(roster: seq<string>, backend: Backend, render: Render,
                          role: RoleRequirements, gaps: SkillGapAnalysis): seq<StageRecord>
    requires |roster| > 0
  {
    var s4 := RoadmapStep(roster, backend, render, gaps);
    if s4.output.None? then [s4.record] else [s4.record, InterviewStep(roster, backend, render, role, gaps).record]
  }

  /** ... from the gap stage on, ... */
  function GapRecords(roster: seq<string>, backend: Backend, render: Render,
                      resume: ResumeAnalysis, role: RoleRequirements): seq<StageRecord>
    requires |roster| > 0
  {
    var s3 := GapStep(roster, backend, render, resume, role);
    if s3.output.None? then [s3.record] else [s3.record] + RoadmapRecords(roster, backend, render, role, s3.output.value)
  }

  /** ... from the role stage on, ... */
  function RoleRecords(roster: seq<string>, backend: Backend, render: Render,
                       targetRole: string, resume: ResumeAnalysis): seq<StageRecord>
    requires |roster| > 0
  {
    var s2 := RoleStep(roster, backend, targetRole);
    if s2.output.None? then [s2.record] else [s2.record] + GapRecords(roster, backend, render, resume, s2.output.value)
  }

  /** ... and from the first stage on. */
  function StepRecords(roster: seq<string>, backend: Backend, render: Render,
                       resumeText: string, targetRole: string): seq<StageRecord>
    requires |roster| > 0
  {
    var s1 := ResumeStep(roster, backend, resumeText);
    if s1.output.None? then [s1.record] else [s1.record] + RoleRecords(roster, backend, render, targetRole, s1.output.value)
  }

  /** The interview stage is one failover run: the report is assembled from
      its answer and the earlier outputs, and an error is the run's error. */
  lemma InterviewOnwardsVerdict(roster: seq<string>, backend: Backend, render: Render, resume: ResumeAnalysis,
                                role: RoleRequirements, gaps: SkillGapAnalysis, roadmap: CareerRoadmap)
    requires |roster| > 0
    ensures
      var run := RunInterviewSimulation(roster, backend, render, role, gaps);
      Verdict(InterviewOnwards(roster, backend, render, resume, role, gaps, roadmap))
        == if run.result.Failure? then Failure(run.result.error)
           else Success(CareerCompanionReport(resume, role, gaps.gaps, roadmap.roadmap, run.result.value.questions))
  {
    InterviewStepFromRun(roster, backend, render, role, gaps);
  }

  /** The run from the roadmap stage on records exactly its stage calls. */
  lemma RoadmapOnwardsStages(roster: seq<string>, backend: Backend, render: Render, resumeText: string,
                             targetRole: string, resume: ResumeAnalysis, role: RoleRequirements,
                             gaps: SkillGapAnalysis)
    requires |roster| > 0
    ensures RoadmapOnwards(roster, backend, render, resumeText, targetRole, resume, role, gaps).stages
         == RoadmapRecords(roster, backend, render, role, gaps)
  {
  }

  /** The roadmap stage is one failover run: its error ends the pipeline,
      its answer is what the interview stage goes on with. */
  lemma RoadmapOnwardsVerdict(roster: seq<string>, backend: Backend, render: Render, resumeText: string,
                              targetRole: string, resume: ResumeAnalysis, role: RoleRequirements,
                              gaps: SkillGapAnalysis)
    requires |roster| > 0
    ensures
      var run := RunRoadmapGeneration(roster, backend, render, gaps);
      Verdict(RoadmapOnwards(roster, backend, render, resumeText, targetRole, resume, role, gaps))
        == if run.result.Failure? then Failure(run.result.error)
           else Verdict(InterviewOnwards(roster, backend, render, resume, role, gaps, run.result.value))
  {
    RoadmapStepFromRun(roster, backend, render, gaps);
  }

  /** The run from the gap stage on records exactly its stage calls. */
  lemma GapOnwardsStages(roster: seq<string>, backend: Backend, render: Render, resumeText: string,
                         targetRole: string, resume: ResumeAnalysis, role: RoleRequirements)
    requires |roster| > 0
    ensures GapOnwards(roster, backend, render, resumeText, targetRole, resume, role).stages
         == GapRecords(roster, backend, render, resume, role)
  {
    var s3 := GapStep(roster, backend, render, resume, role);
    if s3.output.Some? {
      var rest := RoadmapOnwards(roster, backend, render, resumeText, targetRole, resume, role, s3.output.value);
      assert Onwards(roster, backend, render, resumeText, targetRole, 3,
                     Outputs(Some(resume), Some(role), s3.output, None)) == rest;
      RoadmapOnwardsStages(roster, backend, render, resumeText, targetRole, resume, role, s3.output.value);
    }
  }

  /** The gap stage is one failover run: its error ends the pipeline, its
      answer is what the later stages go on with. */
  lemma GapOnwardsVerdict(roster: seq<string>, backend: Backend, render: Render, resumeText: string,
                          targetRole: string, resume: ResumeAnalysis, role: RoleRequirements)
    requires |roster| > 0
    ensures
      var run := RunSkillGapAnalysis(roster, backend, render, resume, role);
      Verdict(GapOnwards(roster, backend, render, resumeText, targetRole, resume, role))
        == if run.result.Failure? then Failure(run.result.error)
           else Verdict(RoadmapOnwards(roster, backend, render, resumeText, targetRole, resume, role, run.result.value))
  {
    GapStepFromRun(roster, backend, render, resume, role);
    var s3 := GapStep(roster, backend, render, resume, role);
    if s3.output.Some? {
      var rest := RoadmapOnwards(roster, backend, render, resumeText, targetRole, resume, role, s3.output.value);
      assert Onwards(roster, backend, render, resumeText, targetRole, 3,
                     Outputs(Some(resume), Some(role), s3.output, None)) == rest;
      var t := GapOnwards(roster, backend, render, resumeText, targetRole, resume, role);
      assert t.stages == [s3.record] + rest.stages && t.report == rest.report;
      assert t.stages[|t.stages| - 1] == rest.stages[|rest.stages| - 1];
    }
  }

  /** The run from the role stage on records exactly its stage calls. */
  lemma RoleOnwardsStages(roster: seq<string>, backend: Backend, render: Render, resumeText: string,
                          targetRole: string, resume: ResumeAnalysis)
    requires |roster| > 0
    ensures RoleOnwards(roster, backend, render, resumeText, targetRole, resume).stages
         == RoleRecords(roster, backend, render, targetRole, resume)
  {
    var s2 := RoleStep(roster, backend, targetRole);
    if s2.output.Some? {
      GapOnwardsStages(roster, backend, render, resumeText, targetRole, resume, s2.output.value);
    }
  }

  /** The role stage is one failover run: its error ends the pipeline, its
      answer is what the later stages go on with. */
  lemma RoleOnwardsVerdict(roster: seq<string>, backend: Backend, render: Render, resumeText: string,
                           targetRole: string, resume: ResumeAnalysis)
    requires |roster| > 0
    ensures
      var run := RunRoleInterpretation(roster, backend, targetRole);
      Verdict(RoleOnwards(roster, backend, render, resumeText, targetRole, resume))
        == if run.result.Failure? then Failure(run.result.error)
           else Verdict(GapOnwards(roster, backend, render, resumeText, targetRole, resume, run.result.value))
  {
    RoleStepFromRun(roster, backend, targetRole);
  }

  /** The whole pipeline records exactly the five stage calls, up to the first failure. */
  lemma ResumeOnwardsStages(roster: seq<string>, backend: Backend, render: Render,
                            resumeText: string, targetRole: string)
    requires |roster| > 0
    ensures ResumeOnwards(roster, backend, render, resumeText, targetRole).stages
         == StepRecords(roster, backend, render, resumeText, targetRole)
  {
    var s1 := ResumeStep(roster, backend, resumeText);
    if s1.output.Some? {
      RoleOnwardsStages(roster, backend, render, resumeText, targetRole, s1.output.value);
    }
  }

  /** The resume stage is one failover run: its error ends the pipeline, its
      answer is what the later stages go on with. */
  lemma ResumeOnwardsVerdict(roster: seq<string>, backend: Backend, render: Render,
                             resumeText: string, targetRole: string)
    requires |roster| > 0
    ensures
      var run := RunResumeAnalysis(roster, backend, resumeText);
      Verdict(ResumeOnwards(roster, backend, render, resumeText, targetRole))
        == if run.result.Failure? then Failure(run.result.error)
           else Verdict(RoleOnwards(roster, backend, render, resumeText, targetRole, run.result.value))
  {
    ResumeStepFromRun(roster, backend, resumeText);
  }

  /** The pipeline ends with what the chain of `run_*` calls ends with. */
  lemma PipelineVerdict(roster: seq<string>, backend: Backend, render: Render,
                        resumeText: string, targetRole: string)
    requires |roster| > 0
    ensures Verdict(ResumeOnwards(roster, backend, render, resumeText, targetRole))
         == AnalysisChain(roster, backend, render, resumeText, targetRole)
  {
    ResumeOnwardsVerdict(roster, backend, render, resumeText, targetRole);
    var r1 := RunResumeAnalysis(roster, backend, resumeText);
    if r1.result.Success? {
      var resume := r1.result.value;
      RoleOnwardsVerdict(roster, backend, render, resumeText, targetRole, resume);
      var r2 := RunRoleInterpretation(roster, backend, targetRole);
      if r2.result.Success? {
        var role := r2.result.value;
        GapOnwardsVerdict(roster, backend, render, resumeText, targetRole, resume, role);
        var r3 := RunSkillGapAnalysis(roster, backend, render, resume, role);
        if r3.result.Success? {
          var gaps := r3.result.value;
          RoadmapOnwardsVerdict(roster, backend, render, resumeText, targetRole, resume, role, gaps);
          var r4 := RunRoadmapGeneration(roster, backend, render, gaps);
          if r4.result.Success? {
            InterviewOnwardsVerdict(roster, backend, render, resume, role, gaps, r4.result.value);
          }
        }
      }
    }
  }

  /** The body of the `try` in `analyze_full`: the five stages in order, the
      first failing stage ending the run. */
  function RunPipeline(roster: seq<string>, backend: Backend, render: Render,
                       resumeText: string, targetRole: string): (t: Trace)
    requires |roster| > 0
    ensures Ran(roster, backend, render, t, 0)
    ensures t.stages[0].prompt == ResumePrompt(resumeText)
    ensures |t.stages| > 1 ==> t.stages[1].prompt == RolePrompt(targetRole)
    ensures t.stages == StepRecords(roster, backend, render, resumeText, targetRole)
    ensures Verdict(t) == AnalysisChain(roster, backend, render, resumeText, targetRole)
  {
    ResumeOnwardsStages(roster, backend, render, resumeText, targetRole);
    PipelineVerdict(roster, backend, render, resumeText, targetRole);
    ResumeOnwards(roster, backend, render, resumeText, targetRole)
  }

  /** `analyze_full`: the pipeline's report, or a 500 response whose detail is
      derived from the error of the stage that failed. */
  function AnalyzeFull(roster: seq<string>, backend: Backend, render: Render,
                       resumeText: string, targetRole: string): (a: FullAnalysis)
    requires |roster| > 0
    ensures
      var t := RunPipeline(roster, backend, render, resumeText, targetRole);
      && a.stages == t.stages
      && (a.response.Success? <==> t.report.Some?)
      && (a.response.Success? ==> a.response.value == t.report.value)
      && (a.response.Failure? ==>
            && t.stages[|t.stages| - 1].error.Some?
            && a.response.error == HttpError(500, AnalyzeErrorDetail(t.stages[|t.stages| - 1].error.value)))
    ensures a.stages == StepRecords(roster, backend, render, resumeText, targetRole)
    ensures match AnalysisChain(roster, backend, render, resumeText, targetRole)
            case Success(rep) => a.response == Success(rep)
            case Failure(e) => a.response == Failure(HttpError(500, AnalyzeErrorDetail(e)))
  {
    var t := RunPipeline(roster, backend, render, resumeText, targetRole);
    match t.report
    case Some(report) => FullAnalysis(Success(report), t.stages)
    case None => FullAnalysis(Failure(HttpError(500, AnalyzeErrorDetail(t.stages[|t.stages| - 1].error.value))), t.stages)
  }

  /** The stages of a full analysis run in pipeline order and stop at the
      first failure; the request succeeds exactly when all five stages did,
      and fails with status 500 and the failing stage's error otherwise. */
  lemma AnalyzeFullStages(roster: seq<string>, backend: Backend, render: Render,
                          resumeText: string, targetRole: string)
    requires |roster| > 0
    ensures
      var a := AnalyzeFull(roster, backend, render, resumeText, targetRole);
      && 0 < |a.stages| <= |PipelineOrder|
      && (forall i :: 0 <= i < |a.stages| ==> a.stages[i].stage == PipelineOrder[i])
      && (forall i :: 0 <= i < |a.stages| ==> Tried(roster, a.stages[i]))
      && (forall i :: 0 <= i < |a.stages| - 1 ==> a.stages[i].error.None?)
      && a.stages[0].prompt == ResumePrompt(resumeText)
      && (|a.stages| > 1 ==> a.stages[1].prompt == RolePrompt(targetRole))
      && (a.response.Success? <==> |a.stages| == 5 && a.stages[4].error.None?)
      && (a.response.Failure? ==>
            && a.stages[|a.stages| - 1].error.Some?
            && a.response.error == HttpError(500, AnalyzeErrorDetail(a.stages[|a.stages| - 1].error.value)))
    ensures
      var a := AnalyzeFull(roster, backend, render, resumeText, targetRole);
      var chain := AnalysisChain(roster, backend, render, resumeText, targetRole);
      && a.stages == StepRecords(roster, backend, render, resumeText, targetRole)
      && (a.response.Success? <==> chain.Success?)
      && (a.response.Failure? ==> a.response.error == HttpError(500, AnalyzeErrorDetail(chain.error)))
  {
  }

  /** A report holds exactly the five stage outputs, each decoded from the
      last model's reply to its stage, the later prompts were built from the
      earlier outputs, and the report satisfies every nested schema. */
  lemma AnalyzeFullReport(roster: seq<string>, backend: Backend, render: Render,
                          resumeText: string, targetRole: string)
    requires |roster| > 0
    requires AnalyzeFull(roster, backend, render, resumeText, targetRole).response.Success?
    ensures
      var a := AnalyzeFull(roster, backend, render, resumeText, targetRole);
      var rep := a.response.value;
      && |a.stages| == 5
      && ValidReport(rep)
      && RecordAnswered(backend, a.stages[0], DecodeResume, rep.resumeAnalysis)
      && RecordAnswered(backend, a.stages[1], DecodeRole, rep.roleRequirements)
      && RecordAnswered(backend, a.stages[2], DecodeGapAnalysis, SkillGapAnalysis(rep.skillGaps))
      && RecordAnswered(backend, a.stages[3], DecodeRoadmap, CareerRoadmap(rep.roadmap))
      && RecordAnswered(backend, a.stages[4], DecodeInterview, InterviewSimulation(rep.interviewQuestions))
      && a.stages[2].prompt == GapPrompt(render, rep.resumeAnalysis, rep.roleRequirements)
      && a.stages[3].prompt == RoadmapPrompt(render, SkillGapAnalysis(rep.skillGaps))
      && a.stages[4].prompt == InterviewPrompt(render, rep.roleRequirements, SkillGapAnalysis(rep.skillGaps))
      && AnalysisChain(roster, backend, render, resumeText, targetRole) == Success(rep)
  {
    var a := AnalyzeFull(roster, backend, render, resumeText, targetRole);
    var t := RunPipeline(roster, backend, render, resumeText, targetRole);
    var rep := a.response.value;
    assert forall i :: 0 <= i < 5 ==> Justifies(backend, render, a.stages[i], rep);
    assert Justifies(backend, render, a.stages[0], rep);
    assert Justifies(backend, render, a.stages[1], rep);
    assert Justifies(backend, render, a.stages[2], rep);
    assert Justifies(backend, render, a.stages[3], rep);
    assert Justifies(backend, render, a.stages[4], rep);
  }

  // parse_resume (main.py:89-120).

  /** The error raised for an upload whose text is blank. */
  const EmptyResumeMessage: string := "Resume text is empty"

  const NoTextDetail: string := "The uploaded file contains no text."

  const ParseCredentialDetail: string :=
    "OpenRouter API Key is invalid or missing. Please set YOUR_API_KEY in the .env file and restart the backend."

  /** The detail of the 400 response: a credential problem first, then any
      error that mentions "empty" in any letter case, else the error text. */
  function ParseErrorDetail(message: string): (d: string)
    ensures IsCredentialError(message) ==> d == ParseCredentialDetail
    ensures !IsCredentialError(message) && Contains(Lower(message), "empty") ==> d == NoTextDetail
    ensures !IsCredentialError(message) && !Contains(Lower(message), "empty") ==> d == message
  {
    if IsCredentialError(message) then ParseCredentialDetail
    else if Contains(Lower(message), "empty") then NoTextDetail
    else message
  }

  /** The body of a successful upload. */
  datatype ParsedResume = ParsedResume(resumeText: string, analysis: ResumeAnalysis)

  /** The response of `/parse-resume` and the models the resume stage tried. */
  datatype Upload = Upload(response: Result<ParsedResume, HttpError>, attempts: seq<string>)

  /** "empty" occurs in the lower-cased `message` at index `i`. */
  lemma EmptyAt(message: string, i: nat)
    requires i + 5 <= |message|
    requires message[i..i + 5] == "empty"
    ensures Contains(Lower(message), "empty")
  {
    var low := Lower(message);
    assert low[i..i + 5] == "empty" by {
      forall j | 0 <= j < 5
        ensures low[i + j] == "empty"[j]
      {
        assert low[i + j] == LowerChar(message[i + j]);
        assert message[i + j] == message[i..i + 5][j];
      }
    }
    assert OccursAt(low, "empty", i);
    ContainsIff(low, "empty");
  }

  lemma BlankMessageSaysEmpty()
    ensures Contains(Lower(EmptyResumeMessage), "empty")
  {
    assert EmptyResumeMessage[15..20] == "empty";
    EmptyAt(EmptyResumeMessage, 15);
  }

  /** A blank upload is reported as a file without text. */
  lemma BlankReadsAsNoText()
    ensures ParseErrorDetail(EmptyResumeMessage) == NoTextDetail
  {
    NoMarker(EmptyResumeMessage);
    BlankMessageSaysEmpty();
  }

  lemma EmptyResultSaysEmpty()
    ensures Contains(Lower(EmptyResultMessage), "empty")
  {
    assert EmptyResultMessage[18..23] == "empty";
    EmptyAt(EmptyResultMessage, 18);
  }

  /** An empty model output is reported the same way, as a file without text. */
  lemma EmptyResultReadsAsNoText()
    ensures ParseErrorDetail(EmptyResultMessage) == NoTextDetail
  {
    EmptyIsRetryable<ResumeAnalysis>();
    EmptyResultSaysEmpty();
  }

  /** The resume stage on an uploaded text; a failure becomes a 400 response. */
  function AnalyzeUpload(roster: seq<string>, backend: Backend, text: string): (u: Upload)
    requires |roster| > 0
    ensures 0 < |u.attempts| && u.attempts <= roster
    ensures u.response.Failure? ==> u.response.error.status == 400
    ensures
      var run := RunResumeAnalysis(roster, backend, text);
      && u.attempts == run.attempts
      && (u.response.Success? <==> run.result.Success?)
      && (run.result.Success? ==> u.response == Success(ParsedResume(text, run.result.value)))
      && (run.result.Failure? ==>
            && u.response == Failure(HttpError(400, ParseErrorDetail(run.result.error)))
            && (IsCredentialError(run.result.error) || u.attempts == roster))
    ensures u.response.Success? ==>
      && u.response.value.resumeText == text
      && Answered(backend, ResumeStage, u.attempts[|u.attempts| - 1], ResumePrompt(text),
                  DecodeResume, u.response.value.analysis)
  {
    var run := RunResumeAnalysis(roster, backend, text);
    match run.result
    case Success(analysis) => Upload(Success(ParsedResume(text, analysis)), run.attempts)
    case Failure(e) => Upload(Failure(HttpError(400, ParseErrorDetail(e))), run.attempts)
  }

  /** `parse_resume` after the text was extracted from the upload (or the
      extraction raised): a blank text is rejected before any model is called;
      otherwise the resume stage runs on the text exactly as extracted. Every
      failure is a 400 response. */
  function ParseResume(roster: seq<string>, backend: Backend, extracted: Result<string, string>): (u: Upload)
    requires |roster| > 0
    ensures u.response.Failure? ==> u.response.error.status == 400
    ensures extracted.Failure? ==> u == Upload(Failure(HttpError(400, ParseErrorDetail(extracted.error))), [])
    ensures extracted.Success? && AllSpace(extracted.value) ==>
      u == Upload(Failure(HttpError(400, NoTextDetail)), [])
    ensures extracted.Success? && !AllSpace(extracted.value) ==>
      var run := RunResumeAnalysis(roster, backend, extracted.value);
      && 0 < |u.attempts|
      && u.attempts <= roster
      && u.attempts == run.attempts
      && (u.response.Success? <==> run.result.Success?)
      && (run.result.Success? ==> u.response == Success(ParsedResume(extracted.value, run.result.value)))
      && (run.result.Failure? ==>
            && u.response == Failure(HttpError(400, ParseErrorDetail(run.result.error)))
            && (IsCredentialError(run.result.error) || u.attempts == roster))
      && (u.response.Success? ==>
            && u.response.value.resumeText == extracted.value
            && Answered(backend, ResumeStage, u.attempts[|u.attempts| - 1], ResumePrompt(extracted.value),
                        DecodeResume, u.response.value.analysis))
  {
    match extracted
    case Failure(e) => Upload(Failure(HttpError(400, ParseErrorDetail(e))), [])
    case Success(text) =>
      StripBlank(text);
      if Strip(text) == "" then
        BlankReadsAsNoText();
        Upload(Failure(HttpError(400, ParseErrorDetail(EmptyResumeMessage))), [])
      else
        AnalyzeUpload(roster, backend, text)
  }

  // Scenarios.

  /** A credential failure from the first model ends `/analyze-full` at the
      resume stage after that one attempt, with the fixed credential hint. */
  lemma AnalyzeUnauthorized(roster: seq<string>, backend: Backend, render: Render,
                            resumeText: string, targetRole: string, message: string)
    requires |roster| > 0
    requires backend(ResumeStage, roster[0], ResumePrompt(resumeText)) == Err(message)
    requires IsCredentialError(message)
    ensures
      var a := AnalyzeFull(roster, backend, render, resumeText, targetRole);
      && a.response == Failure(HttpError(500, AnalyzeCredentialDetail))
      && a.stages == [StageRecord(ResumeStage, ResumePrompt(resumeText), [roster[0]], Some(message))]
  {
    var call := StageCall(backend, ResumeStage, ResumePrompt(resumeText), DecodeResume);
    assert call(roster[0]) == Err(message);
    CredentialFailureStops(roster, call);
  }

  /** The same failure on `/parse-resume` gives the upload's credential hint. */
  lemma UploadUnauthorized(roster: seq<string>, backend: Backend, text: string, message: string)
    requires |roster| > 0 && !AllSpace(text)
    requires backend(ResumeStage, roster[0], ResumePrompt(text)) == Err(message)
    requires IsCredentialError(message)
    ensures ParseResume(roster, backend, Success(text)) ==
      Upload(Failure(HttpError(400, ParseCredentialDetail)), [roster[0]])
  {
    var call := StageCall(backend, ResumeStage, ResumePrompt(text), DecodeResume);
    assert call(roster[0]) == Err(message);
    CredentialFailureStops(roster, call);
    StripBlank(text);
  }

  /** When every model returns an empty output for a non-blank upload, all of
      them are tried and the response claims the file contains no text. */
  lemma UploadAllEmpty(roster: seq<string>, backend: Backend, text: string)
    requires |roster| > 0 && !AllSpace(text)
    requires forall i :: 0 <= i < |roster| ==> backend(ResumeStage, roster[i], ResumePrompt(text)) == Empty
    ensures ParseResume(roster, backend, Success(text)) == Upload(Failure(HttpError(400, NoTextDetail)), roster)
  {
    var call := StageCall(backend, ResumeStage, ResumePrompt(text), DecodeResume);
    forall i | 0 <= i < |roster|
      ensures Retryable(call(roster[i]))
    {
      assert call(roster[i]) == Empty;
      EmptyIsRetryable<ResumeAnalysis>();
    }
    AllFail(roster, call);
    EmptyResultReadsAsNoText();
    StripBlank(text);
  }

  /** An error text that names neither a credential problem nor anything
      "empty" reaches the client unchanged. */
  lemma ParseDetailPassesThrough(message: string)
    requires !IsCredentialError(message)
    requires 'e' !in message && 'E' !in message
    ensures ParseErrorDetail(message) == message
  {
    var low := Lower(message);
    forall j | 0 <= j < |low|
      ensures low[j] != 'e'
    {
      assert low[j] == LowerChar(message[j]);
      assert message[j] in message;
    }
    ContainsFirst(low, "empty");
  }

  /** A credential marker wins over "empty": the upload reports the credential
      hint even for an error text that also mentions emptiness. */
  lemma CredentialBeforeEmpty(message: string)
    requires IsCredentialError(message) && Contains(Lower(message), "empty")
    ensures ParseErrorDetail(message) == ParseCredentialDetail
    ensures ParseErrorDetail(message) != NoTextDetail
  {
  }

  /** A backend that answers every stage on `model` with fixed outputs,
      whatever the prompt, as the endpoint test's mocks do. */
  ghost predicate AnswersWith(backend: Backend, model: string, resume: ResumeAnalysis, role: RoleRequirements,
                              gaps: SkillGapAnalysis, roadmap: CareerRoadmap, interview: InterviewSimulation) {
    && (forall p :: backend(ResumeStage, model, p) == Ok(EncodeResume(resume)))
    && (forall p :: backend(RoleStage, model, p) == Ok(EncodeRole(role)))
    && (forall p :: backend(GapStage, model, p) == Ok(EncodeGapAnalysis(gaps)))
    && (forall p :: backend(RoadmapStage, model, p) == Ok(EncodeRoadmap(roadmap)))
    && (forall p :: backend(InterviewStage, model, p) == Ok(EncodeInterview(interview)))
  }

  lemma StubbedInterview(roster: seq<string>, backend: Backend, render: Render, resumeText: string,
                         targetRole: string, resume: ResumeAnalysis, role: RoleRequirements,
                         gaps: SkillGapAnalysis, roadmap: CareerRoadmap, interview: InterviewSimulation)
    requires |roster| > 0 && AnswersWith(backend, roster[0], resume, role, gaps, roadmap, interview)
    requires ValidQuestions(interview.questions)
    ensures Onwards(roster, backend, render, resumeText, targetRole, 4,
                    Outputs(Some(resume), Some(role), Some(gaps), Some(roadmap))).report ==
      Some(CareerCompanionReport(resume, role, gaps.gaps, roadmap.roadmap, interview.questions))
  {
    InterviewRoundTrip(interview);
    FirstModelAnswers(roster, backend, InterviewStage, InterviewPrompt(render, role, gaps), DecodeInterview,
                      EncodeInterview(interview), interview);
  }

  lemma StubbedRoadmap(roster: seq<string>, backend: Backend, render: Render, resumeText: string,
                       targetRole: string, resume: ResumeAnalysis, role: RoleRequirements,
                       gaps: SkillGapAnalysis, roadmap: CareerRoadmap, interview: InterviewSimulation)
    requires |roster| > 0 && AnswersWith(backend, roster[0], resume, role, gaps, roadmap, interview)
    requires ValidQuestions(interview.questions)
    ensures RoadmapOnwards(roster, backend, render, resumeText, targetRole, resume, role, gaps).report ==
      Some(CareerCompanionReport(resume, role, gaps.gaps, roadmap.roadmap, interview.questions))
  {
    RoadmapRoundTrip(roadmap);
    FirstModelAnswers(roster, backend, RoadmapStage, RoadmapPrompt(render, gaps), DecodeRoadmap,
                      EncodeRoadmap(roadmap), roadmap);
    StubbedInterview(roster, backend, render, resumeText, targetRole, resume, role, gaps, roadmap, interview);
  }

  lemma StubbedGaps(roster: seq<string>, backend: Backend, render: Render, resumeText: string,
                    targetRole: string, resume: ResumeAnalysis, role: RoleRequirements,
                    gaps: SkillGapAnalysis, roadmap: CareerRoadmap, interview: InterviewSimulation)
    requires |roster| > 0 && AnswersWith(backend, roster[0], resume, role, gaps, roadmap, interview)
    requires ValidGaps(gaps.gaps) && ValidQuestions(interview.questions)
    ensures GapOnwards(roster, backend, render, resumeText, targetRole, resume, role).report ==
      Some(CareerCompanionReport(resume, role, gaps.gaps, roadmap.roadmap, interview.questions))
  {
    GapAnalysisRoundTrip(gaps);
    FirstModelAnswers(roster, backend, GapStage, GapPrompt(render, resume, role), DecodeGapAnalysis,
                      EncodeGapAnalysis(gaps), gaps);
    StubbedRoadmap(roster, backend, render, resumeText, targetRole, resume, role, gaps, roadmap, interview);
  }

  lemma StubbedRole(roster: seq<string>, backend: Backend, render: Render, resumeText: string,
                    targetRole: string, resume: ResumeAnalysis, role: RoleRequirements,
                    gaps: SkillGapAnalysis, roadmap: CareerRoadmap, interview: InterviewSimulation)
    requires |roster| > 0 && AnswersWith(backend, roster[0], resume, role, gaps, roadmap, interview)
    requires ValidGaps(gaps.gaps) && ValidQuestions(interview.questions)
    ensures RoleOnwards(roster, backend, render, resumeText, targetRole, resume).report ==
      Some(CareerCompanionReport(resume, role, gaps.gaps, roadmap.roadmap, interview.questions))
  {
    RoleRoundTrip(role);
    FirstModelAnswers(roster, backend, RoleStage, RolePrompt(targetRole), DecodeRole, EncodeRole(role), role);
    StubbedGaps(roster, backend, render, resumeText, targetRole, resume, role, gaps, roadmap, interview);
  }

  lemma StubbedResume(roster: seq<string>, backend: Backend, render: Render, resumeText: string,
                      targetRole: string, resume: ResumeAnalysis, role: RoleRequirements,
                      gaps: SkillGapAnalysis, roadmap: CareerRoadmap, interview: InterviewSimulation)
    requires |roster| > 0 && AnswersWith(backend, roster[0], resume, role, gaps, roadmap, interview)
    requires ValidGaps(gaps.gaps) && ValidQuestions(interview.questions)
    ensures ResumeOnwards(roster, backend, render, resumeText, targetRole).report ==
      Some(CareerCompanionReport(resume, role, gaps.gaps, roadmap.roadmap, interview.questions))
  {
    ResumeRoundTrip(resume);
    FirstModelAnswers(roster, backend, ResumeStage, ResumePrompt(resumeText), DecodeResume,
                      EncodeResume(resume), resume);
    StubbedRole(roster, backend, render, resumeText, targetRole, resume, role, gaps, roadmap, interview);
  }

  /** With every stage answered on the first model, `/analyze-full` returns
      exactly the five outputs, assembled into one report. */
  lemma StubbedAnalysis(roster: seq<string>, backend: Backend, render: Render, resumeText: string,
                        targetRole: string, resume: ResumeAnalysis, role: RoleRequirements,
                        gaps: SkillGapAnalysis, roadmap: CareerRoadmap, interview: InterviewSimulation)
    requires |roster| > 0 && AnswersWith(backend, roster[0], resume, role, gaps, roadmap, interview)
    requires ValidGaps(gaps.gaps) && ValidQuestions(interview.questions)
    ensures AnalyzeFull(roster, backend, render, resumeText, targetRole).response ==
      Success(CareerCompanionReport(resume, role, gaps.gaps, roadmap.roadmap, interview.questions))
  {
    StubbedResume(roster, backend, render, resumeText, targetRole, resume, role, gaps, roadmap, interview);
  }

  // The endpoint test of backend/tests/test_main.py.

  const JohnDoe: ResumeAnalysis :=
    ResumeAnalysis("John Doe", 5, ["Python", "FastAPI"], ["AI Agent"], ["Coding"], ["None"])

  const CoolRole: RoleRequirements :=
    RoleRequirements(["Python", "Cloud"], "5+ years", ["Docker"], "A cool role")

  /** The mocked stage functions: fixed outputs on every model for every prompt. */
  function Mock(resume: ResumeAnalysis, role: RoleRequirements, gaps: SkillGapAnalysis,
                roadmap: CareerRoadmap, interview: InterviewSimulation): Backend {
    (stage: Stage, model: string, prompt: string) =>
      match stage
      case ResumeStage => Ok(EncodeResume(resume))
      case RoleStage => Ok(EncodeRole(role))
      case GapStage => Ok(EncodeGapAnalysis(gaps))
      case RoadmapStage => Ok(EncodeRoadmap(roadmap))
      case InterviewStage => Ok(EncodeInterview(interview))
  }

  /** With the mocks of the endpoint test, the request succeeds with the two
      fixtures and three empty lists, the resume analysis names John Doe, and
      the body carries the role requirements and the skill gaps. */
  lemma MockedAnalyzeFull(roster: seq<string>, render: Render)
    requires |roster| > 0
    ensures
      var backend := Mock(JohnDoe, CoolRole, SkillGapAnalysis([]), CareerRoadmap([]), InterviewSimulation([]));
      var a := AnalyzeFull(roster, backend, render, "Sample resume text", "Software Engineer");
      && a.response == Success(CareerCompanionReport(JohnDoe, CoolRole, [], [], []))
      && a.response.value.resumeAnalysis.name == "John Doe"
      && "role_requirements" in EncodeReport(a.response.value).fields
      && "skill_gaps" in EncodeReport(a.response.value).fields
  {
    var backend := Mock(JohnDoe, CoolRole, SkillGapAnalysis([]), CareerRoadmap([]), InterviewSimulation([]));
    StubbedAnalysis(roster, backend, render, "Sample resume text", "Software Engineer",
                    JohnDoe, CoolRole, SkillGapAnalysis([]), CareerRoadmap([]), InterviewSimulation([]));
  }
}

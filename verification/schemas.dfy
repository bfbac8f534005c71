/** The structured output of each pipeline stage (`backend/models.py`), the
    checks the output schema applies to a model's JSON reply, and `model_dump`. */
module Schemas {
  import opened Wrappers
  import opened Json

  // Stage 1: resume analysis.
  datatype ResumeAnalysis = ResumeAnalysis(
    name: string,
    yearsOfExperience: int,
    skills: seq<string>,
    projects: seq<string>,
    strengths: seq<string>,
    weaknesses: seq<string>)

  // Stage 2: target role interpretation.
  datatype RoleRequirements = RoleRequirements(
    requiredSkills: seq<string>,
    expectedExperience: string,
    commonTools: seq<string>,
    roleSummary: string)

  // Stage 3: skill gap reasoning.
  datatype SkillGap = SkillGap(
    skillName: string,
    currentLevel: int,
    requiredLevel: int,
    priority: string,
    reasoning: string)

  datatype SkillGapAnalysis = SkillGapAnalysis(gaps: seq<SkillGap>)

  // Stage 4: career roadmap.
  datatype RoadmapStep = RoadmapStep(
    weekNumber: int,
    learningGoal: string,
    recommendedResources: seq<string>,
    estimatedHours: int)

  datatype CareerRoadmap = CareerRoadmap(roadmap: seq<RoadmapStep>)

  // Stage 5: interview simulation.
  datatype InterviewQuestion = InterviewQuestion(
    question: string,
    difficulty: string,
    expectedAnswerPoints: seq<string>)

  datatype InterviewSimulation = InterviewSimulation(questions: seq<InterviewQuestion>)

  /** The combined response of the full analysis. */
  datatype CareerCompanionReport = CareerCompanionReport(
    resumeAnalysis: ResumeAnalysis,
    roleRequirements: RoleRequirements,
    skillGaps: seq<SkillGap>,
    roadmap: seq<RoadmapStep>,
    interviewQuestions: seq<InterviewQuestion>)

  const Priorities: set<string> := {"low", "medium", "high"}
  const Difficulties: set<string> := {"easy", "medium", "hard"}

  /** Field constraints of `SkillGap`: both levels in [0, 5] (with no order
      between them) and a priority from the allowed literals. */
  predicate ValidSkillGap(g: SkillGap) {
    && 0 <= g.currentLevel <= 5
    && 0 <= g.requiredLevel <= 5
    && g.priority in Priorities
  }

  predicate ValidGaps(gaps: seq<SkillGap>) {
    forall k :: 0 <= k < |gaps| ==> ValidSkillGap(gaps[k])
  }

  predicate ValidQuestion(q: InterviewQuestion) {
    q.difficulty in Difficulties
  }

  predicate ValidQuestions(qs: seq<InterviewQuestion>) {
    forall k :: 0 <= k < |qs| ==> ValidQuestion(qs[k])
  }

  /** A report is valid when every nested value satisfies its own schema;
      resume, role and roadmap entries carry no constraint beyond their types. */
  predicate ValidReport(r: CareerCompanionReport) {
    ValidGaps(r.skillGaps) && ValidQuestions(r.interviewQuestions)
  }

  // Typed members of a JSON object.

  function StrMember(v: Value, key: string): Option<string> {
    var m :- Member(v, key);
    AsStr(m)
  }

  function IntMember(v: Value, key: string): Option<int> {
    var m :- Member(v, key);
    AsInt(m)
  }

  function StrListMember(v: Value, key: string): Option<seq<string>> {
    var m :- Member(v, key);
    AsStrList(m)
  }

  function ListMember<T>(v: Value, key: string, decode: Value -> Option<T>): Option<seq<T>> {
    var m :- Member(v, key);
    if m.Arr? then DecodeAll(m.items, decode) else None
  }

  // ResumeAnalysis

  const ResumeKeys: set<string> :=
    {"name", "years_of_experience", "skills", "projects", "strengths", "weaknesses"}

  function EncodeResume(r: ResumeAnalysis): Value {
    Obj(map[
      "name" := Str(r.name),
      "years_of_experience" := Int(r.yearsOfExperience),
      "skills" := StrList(r.skills),
      "projects" := StrList(r.projects),
      "strengths" := StrList(r.strengths),
      "weaknesses" := StrList(r.weaknesses)])
  }

  function DecodeResume(v: Value): (r: Option<ResumeAnalysis>)
    ensures r.Some? ==> forall key :: key in ResumeKeys ==> Member(v, key).Some?
  {
    var name :- StrMember(v, "name");
    var years :- IntMember(v, "years_of_experience");
    var skills :- StrListMember(v, "skills");
    var projects :- StrListMember(v, "projects");
    var strengths :- StrListMember(v, "strengths");
    var weaknesses :- StrListMember(v, "weaknesses");
    Some(ResumeAnalysis(name, years, skills, projects, strengths, weaknesses))
  }

  /** Every resume analysis survives `model_dump` followed by validation. */
  lemma ResumeRoundTrip(r: ResumeAnalysis)
    ensures DecodeResume(EncodeResume(r)) == Some(r)
  {
    StrListRoundTrip(r.skills);
    StrListRoundTrip(r.projects);
    StrListRoundTrip(r.strengths);
    StrListRoundTrip(r.weaknesses);
  }

  // RoleRequirements

  const RoleKeys: set<string> :=
    {"required_skills", "expected_experience", "common_tools", "role_summary"}

  function EncodeRole(r: RoleRequirements): Value {
    Obj(map[
      "required_skills" := StrList(r.requiredSkills),
      "expected_experience" := Str(r.expectedExperience),
      "common_tools" := StrList(r.commonTools),
      "role_summary" := Str(r.roleSummary)])
  }

  function DecodeRole(v: Value): (r: Option<RoleRequirements>)
    ensures r.Some? ==> forall key :: key in RoleKeys ==> Member(v, key).Some?
  {
    var skills :- StrListMember(v, "required_skills");
    var experience :- StrMember(v, "expected_experience");
    var tools :- StrListMember(v, "common_tools");
    var summary :- StrMember(v, "role_summary");
    Some(RoleRequirements(skills, experience, tools, summary))
  }

  lemma RoleRoundTrip(r: RoleRequirements)
    ensures DecodeRole(EncodeRole(r)) == Some(r)
  {
    StrListRoundTrip(r.requiredSkills);
    StrListRoundTrip(r.commonTools);
  }

  // SkillGap and SkillGapAnalysis

  function EncodeSkillGap(g: SkillGap): Value {
    Obj(map[
      "skill_name" := Str(g.skillName),
      "current_level" := Int(g.currentLevel),
      "required_level" := Int(g.requiredLevel),
      "priority" := Str(g.priority),
      "reasoning" := Str(g.reasoning)])
  }

  function DecodeSkillGap(v: Value): (r: Option<SkillGap>)
    ensures r.Some? ==> ValidSkillGap(r.value)
  {
    var name :- StrMember(v, "skill_name");
    var current :- IntMember(v, "current_level");
    var required :- IntMember(v, "required_level");
    var priority :- StrMember(v, "priority");
    var reasoning :- StrMember(v, "reasoning");
    if 0 <= current <= 5 && 0 <= required <= 5 && priority in Priorities
    then Some(SkillGap(name, current, required, priority, reasoning))
    else None
  }

  /** A skill gap survives `model_dump` and validation exactly when it is valid. */
  lemma SkillGapRoundTrip(g: SkillGap)
    ensures DecodeSkillGap(EncodeSkillGap(g)) == Some(g) <==> ValidSkillGap(g)
  {
  }

  function EncodeGapAnalysis(a: SkillGapAnalysis): Value {
    Obj(map["gaps" := Arr(EncodeAll(a.gaps, EncodeSkillGap))])
  }

  function DecodeGapAnalysis(v: Value): (r: Option<SkillGapAnalysis>)
    ensures r.Some? ==> ValidGaps(r.value.gaps)
  {
    var gaps :- ListMember(v, "gaps", DecodeSkillGap);
    Some(SkillGapAnalysis(gaps))
  }

  lemma GapAnalysisRoundTrip(a: SkillGapAnalysis)
    ensures DecodeGapAnalysis(EncodeGapAnalysis(a)) == Some(a) <==> ValidGaps(a.gaps)
  {
    GapsRoundTrip(a.gaps);
  }

  // RoadmapStep and CareerRoadmap

  const RoadmapStepKeys: set<string> :=
    {"week_number", "learning_goal", "recommended_resources", "estimated_hours"}

  function EncodeRoadmapStep(s: RoadmapStep): Value {
    Obj(map[
      "week_number" := Int(s.weekNumber),
      "learning_goal" := Str(s.learningGoal),
      "recommended_resources" := StrList(s.recommendedResources),
      "estimated_hours" := Int(s.estimatedHours)])
  }

  function DecodeRoadmapStep(v: Value): (r: Option<RoadmapStep>)
    ensures r.Some? ==> forall key :: key in RoadmapStepKeys ==> Member(v, key).Some?
  {
    var week :- IntMember(v, "week_number");
    var goal :- StrMember(v, "learning_goal");
    var resources :- StrListMember(v, "recommended_resources");
    var hours :- IntMember(v, "estimated_hours");
    Some(RoadmapStep(week, goal, resources, hours))
  }

  /** Week numbers and hours are plain integers: every step, negative or
      zero values included, survives `model_dump` and validation. */
  lemma RoadmapStepRoundTrip(s: RoadmapStep)
    ensures DecodeRoadmapStep(EncodeRoadmapStep(s)) == Some(s)
  {
    StrListRoundTrip(s.recommendedResources);
  }

  function EncodeRoadmap(r: CareerRoadmap): Value {
    Obj(map["roadmap" := Arr(EncodeAll(r.roadmap, EncodeRoadmapStep))])
  }

  function DecodeRoadmap(v: Value): (r: Option<CareerRoadmap>)
    ensures r.Some? ==> Member(v, "roadmap").Some? && Member(v, "roadmap").value.Arr?
    ensures r.Some? ==> var items := Member(v, "roadmap").value.items;
      && |r.value.roadmap| == |items|
      && forall k :: 0 <= k < |items| ==> DecodeRoadmapStep(items[k]) == Some(r.value.roadmap[k])
  {
    var steps :- ListMember(v, "roadmap", DecodeRoadmapStep);
    Some(CareerRoadmap(steps))
  }

  lemma RoadmapRoundTrip(r: CareerRoadmap)
    ensures DecodeRoadmap(EncodeRoadmap(r)) == Some(r)
  {
    StepsRoundTrip(r.roadmap);
  }

  // InterviewQuestion and InterviewSimulation

  function EncodeQuestion(q: InterviewQuestion): Value {
    Obj(map[
      "question" := Str(q.question),
      "difficulty" := Str(q.difficulty),
      "expected_answer_points" := StrList(q.expectedAnswerPoints)])
  }

  function DecodeQuestion(v: Value): (r: Option<InterviewQuestion>)
    ensures r.Some? ==> ValidQuestion(r.value)
  {
    var question :- StrMember(v, "question");
    var difficulty :- StrMember(v, "difficulty");
    var points :- StrListMember(v, "expected_answer_points");
    if difficulty in Difficulties
    then Some(InterviewQuestion(question, difficulty, points))
    else None
  }

  lemma QuestionRoundTrip(q: InterviewQuestion)
    ensures DecodeQuestion(EncodeQuestion(q)) == Some(q) <==> ValidQuestion(q)
  {
    StrListRoundTrip(q.expectedAnswerPoints);
  }

  function EncodeInterview(s: InterviewSimulation): Value {
    Obj(map["questions" := Arr(EncodeAll(s.questions, EncodeQuestion))])
  }

  function DecodeInterview(v: Value): (r: Option<InterviewSimulation>)
    ensures r.Some? ==> ValidQuestions(r.value.questions)
  {
    var questions :- ListMember(v, "questions", DecodeQuestion);
    Some(InterviewSimulation(questions))
  }

  lemma InterviewRoundTrip(s: InterviewSimulation)
    ensures DecodeInterview(EncodeInterview(s)) == Some(s) <==> ValidQuestions(s.questions)
  {
    QuestionsRoundTrip(s.questions);
  }

  lemma GapsRoundTrip(gaps: seq<SkillGap>)
    ensures DecodeAll(EncodeAll(gaps, EncodeSkillGap), DecodeSkillGap) == Some(gaps) <==> ValidGaps(gaps)
  {
    DecodeEncodeAll(gaps, EncodeSkillGap, DecodeSkillGap);
    forall k | 0 <= k < |gaps| {
      SkillGapRoundTrip(gaps[k]);
    }
  }

  lemma StepsRoundTrip(steps: seq<RoadmapStep>)
    ensures DecodeAll(EncodeAll(steps, EncodeRoadmapStep), DecodeRoadmapStep) == Some(steps)
  {
    forall k | 0 <= k < |steps| {
      RoadmapStepRoundTrip(steps[k]);
    }
    DecodeEncodeAll(steps, EncodeRoadmapStep, DecodeRoadmapStep);
  }

  lemma QuestionsRoundTrip(qs: seq<InterviewQuestion>)
    ensures DecodeAll(EncodeAll(qs, EncodeQuestion), DecodeQuestion) == Some(qs) <==> ValidQuestions(qs)
  {
    DecodeEncodeAll(qs, EncodeQuestion, DecodeQuestion);
    forall k | 0 <= k < |qs| {
      QuestionRoundTrip(qs[k]);
    }
  }

  // CareerCompanionReport

  /** The JSON body of a successful full analysis. */
  function EncodeReport(r: CareerCompanionReport): Value {
    Obj(map[
      "resume_analysis" := EncodeResume(r.resumeAnalysis),
      "role_requirements" := EncodeRole(r.roleRequirements),
      "skill_gaps" := Arr(EncodeAll(r.skillGaps, EncodeSkillGap)),
      "roadmap" := Arr(EncodeAll(r.roadmap, EncodeRoadmapStep)),
      "interview_questions" := Arr(EncodeAll(r.interviewQuestions, EncodeQuestion))])
  }

  /** Validation of a report body: every part is required and validated
      against its own schema. */
  function DecodeReport(v: Value): (r: Option<CareerCompanionReport>)
    ensures r.Some? ==> ValidReport(r.value)
  {
    var resumeValue :- Member(v, "resume_analysis");
    var resume :- DecodeResume(resumeValue);
    var roleValue :- Member(v, "role_requirements");
    var role :- DecodeRole(roleValue);
    var gaps :- ListMember(v, "skill_gaps", DecodeSkillGap);
    var roadmap :- ListMember(v, "roadmap", DecodeRoadmapStep);
    var questions :- ListMember(v, "interview_questions", DecodeQuestion);
    Some(CareerCompanionReport(resume, role, gaps, roadmap, questions))
  }

  /** A report survives `model_dump` and validation exactly when its gaps and
      questions are valid: the report adds no constraint of its own. */
  lemma ReportRoundTrip(r: CareerCompanionReport)
    ensures DecodeReport(EncodeReport(r)) == Some(r) <==> ValidReport(r)
  {
    if ValidReport(r) {
      var v := EncodeReport(r);
      ReportMembers(r);
      ResumeRoundTrip(r.resumeAnalysis);
      RoleRoundTrip(r.roleRequirements);
      GapsRoundTrip(r.skillGaps);
      StepsRoundTrip(r.roadmap);
      QuestionsRoundTrip(r.interviewQuestions);
      assert ListMember(v, "skill_gaps", DecodeSkillGap) == Some(r.skillGaps);
      assert ListMember(v, "roadmap", DecodeRoadmapStep) == Some(r.roadmap);
      assert ListMember(v, "interview_questions", DecodeQuestion) == Some(r.interviewQuestions);
    }
  }

  lemma ReportMembers(r: CareerCompanionReport)
    ensures Member(EncodeReport(r), "resume_analysis") == Some(EncodeResume(r.resumeAnalysis))
    ensures Member(EncodeReport(r), "role_requirements") == Some(EncodeRole(r.roleRequirements))
    ensures Member(EncodeReport(r), "skill_gaps") == Some(Arr(EncodeAll(r.skillGaps, EncodeSkillGap)))
    ensures Member(EncodeReport(r), "roadmap") == Some(Arr(EncodeAll(r.roadmap, EncodeRoadmapStep)))
    ensures Member(EncodeReport(r), "interview_questions") == Some(Arr(EncodeAll(r.interviewQuestions, EncodeQuestion)))
  {
  }

  /** The two levels of a gap are bounded independently: a candidate may be
      above the required level, and the bounds and literals are enforced. */
  lemma LevelsUnordered()
    ensures ValidSkillGap(SkillGap("Python", 5, 0, "low", ""))
    ensures ValidSkillGap(SkillGap("Docker", 0, 5, "high", ""))
    ensures !ValidSkillGap(SkillGap("Go", 6, 3, "medium", ""))
    ensures !ValidSkillGap(SkillGap("Go", 2, -1, "medium", ""))
    ensures !ValidSkillGap(SkillGap("Go", 2, 3, "urgent", ""))
    ensures !ValidQuestion(InterviewQuestion("Why?", "expert", []))
  {
  }

  /** Empty gap, roadmap and question lists are allowed in a report. */
  lemma EmptyListsValid(resume: ResumeAnalysis, role: RoleRequirements)
    ensures ValidReport(CareerCompanionReport(resume, role, [], [], []))
    ensures DecodeReport(EncodeReport(CareerCompanionReport(resume, role, [], [], [])))
         == Some(CareerCompanionReport(resume, role, [], [], []))
  {
    ReportRoundTrip(CareerCompanionReport(resume, role, [], [], []));
  }
}

# Career Companion: failover agents and the analysis pipeline in Dafny

Career Companion is a FastAPI backend. It turns a resume and a target role into
a career report using five LLM agents:

1. a resume analyzer;
2. a role interpreter;
3. a skill-gap reasoner;
4. a roadmap planner;
5. an interview simulator.

Each agent has a pydantic output schema. Every agent call goes through
`run_agent_with_failover`, which tries the models of a configured roster in
order. An empty output counts as a failure. A credential error ("401" or
"Unauthorized" in the error text) stops the loop at once. Otherwise the last
error is re-raised once every model has failed. `/analyze-full` chains the five
stages and either returns a `CareerCompanionReport` or fails as a whole with
status 500. `/parse-resume` runs the resume stage on an uploaded text and
reports every failure with status 400, after rewriting some error texts.

The model is functional. The LLM behind `agent.run` is an oracle
`Backend = (Stage, model, prompt) -> Outcome<Value>`, where the outcome is a
JSON output, an empty output or an error text. How an f-string renders a
`model_dump()` dictionary is a parameter `Render`. Both endpoints are pure
functions that return the HTTP response together with the trace of what they
called.

`/analyze-full` is modelled twice. The trace-building pipeline (`Api.Onwards`
and the per-stage functions) records each stage call. The reference
definition `Api.AnalysisChain` writes the `try` block directly over the five
`run_*` calls, with the first error passed on the way an uncaught exception
is. `Api.PipelineVerdict` proves that the two end the same way, and
`Api.StepRecords` lists the records the pipeline must make.

Modules, one per file:

- `Wrappers` (`wrappers.dfy`): `Option` and `Result`.
- `Text` (`text.dfy`): the Python string operations the core uses: `isspace`, `strip`, `in`, and `lower` on ASCII.
- `Config` (`config.dfy`): `Settings.model_ids` and the `model_list` property.
- `Json` (`json.dfy`): JSON values, and list encoding and decoding.
- `Schemas` (`schemas.dfy`): the pydantic classes of `models.py`, with their validation (`Decode*`) and `model_dump` (`Encode*`).
- `Failover` (`failover.dfy`): `run_agent_with_failover`.
- `Agents` (`agents.dfy`): the prompts and the five `run_*` functions.
- `Api` (`api.dfy`): `analyze_full`, `parse_resume` and the endpoint test's scenario.

## Model

| member | source | states |
|---|---|---|
| Failover.Loop | backend/agents.py:65-87 | The loop over the models still to try. The attempts are a prefix of those models. Every attempt before the last failed retryably. The result is the last attempt's output, or its error when that error names a credential or no model is left. With no model left it re-raises the previous error. |
| Failover.RunWithFailover | backend/agents.py:61-87 | Over a non-empty roster: the models tried are a non-empty prefix of the roster, in order. Every model before the last one tried failed without a credential marker. Success carries the last model's output. Failure carries its error text, or the empty-result message, and happens only on a credential error or after the whole roster. |
| Failover.FailoverSpecUnique | backend/agents.py:61-87 | The declarative description determines the run: any run satisfying it is the one the loop computes. |
| Failover.SucceedsAt | backend/agents.py:66-84 | If models 0..k-1 fail retryably and model k answers, exactly k+1 models are tried and model k's output is returned. |
| Failover.CredentialFailureStops | backend/agents.py:77-83 | A credential error on the first model ends the run after one attempt with that error, whatever the roster's length. |
| Failover.AllFail | backend/agents.py:77-87 | If every model fails retryably, the whole roster is tried and the error is the last model's. |
| Failover.CredentialMarkers | backend/agents.py:82 | An error text counts as a credential error exactly when "401" or "Unauthorized" occurs in it at some index. |
| Failover.NoMarker | backend/agents.py:82 | A text without '4' and 'U' never counts as a credential error. |
| Failover.EmptyIsRetryable | backend/agents.py:73-74 | An empty output becomes the "Model returned an empty result" error, which is retried on the next model. |
| Failover.ServerErrorIsRetryable | backend/agents.py:77-84 | A plain "500 Server Error" is retried. |
| Failover.AnswerOnThird | backend/agents.py:66-84 | Two retryable failures, then an answer: three attempts, and the third output comes back. |
| Failover.ServerErrorThenEmptyThenAnswer | backend/agents.py:66-84 | A server error, then an empty output, then an answer: the answer comes back after three attempts. |
| Failover.UnauthorizedFirst | backend/agents.py:81-83 | "401 Unauthorized" from the first of two models fails the run after one attempt, and the second model is never called. |
| Agents.RunStage | backend/agents.py:61-87 | One stage's failover run, where each attempt is the backend reply checked against the stage's schema. The attempts are a non-empty prefix of the roster. Over the schema-checked replies, every model before the last one tried failed retryably, and a failure is the last model's error text (or the empty-result or rejected-output message). A success is the decoded output of the last model tried for exactly this prompt. A failure names a credential or comes after the whole roster. |
| Agents.FirstModelAnswers | backend/agents.py:66-76 | When the first model's reply passes the schema, the stage ends after one attempt with the decoded value. |
| Agents.Validate | backend/agents.py:70-76 | A reply is accepted exactly when it is an output that validates against the schema, and then as the validated value. An empty output stays empty, an error keeps its text, and a rejected output becomes a retryable error. |
| Agents.RejectionIsRetryable | backend/agents.py:77-84 | The error raised for an output that fails validation carries no credential marker, so the next model is tried. |
| Agents.ResumePromptParts | backend/agents.py:92 | The resume prompt is "Resume Text:\n" followed by the whole text, unchanged. |
| Agents.RolePromptParts | backend/agents.py:95 | The role prompt is "Target Role: " followed by the whole role name, unchanged. |
| Agents.RoadmapPromptParts | backend/agents.py:102-103 | The roadmap prompt is "Skill Gaps: " followed by the whole rendered gap analysis. |
| Agents.InterviewPromptCarriesInputs | backend/agents.py:105-107 | The interview prompt contains both the rendered role requirements and the rendered gap analysis. |
| Agents.PrefixedPromptInjective | backend/agents.py:91-95 | A fixed prefix swallows no input: equal prompts mean equal inputs. |
| Agents.ResumePromptInjective | backend/agents.py:91-92 | Different resume texts give different resume prompts. |
| Agents.RolePromptInjective | backend/agents.py:94-95 | Different role names give different role prompts. |
| Agents.ContainsMiddle | backend/agents.py:98 | A string embedded in an f-string is found by `in`. |
| Agents.GapPromptCarriesInputs | backend/agents.py:97-99 | The skill-gap prompt contains both the rendered resume analysis and the rendered role requirements. |
| Agents.RunResumeAnalysis | backend/agents.py:91-92 | The resume stage sends "Resume Text:\n" followed by the text and settles as a stage run does: a prefix of the roster is tried, every model before the last failed retryably, a success is the last model's decoded reply, and a failure is the last model's error text, raised on a credential error or after the whole roster. |
| Agents.RunRoleInterpretation | backend/agents.py:94-95 | The role stage sends "Target Role: " followed by the role name and settles: every model before the last tried failed retryably, and a failure is the last model's error text, on a credential error or after the whole roster. |
| Agents.RunSkillGapAnalysis | backend/agents.py:97-99 | The gap stage sends both dumps and settles: every model before the last tried failed retryably, a failure is the last model's error text, and any gaps returned have levels in [0,5] and an allowed priority. |
| Agents.RunRoadmapGeneration | backend/agents.py:101-103 | The roadmap stage sends "Skill Gaps: " followed by the dumped gap analysis and settles: every model before the last tried failed retryably, and a failure is the last model's error text, on a credential error or after the whole roster. |
| Agents.RunInterviewSimulation | backend/agents.py:105-107 | The interview stage sends the role and gap dumps and settles: every model before the last tried failed retryably, a failure is the last model's error text, and any questions returned have an allowed difficulty. |
| Config.Split | backend/config.py:17 | `split(",")` yields at least one segment and no segment holds a comma. |
| Config.SplitCount | backend/config.py:17 | There is exactly one segment more than there are commas. |
| Config.JoinSplit | backend/config.py:17 | Joining the segments with commas restores the text: splitting loses nothing. |
| Config.SplitAppend | backend/config.py:17 | Splitting at a comma splits the segments there and nowhere else. |
| Config.SplitNoComma | backend/config.py:17 | A comma-free text is one segment. |
| Config.SplitJoin | backend/config.py:17 | Comma-free segments survive a join followed by a split. |
| Config.CleanShape | backend/config.py:17 | The comprehension keeps only non-empty, stripped segments. |
| Config.CleanKeepsOut | backend/config.py:17 | The comprehension introduces no character absent from every segment. |
| Config.CleanLength | backend/config.py:17 | The comprehension never lengthens the list. |
| Config.CleanAppend | backend/config.py:17 | The comprehension treats segments independently and keeps their order. |
| Config.StripAll | backend/config.py:17 | Each segment stripped, blank ones included: one result per segment. |
| Config.CleanKeepsDuplicates | backend/config.py:17 | Every non-empty identifier occurs as often in the result as among the stripped segments. Only blanks are dropped, and duplicates are kept. |
| Config.CleanKeepsHead | backend/config.py:17 | A clean identifier at the head is kept as it is. |
| Config.CleanClean | backend/config.py:17 | Identifiers that are already clean pass through the comprehension unchanged. |
| Config.ModelList | backend/config.py:15-17 | Every roster identifier is non-empty, has no surrounding whitespace and contains no comma. |
| Config.ModelListBound | backend/config.py:15-17 | The roster has at most one identifier more than the text has commas. |
| Config.ModelListAppend | backend/config.py:15-17 | The roster of `a,b` is the roster of `a` followed by that of `b`: text order is kept. |
| Config.ModelListSegment | backend/config.py:15-17 | A comma-free segment contributes nothing if it is blank, otherwise its stripped text. |
| Config.ModelListKeepsDuplicates | backend/config.py:15-17 | The roster keeps repeated identifiers as often as they are written. |
| Config.ModelListIdempotent | backend/config.py:15-17 | Re-parsing the comma-joined roster gives the same roster. |
| Config.ModelListOfJoin | backend/config.py:15-17 | Clean, comma-free identifiers joined by commas parse back to themselves. |
| Config.JoinFour | backend/config.py:12 | Four identifiers joined by commas, written out. |
| Config.DefaultsAreClean | backend/config.py:12 | Each of the four default identifiers is non-empty, stripped and comma-free. |
| Config.LlamaIsClean | backend/config.py:12 | The first default identifier is a clean roster entry. |
| Config.GeminiIsClean | backend/config.py:12 | The second default identifier is a clean roster entry. |
| Config.MistralIsClean | backend/config.py:12 | The third default identifier is a clean roster entry. |
| Config.GemmaIsClean | backend/config.py:12 | The fourth default identifier is a clean roster entry. |
| Config.DefaultModelList | backend/config.py:10-17 | The default `model_ids` gives exactly four models, in the order written, so the roster is non-empty. |
| Text.StripStart | backend/config.py:17 | `lstrip` leaves a suffix, drops only whitespace, and leaves no leading whitespace. |
| Text.StripEnd | backend/config.py:17 | `rstrip` leaves a prefix, drops only whitespace, and leaves no trailing whitespace. |
| Text.Strip | backend/config.py:17 | `strip` leaves no whitespace at either end. |
| Text.StripSlice | backend/config.py:17 | `strip` leaves the middle slice between two all-whitespace margins; it is empty exactly for all-whitespace text. |
| Text.StripBlank | backend/main.py:104-105 | `not text.strip()` holds exactly when the text is all whitespace. |
| Text.StripStripped | backend/config.py:17 | Stripping a stripped string changes nothing. |
| Text.StripKeepsOut | backend/config.py:17 | Stripping introduces no character. |
| Text.Lower | backend/main.py:117 | ASCII `lower()`: the length is kept, no capital letter remains, and each character is either kept or is a capital letter moved 32 code points down the table to its lower-case form. |
| Text.ContainsIff | backend/agents.py:82 | The `in` scan finds a pattern exactly when it occurs at some index. |
| Text.ContainsFirst | backend/agents.py:82 | A text lacking a pattern's first character does not contain the pattern. |
| Json.DecodeAll | backend/models.py:29 | A list validates iff every item does. The result has one value per item, in order. |
| Json.EncodeAll | backend/models.py:29 | Dumping a list gives one value per element. |
| Json.EncodeAllAt | backend/models.py:29 | Dumping a list puts element k's dump at position k. |
| Json.DecodeEncodeAll | backend/models.py:29 | A dumped list validates back to itself exactly when every element round-trips. |
| Json.StrListRoundTrip | backend/models.py:8-11 | A `List[str]` survives dump and validation. |
| Schemas.DecodeResume | backend/models.py:5-11 | A resume analysis validates only when all six fields are present. |
| Schemas.ResumeRoundTrip | backend/models.py:5-11 | Every resume analysis survives `model_dump` and validation. |
| Schemas.DecodeRole | backend/models.py:14-18 | Role requirements validate only when all four fields are present. |
| Schemas.RoleRoundTrip | backend/models.py:14-18 | Every role requirement survives `model_dump` and validation. |
| Schemas.DecodeSkillGap | backend/models.py:21-26 | A validated gap has both levels in [0,5] and a priority among low, medium and high. |
| Schemas.SkillGapRoundTrip | backend/models.py:21-26 | A gap survives dump and validation exactly when its levels are in [0,5] and its priority is allowed. No order between the two levels is demanded. |
| Schemas.LevelsUnordered | backend/models.py:23-25 | A current level above the required one is valid. A level of 6 or -1, or the priority "urgent", is not. |
| Schemas.DecodeGapAnalysis | backend/models.py:28-29 | Every gap of a validated analysis is valid. |
| Schemas.GapsRoundTrip | backend/models.py:28-29 | A dumped gap list validates back to itself exactly when every gap is valid. |
| Schemas.GapAnalysisRoundTrip | backend/models.py:28-29 | A gap analysis round-trips exactly when every gap is valid. |
| Schemas.DecodeRoadmapStep | backend/models.py:32-36 | A roadmap step validates only when all four fields are present. |
| Schemas.RoadmapStepRoundTrip | backend/models.py:32-36 | Week numbers and hours are unconstrained integers: every step round-trips, negative values included. |
| Schemas.StepsRoundTrip | backend/models.py:38-39 | Every list of roadmap steps round-trips. |
| Schemas.DecodeRoadmap | backend/models.py:38-39 | A roadmap validates only from a `roadmap` array, one step per item, each step the validation of its item. |
| Schemas.RoadmapRoundTrip | backend/models.py:38-39 | Every roadmap round-trips. |
| Schemas.DecodeQuestion | backend/models.py:42-45 | A validated question has difficulty easy, medium or hard. |
| Schemas.QuestionRoundTrip | backend/models.py:42-45 | A question round-trips exactly when its difficulty is allowed. |
| Schemas.QuestionsRoundTrip | backend/models.py:47-48 | A question list round-trips exactly when every difficulty is allowed. |
| Schemas.DecodeInterview | backend/models.py:47-48 | Every question of a validated simulation is valid. |
| Schemas.InterviewRoundTrip | backend/models.py:47-48 | A simulation round-trips exactly when every question is valid. |
| Schemas.DecodeReport | backend/models.py:51-56 | A validated report has valid gaps and questions. |
| Schemas.ReportMembers | backend/models.py:51-56 | The dumped report holds each part under its field name. |
| Schemas.ReportRoundTrip | backend/models.py:51-56 | A report round-trips exactly when its parts are valid: the report adds no constraint of its own. |
| Schemas.EmptyListsValid | backend/models.py:51-56 | A report with empty gap, roadmap and question lists is valid and round-trips. |
| Api.Record | backend/main.py:60-73 | A settled stage run recorded: it tried a roster prefix, has an output exactly when it has no error, and the output is the last model's decoded reply. |
| Api.ResumeStepFromRun | backend/main.py:61 | The recorded resume stage has exactly the attempts and the error of `run_resume_analysis`, and its output is that call's result. |
| Api.RoleStepFromRun | backend/main.py:64 | The recorded role stage is exactly the `run_role_interpretation` call. |
| Api.GapStepFromRun | backend/main.py:67 | The recorded gap stage is exactly the `run_skill_gap_analysis` call on the two earlier outputs. |
| Api.RoadmapStepFromRun | backend/main.py:70 | The recorded roadmap stage is exactly the `run_roadmap_generation` call on the gap analysis. |
| Api.InterviewStepFromRun | backend/main.py:73 | The recorded interview stage is exactly the `run_interview_simulation` call on the role requirements and the gap analysis. |
| Api.ResumeStep | backend/main.py:61 | Stage 1 sends the resume prompt over the request's resume text; its output, if any, is the decoded reply. |
| Api.RoleStep | backend/main.py:64 | Stage 2 sends the role prompt over the request's target role. |
| Api.GapStep | backend/main.py:67 | Stage 3 is built from the outputs of stages 1 and 2; any gaps it returns are valid. |
| Api.RoadmapStep | backend/main.py:70 | Stage 4 is built from the gap analysis. |
| Api.InterviewStep | backend/main.py:73 | Stage 5 is built from the role requirements and the gap analysis; any questions it returns are valid. |
| Api.Stop | backend/main.py:57-82 | A failing stage ends the run there: the trace is exactly that stage's record, and there is no report. |
| Api.ShiftStages | backend/main.py:57-81 | A successful stage put in front of the later ones keeps the pipeline order, the roster prefixes and the all-but-last-succeeded facts. |
| Api.ShiftJustified | backend/main.py:75-81 | A stage put in front of later ones that account for their part of the report keeps every stage accounting for its part. |
| Api.PrependRuns | backend/main.py:57-81 | A successful stage followed by a run from the next stage on is a run from that stage on. |
| Api.Prepend | backend/main.py:57-81 | A successful stage followed by the rest of the pipeline is a run from that stage on. Its trace is the stage's record followed by the rest's records, and it ends with the rest's report. |
| Api.Onwards | backend/main.py:57-81 | The pipeline from stage k on, given exactly the earlier outputs. The stages follow the pipeline order and all but the last succeeded. A report exists iff all five succeeded, and it keeps the earlier outputs. |
| Api.ResumeOnwards | backend/main.py:60-81 | The pipeline from the resume stage on. |
| Api.RoleOnwards | backend/main.py:63-81 | The pipeline from the role stage on; a report keeps the given resume analysis. |
| Api.GapOnwards | backend/main.py:66-81 | The pipeline from the gap stage on; a report keeps the resume analysis and the role requirements. |
| Api.RoadmapOnwards | backend/main.py:69-81 | The pipeline from the roadmap stage on; a report keeps the three earlier outputs. |
| Api.InterviewOnwards | backend/main.py:72-81 | The last stage records exactly the `run_interview_simulation` call on the role requirements and the gap analysis. On success it assembles the report from the five outputs. |
| Api.InterviewOnwardsVerdict | backend/main.py:72-81 | The interview run's error is what the request ends with. Its answer completes the report together with the four earlier outputs. |
| Api.RoadmapOnwardsStages | backend/main.py:69-81 | From the roadmap stage on, the trace records the `run_roadmap_generation` call. If that succeeded, it also records the interview call on the same role and gaps, and nothing else. |
| Api.RoadmapOnwardsVerdict | backend/main.py:69-81 | The roadmap run's error is what the request ends with. Its answer is what the interview stage goes on with. |
| Api.GapOnwardsStages | backend/main.py:66-81 | From the gap stage on, the trace records the `run_skill_gap_analysis` call. If that succeeded, the roadmap-stage records on its answer follow. |
| Api.GapOnwardsVerdict | backend/main.py:66-81 | The gap run's error is what the request ends with. Its answer is what the later stages go on with. |
| Api.RoleOnwardsStages | backend/main.py:63-81 | From the role stage on, the trace records the `run_role_interpretation` call. If that succeeded, the gap-stage records on the resume analysis and its answer follow. |
| Api.RoleOnwardsVerdict | backend/main.py:63-81 | The role run's error is what the request ends with. Its answer is what the later stages go on with. |
| Api.ResumeOnwardsStages | backend/main.py:60-81 | The whole pipeline records exactly the stage calls in order, each on the earlier outputs, up to the first failure (`StepRecords`). |
| Api.ResumeOnwardsVerdict | backend/main.py:60-81 | The resume run's error is what the request ends with. Its answer is what the later stages go on with. |
| Api.PipelineVerdict | backend/main.py:57-81 | The pipeline ends with what the chain of the five `run_*` calls ends with: the assembled report, or the error of the first call that raised. |
| Api.RunPipeline | backend/main.py:57-81 | The body of the `try`: five stages in order, stopping at the first failure, with the resume and role prompts built from the request. The records are exactly the stage calls, each made on the outputs of the stages before it (`StepRecords`). The outcome is that of the chain of `run_*` calls (`AnalysisChain`): the report, or the first error raised. |
| Api.AnalyzeErrorDetail | backend/main.py:83-85 | A credential error becomes the .env hint. Any other error text is passed on unchanged. The detail never carries a credential marker. |
| Api.CredentialHintIsPlain | backend/main.py:85 | The .env hint of `/analyze-full` does not itself read as a credential error. |
| Api.HintLacksFour | backend/main.py:85 | The .env hint has no digit 4. |
| Api.HintLacksCapitalU | backend/main.py:85 | The .env hint has no capital U. |
| Api.ParseErrorDetail | backend/main.py:115-118 | A credential marker gives the upload credential hint. Otherwise, an "empty" in the lower-cased text gives the no-text detail. Otherwise the error text is passed on unchanged. |
| Api.AnalyzeFull | backend/main.py:52-87 | The response is the report exactly when the pipeline produced one. Otherwise it is a 500 whose detail is `AnalyzeErrorDetail` of the error of the first `run_*` call that raised. The trace is exactly the stage calls made. |
| Api.AnalyzeFullStages | backend/main.py:52-87 | The stages run in pipeline order on roster prefixes and stop at the first failure. The request succeeds iff all five stages did, which is iff the chain of `run_*` calls succeeds. Otherwise it fails with 500, carrying `AnalyzeErrorDetail` of the first failing call's error: the credential hint, or that error text. The records are exactly the stage calls. |
| Api.AnalyzeFullReport | backend/main.py:60-81 | A successful report is valid and holds exactly the five decoded outputs. It is the report of the chain of `run_*` calls. Stages 3, 4 and 5 were prompted with the earlier outputs. |
| Api.EmptyAt | backend/main.py:117 | An "empty" in the text is found in its lower-cased form. |
| Api.BlankMessageSaysEmpty | backend/main.py:105-117 | The blank-upload error mentions "empty" once lower-cased. |
| Api.BlankReadsAsNoText | backend/main.py:104-118 | A blank upload is answered with "The uploaded file contains no text.". |
| Api.EmptyResultSaysEmpty | backend/agents.py:74 | The empty-result error mentions "empty" once lower-cased. |
| Api.EmptyResultReadsAsNoText | backend/main.py:115-118 | The empty-result error of the resume stage is reported as a file without text. |
| Api.AnalyzeUpload | backend/main.py:107-120 | The resume stage on a non-blank upload, with the attempts of `run_resume_analysis`. The upload succeeds exactly when that run does, and then returns the text as uploaded with the run's analysis. A failure is a 400 whose detail is the run's error passed through the detail rules, and it happens only on a credential error or after the whole roster. |
| Api.ParseResume | backend/main.py:89-120 | Every failure is a 400. A failed extraction is mapped through the detail rules without calling a model. A blank text is rejected with the no-text detail before any model is called. Otherwise the resume stage runs on the text as extracted. The upload succeeds exactly when that run does, and then returns the text with the run's analysis. A failure is a 400 with the run's error passed through the detail rules, on a credential error or after the whole roster. |
| Api.AnalyzeUnauthorized | backend/main.py:82-87 | A credential error from the first model fails `/analyze-full` after one stage and one attempt, with 500 and the .env hint. |
| Api.UploadUnauthorized | backend/main.py:115-116 | The same failure on `/parse-resume` gives 400 and the upload's credential hint. |
| Api.UploadAllEmpty | backend/main.py:115-120 | If every model returns an empty output for a non-blank upload, the whole roster is tried and the response claims the file contains no text. |
| Api.ParseDetailPassesThrough | backend/main.py:115-120 | An error text with no credential marker and no letter e reaches the client unchanged. |
| Api.CredentialBeforeEmpty | backend/main.py:115-118 | The credential rule takes precedence over the "empty" rule. |
| Api.StubbedInterview | backend/tests/test_main.py:53 | With fixed answers on the first model, the interview stage completes the report. |
| Api.StubbedRoadmap | backend/tests/test_main.py:52-53 | With fixed answers, the run from the roadmap stage yields the report. |
| Api.StubbedGaps | backend/tests/test_main.py:51-53 | With fixed answers, the run from the gap stage yields the report. |
| Api.StubbedRole | backend/tests/test_main.py:50-53 | With fixed answers, the run from the role stage yields the report. |
| Api.StubbedResume | backend/tests/test_main.py:49-53 | With fixed answers, the whole pipeline yields the report. |
| Api.StubbedAnalysis | backend/tests/test_main.py:49-60 | With every stage answered on the first model, `/analyze-full` returns exactly the five outputs assembled into one report. |
| Api.MockedAnalyzeFull | backend/tests/test_main.py:9-64 | With the test's fixtures and empty lists, the request succeeds with exactly that report. The resume names "John Doe", and the body holds `role_requirements` and `skill_gaps`. |

## Left out

- Api.Onwards: its contract states the shape of the trace only. Which calls it records, and what the request ends with, are stated one stage at a time by the `*OnwardsStages` and `*OnwardsVerdict` lemmas.
- Api.ResumeOnwards: its contract states the shape of the trace (`Ran`). That the records are exactly the stage calls, and that a failure ends with the failing run's error, are stated by `Api.ResumeOnwardsStages` and `Api.ResumeOnwardsVerdict`. As ensures of the mutually recursive stage functions, these equalities made every level's proof too expensive.
- Api.RoleOnwards: the same, with `Api.RoleOnwardsStages` and `Api.RoleOnwardsVerdict`.
- Api.GapOnwards: the same, with `Api.GapOnwardsStages` and `Api.GapOnwardsVerdict`.
- Api.RoadmapOnwards: the same, with `Api.RoadmapOnwardsStages` and `Api.RoadmapOnwardsVerdict`.
- The LLM call (`agent.run`, OpenRouter, `OpenAIModel`) is an oracle parameter `Backend`. It answers each (stage, model, prompt) with a JSON output, an empty output or an error text. Any retry pydantic-ai performs inside one `agent.run` (`retries=1`) is folded into that oracle.
- `agent.model` is reassigned before each attempt on a shared module-level agent. The model passes the model identifier to the oracle instead. Concurrent requests that race on that shared field are not modelled.
- `get_agent` builds each agent with `settings.model_list[0]` at import time, so an empty roster stops the backend before any request. Every operation therefore requires a non-empty roster, and `Config.DefaultModelList` shows the default satisfies it. The agents' system prompts are not modelled.
- How an f-string renders a `model_dump()` dictionary (Python's `repr` of a dict) is the parameter `Render`. Prompts are stated in terms of it.
- Schema validation is reduced to its field checks. Pydantic's lax coercions (for example "5" accepted as an int) are not modelled. Its error texts are not modelled either: the single message `RejectedOutputMessage` stands in for them. The model assumes that the error `agent.run` raises after a failed validation carries no credential marker, which is why that message can be a constant (`Agents.RejectionIsRetryable`).
- Reading the upload, PyPDF2 text extraction and UTF-8 decoding are not modelled. `ParseResume` takes their result as `Result<string, string>`: the text, or the error text of the exception they raised.
- `Text.Lower` lower-cases ASCII letters only. The "empty" test uses it, so a non-ASCII character whose Python lower-case form is one of the letters of "empty" would be missed.
- Logging, the startup API-key warning, CORS, the root endpoint, dotenv loading and `openrouter_api_key` are not modelled: none of them affects a response.
- The request models `RoleSelectionRequest` and `FullAnalysisRequest` appear only as the two strings they carry.
- The scratch scripts at the repository root (`test_pydantic_ai.py`, `check_run.py`, `test_result.py`, `check_data_attr.py`, `inspect_pydantic_2.py`) probe the library and are not part of this model.
- The roster keeps repeated identifiers; only blank entries are dropped (`Config.ModelListKeepsDuplicates`).
- Failover.Loop: a roster that runs out before any attempt re-raises `None`, which Python turns into a `TypeError`. This state is unreachable because the roster is non-empty, so `Loop` requires a model or a previous error rather than modelling that `TypeError`.
- Failover.Loop: the oracle answers each (stage, model, prompt) the same way every time, so a model identifier listed twice in the roster repeats its first outcome; a live model that fails once and answers on a second call is not modelled.
- `if not result.output` is modelled as the oracle's `Empty` outcome. Which pydantic values are falsy is left to the oracle.

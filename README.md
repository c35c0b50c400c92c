# Medical copilot: the deterministic core, modelled in Dafny

The medical copilot takes patient input (text, voice, images) and runs it
through reasoning services and a graph database to produce a diagnosis and a
recommendation. Around those services sits deterministic control and gating
code, and that code is what this project models:

- **The workflow** (`MedicalWorkflow`). One case record is held in a mutable
  state (`class CaseState`). It passes through eleven nodes in a fixed order:
  gating, extraction, context retrieval, risk, diagnosis, alternatives, judge,
  fact-check, validation decision, persistence and recommendation.
  - `class Workflow` has one method per node and the entry point
    `ProcessPatientInput`.
  - Each node method is proved to do what the pure `Step` function says.
  - The whole run is proved equal to the pure chain `Run`.
  - Lemmas about `Run` state the validation policy, when the case store is
    called, what record it receives, and what gating leaves behind.
  - The role-guarded queries are pure functions with lemmas.
- **The safety layer** (`SafetyCompliance`):
  - PII detection over an abstract regular-expression engine, and PII
    redaction;
  - whole-word, case-insensitive search for the fourteen sensitive
    conditions;
  - the access checks that read `str(content)`;
  - role-dependent sanitising of the medical context;
  - the role-to-access-level table.
- **The fact-checker** (`PerplexityChecker`): the three shapes of its result
  dict, and how the confidence score is read.
- **The risk evaluator** (`RiskEvaluator`): the immediate-attention keyword
  test and the dict `evaluate_risk` returns.
- **Intake and extraction** (`SymptomIntake`, `SymptomExtractor`):
  - text validation;
  - per-input results and their aggregate status;
  - the combination of successful results into one text;
  - the result shaping of the extraction agent.
- **The entry point** (`Copilot`): the early returns of `process_input` and
  the normalisation of the extracted symptoms to a list.

Supporting modules:

- `Wrappers`: `Option` and `Result`.
- `Text`: ASCII case mapping, Python white space, `strip`, substring tests,
  `join`.
- `PyValues`: Python strings, booleans, scalars, lists and insertion-ordered
  dicts, with `get`, item assignment and `repr`, which is what `str(dict)`
  prints.

Every service the code calls is a function-typed parameter or field. This
covers the language models, the graph store, the HTTP fact-check call,
`float()`, transcription, vision and the regular-expression engine.

Three behaviours of the code shape what the model can promise:

- **Stage failures.** The fact-checker turns every failure into an
  unchecked result, whose missing score reads as 0
  (src/utils/perplexity_checker.py:13-17, 33-38). An exception in any other
  node propagates out of `process_patient_input`; no node catches it
  (src/workflow/medical_workflow.py:43-137, 189).
- **Risk level.** The dict `evaluate_risk` returns has no `risk_level` key
  (src/agents/risk_evaluator.py:39-44). The stored record's level is
  therefore always `"unknown"` (src/workflow/medical_workflow.py:124).
- **The doctor bypass.** The access checks compare the role with `"doctor"`
  exactly (src/utils/safety_compliance.py:67, 76, 119;
  src/workflow/medical_workflow.py:105, 218). The access-level table
  lower-cases the role first (src/utils/safety_compliance.py:135).

## Model

| member | source | states |
|---|---|---|
| MedicalWorkflow.Initial | src/workflow/medical_workflow.py:172-187 | the initial state dict: the given input and role, an empty symptom list, empty dicts, an empty recommendation, no validation needed, no validation status, both detection flags false |
| MedicalWorkflow.Pipeline | src/workflow/medical_workflow.py:153-165 | the entry point and the ten edges, as the sequence of the eleven nodes |
| MedicalWorkflow.Writes | src/workflow/medical_workflow.py:43-137 | the keys each node assigns |
| MedicalWorkflow.Step | src/workflow/medical_workflow.py:43-137 | what each node does to the state: the service it calls, on which keys, and the key it writes |
| MedicalWorkflow.RunStages | src/workflow/medical_workflow.py:153-165 | nodes run one after the other, each on the state the previous one left |
| MedicalWorkflow.Run | src/workflow/medical_workflow.py:169-189 | the state the compiled graph returns: the initial state through the whole chain |
| MedicalWorkflow.DefaultSettings | src/config/settings.py:12-16 | the defaults: controlled mode and a confidence threshold of 0.8 |
| MedicalWorkflow.CaseState.constructor | src/workflow/medical_workflow.py:172-187 | the initial state: the given input and role, empty collections, an empty fact-check, no validation needed, no validation status, both detection flags false |
| MedicalWorkflow.Workflow.constructor | src/workflow/medical_workflow.py:18-36 | a workflow holds its settings and services and has stored nothing yet |
| MedicalWorkflow.Gated | src/workflow/medical_workflow.py:43-54 | the PII flag holds iff some pattern matched; the input becomes the redaction of all matches exactly when there were matches, and is unchanged otherwise; the sensitive flag describes the text after redaction; no other key changes |
| MedicalWorkflow.Workflow.CheckPiiAndSensitiveContent | src/workflow/medical_workflow.py:43-54 | the gating node updates the state in place exactly as `Gated` describes |
| MedicalWorkflow.Workflow.ExtractSymptoms | src/workflow/medical_workflow.py:56-58 | the extraction node writes only `symptoms`, with the extractor's answer on the current input |
| MedicalWorkflow.Workflow.RetrieveMedicalContext | src/workflow/medical_workflow.py:60-67 | the context node writes only `medical_context`: the retrieved context, sanitised for the state's role |
| MedicalWorkflow.Workflow.EvaluateRiskNode | src/workflow/medical_workflow.py:69-74 | the risk node writes only `risk_assessment`, with the evaluator's dict for the current symptoms and context |
| MedicalWorkflow.Workflow.GenerateDiagnosis | src/workflow/medical_workflow.py:76-81 | the diagnosis node writes only `diagnosis`, from the symptoms and the context |
| MedicalWorkflow.Workflow.GenerateAlternatives | src/workflow/medical_workflow.py:83-88 | the alternatives node writes only `alternatives`, from the symptoms and the diagnosis |
| MedicalWorkflow.Workflow.EvaluateWithJudge | src/workflow/medical_workflow.py:90-97 | the judge node writes only `evaluation`, from the symptoms, context, diagnosis and alternatives |
| MedicalWorkflow.Workflow.CheckWithPerplexity | src/workflow/medical_workflow.py:99-101 | the fact-check node writes only `perplexity_check`: the checker's result on the current diagnosis, under the settings' key and threshold |
| MedicalWorkflow.ConfidenceOf | src/workflow/medical_workflow.py:111 | the score the decision reads: the checked score if there is one, 0 for the initial empty dict and for every result without a score |
| MedicalWorkflow.ValidationRequired | src/workflow/medical_workflow.py:103-115 | the ordered policy: a doctor never needs validation; any other role does in controlled mode; in autonomous mode it does iff the score is below the threshold or the content is sensitive |
| MedicalWorkflow.Workflow.CheckValidationRequired | src/workflow/medical_workflow.py:103-115 | the decision node clears the flag and then sets it by the first rule that applies, writing only `requires_validation` as `ValidationRequired` decides |
| MedicalWorkflow.RecordOf | src/workflow/medical_workflow.py:120-127 | the stored record carries the state's symptoms and diagnosis, the fact-check's score (0 when absent), the role and the sensitive flag; its risk level is the assessment's `risk_level` when there is one, and "unknown" otherwise |
| MedicalWorkflow.ShouldStore | src/workflow/medical_workflow.py:118 | the store condition `not requires_validation or validation_status` |
| MedicalWorkflow.StoreCalls | src/workflow/medical_workflow.py:117-129 | the persistence node calls the store at most once, exactly when `not requires_validation or validation_status` holds, and with `RecordOf` the state |
| MedicalWorkflow.Workflow.StoreInNeo4j | src/workflow/medical_workflow.py:117-129 | the persistence node leaves the state unchanged and appends to the store's call log exactly the calls `StoreCalls` names |
| MedicalWorkflow.Workflow.GenerateFinalRecommendation | src/workflow/medical_workflow.py:131-137 | the recommendation node writes only `final_recommendation`, from the evaluation and the judge's validation of the risk assessment |
| MedicalWorkflow.StoreCallsIgnoreRecommendation | src/workflow/medical_workflow.py:117-137 | the recommendation, written after the store call, has no effect on what is stored |
| MedicalWorkflow.Workflow.ProcessPatientInput | src/workflow/medical_workflow.py:169-196 | a fresh state runs through the nodes in the order of the edges and ends equal to `Run`; the store's call log grows by exactly the calls the final state allows |
| MedicalWorkflow.RunOpening | src/workflow/medical_workflow.py:153-156 | the run starts with gating, extraction, context retrieval and risk evaluation, in that order |
| MedicalWorkflow.RunMiddle | src/workflow/medical_workflow.py:156-160 | then diagnosis, alternatives, judge and fact-check, in that order |
| MedicalWorkflow.RunClosing | src/workflow/medical_workflow.py:160-162 | and it ends with the validation decision, persistence and the recommendation |
| MedicalWorkflow.StepWritesOnly | src/workflow/medical_workflow.py:43-137 | a node assigns no key other than those it is declared to write |
| MedicalWorkflow.RunSnoc | src/workflow/medical_workflow.py:153-165 | running one more node after a run of nodes applies that node to the run's result |
| MedicalWorkflow.RunPrefix | src/workflow/medical_workflow.py:153-165 | the state after the first k+1 nodes of the chain is node k applied to the state after the first k |
| MedicalWorkflow.RunKeeps | src/workflow/medical_workflow.py:153-165 | a key that no node of a run assigns keeps its value through the run |
| MedicalWorkflow.RunAppend | src/workflow/medical_workflow.py:153-165 | running two runs of nodes one after the other equals running their concatenation |
| MedicalWorkflow.Writer | src/workflow/medical_workflow.py:43-137 | every key has at most one writing node, inside the chain |
| MedicalWorkflow.SoleWriter | src/workflow/medical_workflow.py:43-137 | node j assigns a key iff it is that key's writer |
| MedicalWorkflow.KeptAfter | src/workflow/medical_workflow.py:153-165 | a key whose writer runs before node k already has its final value before node k |
| MedicalWorkflow.LastWrite | src/workflow/medical_workflow.py:153-165 | a key's final value is the one its writer gave it |
| MedicalWorkflow.RoleAndStatusKept | src/workflow/medical_workflow.py:172-187 | no node assigns the role or the validation status: the run returns the given role and a status of None |
| MedicalWorkflow.DecisionSettled | src/workflow/medical_workflow.py:103-165 | no node after the decision node changes the validation flag |
| MedicalWorkflow.DecisionInputsSettled | src/workflow/medical_workflow.py:103-165 | no node after the decision node changes the role, the fact-check or the sensitive flag that the decision read |
| MedicalWorkflow.DecisionStep | src/workflow/medical_workflow.py:103-115 | the decision node applies the policy to the state it receives |
| MedicalWorkflow.RunFollowsPolicy | src/workflow/medical_workflow.py:103-115 | the returned state's flag is the policy's decision for its own role, score and sensitive flag |
| MedicalWorkflow.DoctorNeverNeedsValidation | tests/test_medical_workflow.py:164-177 | a doctor's run never needs validation, whatever the mode, confidence or content |
| MedicalWorkflow.ControlledModeNeedsValidation | tests/test_medical_workflow.py:252-259 | in controlled mode every other role needs validation, unknown roles included |
| MedicalWorkflow.AutonomousModeDecision | tests/test_medical_workflow.py:277-291 | in autonomous mode another role needs validation iff the score is below the threshold or the content is sensitive |
| MedicalWorkflow.FactCheckSettled | src/workflow/medical_workflow.py:99-165 | no node after the fact-check changes its result or the diagnosis it checked |
| MedicalWorkflow.FactCheckStep | src/workflow/medical_workflow.py:99-101 | the fact-check node checks the diagnosis of the state it receives |
| MedicalWorkflow.RunFactCheck | src/workflow/medical_workflow.py:99-101 | the returned fact-check is the checker's result on the returned diagnosis |
| MedicalWorkflow.NoApiKeyNeedsValidation | src/utils/perplexity_checker.py:13-17 | without an API key (missing or empty) and with a positive threshold, every role but doctor needs validation, because the missing score reads as 0 |
| MedicalWorkflow.FailedFactCheckNeedsValidation | src/utils/perplexity_checker.py:33-38 | when the fact-check call raises and the threshold is positive, every role but doctor needs validation |
| MedicalWorkflow.StoredIffNoValidation | src/workflow/medical_workflow.py:118 | since nothing sets the validation status, a run stores its case exactly when it needs no validation |
| MedicalWorkflow.DoctorCasesAreStored | src/workflow/medical_workflow.py:104-128 | a doctor's case is always stored |
| MedicalWorkflow.RiskSettled | src/workflow/medical_workflow.py:69-165 | no node after the risk node changes the assessment |
| MedicalWorkflow.RiskStep | src/agents/risk_evaluator.py:39-44 | the risk node's assessment has no `risk_level` key |
| MedicalWorkflow.StoredRiskLevelUnknown | src/workflow/medical_workflow.py:124 | the record of every run has risk level "unknown" |
| MedicalWorkflow.GatingOutcome | src/workflow/medical_workflow.py:43-54 | in the returned state the PII flag holds iff a pattern matched; the input is the redacted text exactly then; the sensitive flag holds iff some condition occurs as a word in that text |
| MedicalWorkflow.ValidateDiagnosis | src/workflow/medical_workflow.py:198-202 | the answer is false when access to `{"diagnosis_id": id}` is denied, and the given verdict otherwise; a doctor always gets the verdict |
| MedicalWorkflow.FindSimilarCases | src/workflow/medical_workflow.py:204-208 | the answer is empty when access to `{"symptoms": symptoms}` is denied, and the store's answer otherwise |
| MedicalWorkflow.FindComorbidities | src/workflow/medical_workflow.py:210-214 | the answer is empty when access to `{"diagnosis": diagnosis}` is denied, and the store's answer otherwise |
| MedicalWorkflow.GetCaseStatistics | src/workflow/medical_workflow.py:216-220 | a role other than exactly "doctor" gets `{"error": "Unauthorized access"}`, and a doctor gets the store's statistics |
| MedicalWorkflow.DoctorQueriesReachStore | src/workflow/medical_workflow.py:204-214 | a doctor's queries always return the store's answer |
| MedicalWorkflow.SensitiveSymptomIsRefused | src/workflow/medical_workflow.py:204-208 | a symptom list containing a sensitive condition, in any case, gets no similar cases for any role but doctor |
| MedicalWorkflow.SensitiveDiagnosisIsRefused | src/workflow/medical_workflow.py:210-214 | a diagnosis spelled like a sensitive condition gets no comorbidities for any role but doctor |
| MedicalWorkflow.DeniedQueriesIgnoreStore | src/workflow/medical_workflow.py:204-220 | when access is denied the answers do not depend on the store, so it is not consulted |
| MedicalWorkflow.PatientQueriesRefused | tests/test_medical_workflow.py:219-231 | a patient asking about "HIV" and "depression" gets no cases, and a patient's statistics request gets an error entry |
| SafetyCompliance.KindRank | src/utils/safety_compliance.py:13-19 | the five patterns in the order they are tried: email, phone, ssn, credit_card, date_of_birth |
| SafetyCompliance.KindMatches | src/utils/safety_compliance.py:33-40 | one match per span that the engine yields for a pattern; each match's value is text[start:end] |
| SafetyCompliance.MatchesOfFirst | src/utils/safety_compliance.py:32-40 | every match is a well-formed slice of the text, and matches are grouped in pattern order |
| SafetyCompliance.CheckPii | src/utils/safety_compliance.py:28-42 | the loop collects every pattern's matches, in pattern order, each value equal to text[start:end]; the flag holds iff something was found |
| SafetyCompliance.InsertByStartDesc | src/utils/safety_compliance.py:47 | insertion keeps every element |
| SafetyCompliance.InsertKeepsOrder | src/utils/safety_compliance.py:47 | insertion keeps the list ordered by start, last first |
| SafetyCompliance.WithStart | src/utils/safety_compliance.py:47 | the matches with a given start, in their order |
| SafetyCompliance.InsertWithStart | src/utils/safety_compliance.py:47 | an inserted match goes before every match with the same start |
| SafetyCompliance.SortByStartDesc | src/utils/safety_compliance.py:47 | the sort is a permutation of the matches, ordered by start, last first, and stable: matches with the same start keep their order, as Python's `sorted` guarantees |
| SafetyCompliance.Placeholder | src/utils/safety_compliance.py:50 | the text `[REDACTED <TYPE>]`, with the pattern's name upper-cased |
| SafetyCompliance.ReplaceSpan | src/utils/safety_compliance.py:48-52 | one step of the loop: the text before `start`, the placeholder, and the text from `end`, with Python's clamped slicing |
| SafetyCompliance.ReplaceAll | src/utils/safety_compliance.py:47-52 | the loop's replacements, applied in the order given |
| SafetyCompliance.RedactPii | src/utils/safety_compliance.py:44-53 | the loop applies the replacements in sorted order; with no matches the text is returned unchanged |
| SafetyCompliance.ReplaceAllPrefix | src/utils/safety_compliance.py:47-52 | replacing spans that lie inside a prefix leaves the rest of the text untouched |
| SafetyCompliance.ReplaceAllIsRedacted | src/utils/safety_compliance.py:47-52 | for spans taken last first without overlap, the loop's result is the segment-by-segment redaction |
| SafetyCompliance.RedactedLength | src/utils/safety_compliance.py:47-52 | the redaction's length is the text's, minus what the spans cover, plus what the placeholders take |
| SafetyCompliance.InsertTotals | src/utils/safety_compliance.py:47 | insertion adds one match's span length and placeholder length to the totals |
| SafetyCompliance.SortTotals | src/utils/safety_compliance.py:47 | sorting keeps the totals |
| SafetyCompliance.InsertKeepsApart | src/utils/safety_compliance.py:47 | insertion keeps matches pairwise non-overlapping |
| SafetyCompliance.SortKeepsApart | src/utils/safety_compliance.py:47 | sorting keeps matches pairwise non-overlapping |
| SafetyCompliance.SortedApartIsChain | src/utils/safety_compliance.py:47-52 | sorted, non-overlapping, in-range spans each end at or before the start of the span handled before them |
| SafetyCompliance.RedactPiiSegments | src/utils/safety_compliance.py:44-53 | for non-overlapping, in-range matches the result keeps the unmatched segments in order, replaces each span by "[REDACTED TYPE]", and has the text's length, minus the sum of end - start, plus the sum of the placeholder lengths |
| SafetyCompliance.WordAt | src/utils/safety_compliance.py:60 | `\b<term>\b` matches at an index, ignoring case: the slice equals the term up to case, with a word boundary at both ends |
| SafetyCompliance.HasWord | src/utils/safety_compliance.py:60 | `re.search(rf'\b{term}\b', text, re.IGNORECASE)` finds something: the pattern matches at some index |
| SafetyCompliance.SearchWordFrom | src/utils/safety_compliance.py:60 | the scan finds a whole-word, case-insensitive occurrence at or after the start index iff one exists |
| SafetyCompliance.SearchWord | src/utils/safety_compliance.py:60 | `re.search(rf'\b{term}\b', text, re.IGNORECASE)` succeeds iff the term occurs case-insensitively with a word boundary on both sides |
| SafetyCompliance.TermsFoundIn | src/utils/safety_compliance.py:59-61 | the found terms are exactly those of the list that occur as words, kept in list order |
| SafetyCompliance.SensitiveTermsIn | src/utils/safety_compliance.py:22-26 | the found conditions are exactly the vocabulary terms that occur as words, in vocabulary order |
| SafetyCompliance.CheckSensitiveContent | src/utils/safety_compliance.py:55-63 | the loop returns the found conditions in vocabulary order; the flag holds iff some vocabulary term occurs as a word |
| SafetyCompliance.ValidateUserAccess | src/utils/safety_compliance.py:65-72 | exactly "doctor" is always allowed; any other role is allowed iff `str(content)` names no sensitive condition as a word |
| SafetyCompliance.NeedsSanitizing | src/utils/safety_compliance.py:76-86 | the context is rewritten iff the role is not exactly "doctor" and `str(context)` names a condition |
| SafetyCompliance.ValidateDiagnosisAccess | src/utils/safety_compliance.py:117-125 | the same decision as `ValidateUserAccess`, for a diagnosis |
| SafetyCompliance.Sanitized | src/utils/safety_compliance.py:74-115 | every key other than "context_analysis" keeps its value; when a non-doctor's context names a condition, "context_analysis" holds the rewritten text; otherwise the context is returned as it is |
| SafetyCompliance.SanitizeMedicalContext | src/utils/safety_compliance.py:74-115 | the method computes `Sanitized`; the copy keeps the keys in their order, adding "context_analysis" last when it was not there |
| SafetyCompliance.GetAccessLevel | src/utils/safety_compliance.py:127-135 | the lower-cased role decides: doctor full, nurse partial, researcher anonymized, and limited for patient and for every other role |
| SafetyCompliance.AccessLevelIgnoresCase | src/utils/safety_compliance.py:135 | the level depends on the role only up to case |
| SafetyCompliance.QuotedTermIsFound | src/utils/safety_compliance.py:65-72 | a string spelled like a condition, in any case, standing in quotes anywhere in a text (as `str` shows it inside a dict or list) makes that condition one of the text's sensitive terms |
| SafetyCompliance.QuotedWordIsFound | src/utils/safety_compliance.py:55-63 | the same, with the text written out around the quoted string |
| SafetyCompliance.LongerWordDoesNotMatch | src/utils/safety_compliance.py:60 | a term inside a longer word does not count: "cancer" is not found in "cancerous" |
| SafetyCompliance.HyphenIsBoundary | src/utils/safety_compliance.py:60 | a hyphen is a word boundary: "HIV" is found in "HIV-positive" |
| SafetyCompliance.CapitalisedDoctorHasNoBypass | src/utils/safety_compliance.py:67-135 | "Doctor" gets full access level but no doctor bypass, and is refused the content "HIV" |
| PerplexityChecker.ResultKeys | src/utils/perplexity_checker.py:13-38 | every result starts with "checked"; only a checked result has "confidence_score" and "is_reliable"; the others have "error"; all but the no-key result echo the diagnosis |
| PerplexityChecker.ConfidenceOrZero | src/workflow/medical_workflow.py:111 | `get("confidence_score", 0)` is the score when the key is present, 0 otherwise |
| PerplexityChecker.ExtractConfidence | src/utils/perplexity_checker.py:73-80 | a dict response gives its "confidence" converted to a float, or 0.0 when the key is missing or cannot be converted; a response that is not a dict raises an AttributeError |
| PerplexityChecker.CheckDiagnosis | src/utils/perplexity_checker.py:11-38 | without a key, an unchecked result with the configuration error; with a key, a response whose confidence can be read gives a checked result with that score, reliable iff score >= threshold, echoing the raw response and the diagnosis; a response that is not a dict, or a raising call, gives an unchecked result with the exception's message and the diagnosis |
| PerplexityChecker.UncheckedScoresZero | src/utils/perplexity_checker.py:13-38 | every unchecked result lacks "confidence_score" and "is_reliable", so its score reads as 0 |
| RiskEvaluator.AnyKeywordIn | src/agents/risk_evaluator.py:55 | `any(k in text for k in keywords)` holds iff some keyword is a substring of the text |
| RiskEvaluator.CheckImmediateAttention | src/agents/risk_evaluator.py:48-55 | the test holds iff one of the seven keywords is a substring of the lower-cased analysis |
| RiskEvaluator.ImmediateAttentionIgnoresCase | src/agents/risk_evaluator.py:55 | texts equal up to case get the same answer |
| RiskEvaluator.ImmediateAttentionOfLowered | src/agents/risk_evaluator.py:55 | lower-casing first does not change the answer |
| RiskEvaluator.EmptyAnalysisIsCalm | src/agents/risk_evaluator.py:55 | the empty analysis never asks for immediate attention |
| RiskEvaluator.ImmediateAttentionMonotone | src/agents/risk_evaluator.py:50-55 | text added before or after an alarming analysis keeps it alarming |
| RiskEvaluator.ImmediatelyTriggers | src/agents/risk_evaluator.py:50-55 | matching is by substring: "Immediately" triggers the test |
| RiskEvaluator.EvaluateRisk | src/agents/risk_evaluator.py:9-46 | the dict holds the symptoms and the context as given, the service's analysis and the immediate-attention flag of that analysis, and no "risk_level" |
| SymptomExtractor.SuccessLines | src/agents/symptom_extractor.py:69-71 | at most one line per result; one line per result exactly when all results succeeded |
| SymptomExtractor.SuccessLinesAppend | src/agents/symptom_extractor.py:69-71 | the lines of two result lists one after the other are the lines of each, in order |
| SymptomExtractor.FailureContributesNothing | src/agents/symptom_extractor.py:70 | removing a failed result does not change the lines |
| SymptomExtractor.SuccessIsCombined | src/agents/symptom_extractor.py:65-73 | each successful result's "type: content" line appears whole in the combined text |
| SymptomExtractor.NothingCombinesToEmpty | src/agents/symptom_extractor.py:69-73 | a missing or empty results list, or one without a success, combines to the empty text |
| SymptomExtractor.NoSuccessNoLines | src/agents/symptom_extractor.py:70 | results with no success give no lines |
| SymptomExtractor.CombineInputs | src/agents/symptom_extractor.py:65-73 | the loop builds one "type: content" line per successful result, in order, joined by newlines |
| SymptomExtractor.Combined | src/agents/symptom_extractor.py:65-73 | the combined text: the lines of the successful results of the optional "results" entry, joined by newlines |
| SymptomExtractor.ExtractionOf | src/agents/symptom_extractor.py:45-63 | a reply with an output gives success with that output and the reply's confidence, or 0.8 when it has none; a raising agent gives its message; a missing output gives the KeyError's message |
| SymptomExtractor.ExtractSymptoms | src/agents/symptom_extractor.py:45-63 | the method combines the inputs, asks the agent and shapes the result as `ExtractionOf` says |
| SymptomIntake.Status | src/core/symptom_intake.py:26-36 | a result's status is "success" iff it succeeded |
| SymptomIntake.ProcessTextInput | src/core/symptom_intake.py:19-36 | text that is empty or white space only fails with "Empty text input"; other text succeeds with its content unstripped |
| SymptomIntake.ProcessVoiceInput | src/core/symptom_intake.py:38-65 | a voice result succeeds with the transcript iff transcription produced one, and fails with the exception's message otherwise |
| SymptomIntake.ProcessImageInput | src/core/symptom_intake.py:67-104 | an image result succeeds with the description iff the vision call produced one, and fails with the exception's message otherwise |
| SymptomIntake.IntakeResults | src/core/symptom_intake.py:113-125 | one result per truthy argument, in the order text, voice, image, each the result of processing that argument |
| SymptomIntake.AllSucceeded | src/core/symptom_intake.py:129 | `all(...)` holds iff every result succeeded |
| SymptomIntake.OverallStatus | src/core/symptom_intake.py:127-130 | "success" iff every result succeeded, "partial_success" otherwise, and never anything else |
| SymptomIntake.ProcessMultiModalInput | src/core/symptom_intake.py:106-130 | the method appends the results in the order text, voice, image, and reports their aggregate status |
| SymptomIntake.BlankTextIsPartial | src/core/symptom_intake.py:23-24 | a white-space-only text makes the whole intake a partial success, whatever else was given |
| SymptomIntake.NothingGivenIsSuccess | src/core/symptom_intake.py:113-130 | with no input the results are empty and the status is "success" |
| Copilot.NormalizeSymptoms | src/main.py:56-61 | a string becomes a one-element list, a list stays as it is, a dict becomes its keys, and a scalar makes `list()` raise a TypeError |
| Copilot.NormalizeIdempotent | src/main.py:56-61 | normalising a normalised list again changes nothing |
| Copilot.ProcessInput | src/main.py:24-82 | the input-error branch is never taken; an extraction error is passed back; a scalar symptom value gives the error response of the outer handler; otherwise success with the intake, the raw extraction and the similar cases asked for with limit 3 |
| Text.Lower | src/agents/risk_evaluator.py:55 | `lower()` keeps the length and lower-cases each ASCII letter |
| Text.TrimStart | src/core/symptom_intake.py:23 | the stripped prefix is white space, and what remains does not start with white space |
| Text.TrimEnd | src/core/symptom_intake.py:23 | the stripped suffix is white space, and what remains does not end with white space |
| Text.Strip | src/core/symptom_intake.py:23 | `str.strip()`: the leading and trailing white space removed |
| Text.StripEmptyIffBlank | src/core/symptom_intake.py:23 | `len(text.strip()) == 0` iff the text is white space only |
| Text.Join | src/agents/symptom_extractor.py:73 | `sep.join(parts)` |
| Text.Contains | src/agents/risk_evaluator.py:55 | the executable `in` test holds iff the needle occurs in the text |
| PyValues.Get | src/workflow/medical_workflow.py:118-126 | `d.get(key)` finds a value iff the key is present |
| PyValues.Set | src/utils/safety_compliance.py:113 | after `d[key] = v`, the key maps to v |
| PyValues.SetKeys | src/utils/safety_compliance.py:113 | assigning an existing key keeps the keys and their order; a new key goes last |
| PyValues.SetKeepsOthers | src/utils/safety_compliance.py:113 | assigning one key leaves every other key's value unchanged |
| PyValues.Repr | src/utils/safety_compliance.py:71-83 | `repr(v)`, which `str()` uses for a dict or list and for the values inside it: quoted, escaped strings, and entries separated by ", " |
| PyValues.StrOf | src/utils/safety_compliance.py:71 | `str(v)`: a string as itself, any other value as its `repr` |
| PyValues.ListReprHasItem | src/workflow/medical_workflow.py:206 | `str` of a list shows the `repr` of each of its items |
| PyValues.SingleEntryRepr | src/workflow/medical_workflow.py:206-212 | `str` of a one-entry dict is the key's repr, a colon and the value's repr, between braces |

## Left out

- I/O of every kind is out of the model. This covers the language-model
  prompts, the graph-store queries, the fact-check HTTP call, Whisper,
  Deepgram, the vision call and the reading of files. Each is a
  function-typed parameter or field, whose answer the model does not
  constrain.
- `async` and the event loop are out. The model runs everything in
  sequence.
- The langgraph engine is out: the chain is the fixed node sequence of its
  edges.
- `log_access_attempt` is out: it only prints.
- Settings are parameters. `DefaultSettings` records the defaults.
- `_prepare_query` is an abstract function of the diagnosis. On a
  diagnosis that is not a dict it raises outside the `try`. The model does
  not capture that exception, and a non-dict diagnosis reaches the HTTP
  call abstraction instead.
- The extraction node calls `SymptomExtractor.extract_symptoms` with a
  string where the method expects a dict, and without awaiting it. The
  workflow's extraction is therefore an abstract function of the input.
  `SymptomExtractor` models the method as written, for its caller in
  `src/main.py`.
- Exceptions raised by a node's service propagate out of
  `process_patient_input` unhandled. The model's services always return,
  so that path is not represented.
- `get_risk_summary` is out: it is a prompt wrapper outside the core.
- The fact-checker's exception handling is covered as data: the outcome of
  the HTTP call, including `raise_for_status`, is `ApiOutcome`.
- Confidence scores and the threshold are mathematical reals, not
  floating-point numbers. `float()` is an abstract partial function.
- SafetyCompliance.CheckPii: the five regular expressions are not
  interpreted. The engine is abstract and promises only what
  `re.finditer` guarantees: non-empty, in-range, left-to-right,
  non-overlapping spans per pattern.
- SafetyCompliance.RedactPiiSegments: the segment and length property is
  proved only for matches that do not overlap one another. The code does
  not enforce this, and different patterns can overlap.
  `SafetyCompliance.RedactPii` itself has no precondition: it models the
  code exactly, including Python's clamped slicing.
- SafetyCompliance.SearchWord: case folding and word characters follow
  ASCII. Python's `re.IGNORECASE` and `\w` are Unicode-aware.
- Text.Lower: lower-cases ASCII letters only, where Python's `str.lower`
  lower-cases all of Unicode.
- PyValues.Repr: it models quote selection and the escapes for quotes,
  backslash, tab, newline, carriage return and the other ASCII control
  characters. It does not model Python's escaping of non-printable
  characters beyond ASCII. A scalar's repr is carried as given.
- SafetyCompliance.Sanitized: the rewritten text of the reasoning service
  is abstract. Only whether it is asked for, and where its answer goes, is
  modelled.
- Copilot.NormalizeSymptoms: a value other than a string, list or dict is
  treated as not iterable. `list()` of such a value raises, which the
  outer handler reports.
- MedicalWorkflow.Workflow.CheckPiiAndSensitiveContent: the source
  assigns `patient_input` and `pii_detected` before the sensitive check,
  while the method assigns all three keys at the end. No other code
  observes the state in between, so the final state is the same.

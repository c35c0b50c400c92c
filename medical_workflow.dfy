/**
 * The medical workflow: one case record, held in a mutable state, is passed
 * through a fixed chain of eleven nodes (gating, extraction, context, risk,
 * diagnosis, alternatives, judge, fact-check, validation decision, persistence,
 * recommendation). Every service the nodes call is a parameter; what is modelled
 * is the order of the nodes, which field each one writes, the validation
 * decision, and whether the case store is called and with what record.
 */
module MedicalWorkflow {
  import opened Wrappers
  import opened Text
  import opened PyValues
  import opened SafetyCompliance
  import opened PerplexityChecker
  import opened RiskEvaluator

  /** The settings the workflow reads. */
  datatype Settings = Settings(autonomousMode: bool, confidenceThreshold: real, perplexityApiKey: Option<string>)

  /** The defaults: controlled mode and a threshold of 0.8. */
  function DefaultSettings(perplexityApiKey: Option<string>): (s: Settings)
    ensures !s.autonomousMode && s.confidenceThreshold == 0.8
  {
    Settings(false, 0.8, perplexityApiKey)
  }

  /** The fact-checker the workflow builds from its settings. */
  function CheckerOf(settings: Settings): Checker {
    Checker(settings.perplexityApiKey, settings.confidenceThreshold)
  }

  /**
   * The services the nodes call, each an uninterpreted function: the PII
   * patterns, the symptom extractor, the knowledge retriever, the rewriting
   * service of the sanitiser, the risk service, the diagnosis and alternative
   * generators, the judge, the fact-check query, HTTP call and `float()`, and the
   * judge's risk validation and final recommendation.
   */
  datatype Agents = Agents(
    findPii: PatternFinder,
    extractSymptoms: string -> Value,
    retrieveContext: Value -> seq<Entry>,
    sanitizeRewrite: (string, seq<string>) -> string,
    assessRisk: (Value, Value) -> string,
    generateDiagnoses: (Value, Value) -> Value,
    generateAlternatives: (Value, Value) -> Value,
    judge: (Value, Value, Value, Value) -> Value,
    factCheckQuery: Value -> string,
    factCheckApi: string -> ApiOutcome,
    toFloat: Value -> Option<real>,
    validateRisk: seq<Entry> -> Value,
    finalRecommendation: (Value, Value) -> string)

  /** The contents of the state dict at one moment. */
  datatype Snapshot = Snapshot(
    patientInput: string,
    userRole: string,
    symptoms: Value,
    medicalContext: seq<Entry>,
    riskAssessment: seq<Entry>,
    diagnosis: Value,
    alternatives: Value,
    evaluation: Value,
    finalRecommendation: string,
    perplexityCheck: Option<FactCheck>,
    requiresValidation: bool,
    validationStatus: Option<bool>,
    piiDetected: bool,
    sensitiveContentDetected: bool)

  /** The keys of the state dict. */
  datatype Field =
    | PatientInput | UserRole | Symptoms | MedicalContext | RiskAssessment | Diagnosis
    | Alternatives | Evaluation | FinalRecommendation | PerplexityCheck | RequiresValidation
    | ValidationStatus | PiiDetected | SensitiveContentDetected

  /** `s` and `t` hold the same value under key `f`. */
  predicate Agree(s: Snapshot, t: Snapshot, f: Field) {
    match f
    case PatientInput => s.patientInput == t.patientInput
    case UserRole => s.userRole == t.userRole
    case Symptoms => s.symptoms == t.symptoms
    case MedicalContext => s.medicalContext == t.medicalContext
    case RiskAssessment => s.riskAssessment == t.riskAssessment
    case Diagnosis => s.diagnosis == t.diagnosis
    case Alternatives => s.alternatives == t.alternatives
    case Evaluation => s.evaluation == t.evaluation
    case FinalRecommendation => s.finalRecommendation == t.finalRecommendation
    case PerplexityCheck => s.perplexityCheck == t.perplexityCheck
    case RequiresValidation => s.requiresValidation == t.requiresValidation
    case ValidationStatus => s.validationStatus == t.validationStatus
    case PiiDetected => s.piiDetected == t.piiDetected
    case SensitiveContentDetected => s.sensitiveContentDetected == t.sensitiveContentDetected
  }

  /** The state `process_patient_input` starts from. */
  function Initial(patientInput: string, userRole: string): Snapshot {
    Snapshot(patientInput, userRole, List([]), [], [], Dict([]), Dict([]), Dict([]), "",
             None, false, None, false, false)
  }

  /** The nodes of the graph. */
  datatype Stage =
    | Gating | Extraction | ContextRetrieval | RiskEvaluation | DiagnosisGeneration
    | AlternativeGeneration | Judging | FactChecking | ValidationDecision | Persistence
    | Recommendation

  /** The entry point and the edges: every node has exactly one successor, in this order. */
  const Pipeline: seq<Stage> := [
    Gating, Extraction, ContextRetrieval, RiskEvaluation, DiagnosisGeneration,
    AlternativeGeneration, Judging, FactChecking, ValidationDecision, Persistence,
    Recommendation
  ]

  /** The keys each node assigns. */
  function Writes(stage: Stage): set<Field> {
    match stage
    case Gating => {PatientInput, PiiDetected, SensitiveContentDetected}
    case Extraction => {Symptoms}
    case ContextRetrieval => {MedicalContext}
    case RiskEvaluation => {RiskAssessment}
    case DiagnosisGeneration => {Diagnosis}
    case AlternativeGeneration => {Alternatives}
    case Judging => {Evaluation}
    case FactChecking => {PerplexityCheck}
    case ValidationDecision => {RequiresValidation}
    case Persistence => {}
    case Recommendation => {FinalRecommendation}
  }

  /**
   * The gating node: the input is checked for PII and, only when some was found,
   * replaced by its redaction; the sensitive-term check then looks at the text as
   * it stands after redaction.
   */
  function Gated(s: Snapshot, find: PatternFinder): (r: Snapshot)
    ensures r.piiDetected <==> |PiiMatches(find, s.patientInput)| > 0
    ensures r.piiDetected ==> r.patientInput == ReplaceAll(s.patientInput, SortByStartDesc(PiiMatches(find, s.patientInput)))
    ensures !r.piiDetected ==> r.patientInput == s.patientInput
    ensures r.sensitiveContentDetected == IsSensitive(r.patientInput)
    ensures r == s.(patientInput := r.patientInput, piiDetected := r.piiDetected,
                    sensitiveContentDetected := r.sensitiveContentDetected)
  {
    var matches := PiiMatches(find, s.patientInput);
    var input := if |matches| > 0 then ReplaceAll(s.patientInput, SortByStartDesc(matches)) else s.patientInput;
    s.(patientInput := input, piiDetected := |matches| > 0, sensitiveContentDetected := IsSensitive(input))
  }

  /** `state["perplexity_check"].get("confidence_score", 0)`; the initial `{}` reads as 0 too. */
  function ConfidenceOf(check: Option<FactCheck>): (score: real)
    ensures check.None? ==> score == 0.0
    ensures check.Some? ==> score == ConfidenceOrZero(check.value)
  {
    match check
    case None => 0.0
    case Some(fc) => ConfidenceOrZero(fc)
  }

  /**
   * The validation decision, as an ordered policy: a doctor never needs
   * validation; otherwise controlled mode always does; in autonomous mode a
   * confidence below the threshold or sensitive content does.
   */
  function ValidationRequired(userRole: string, settings: Settings, confidence: real, sensitive: bool): (r: bool)
    ensures userRole == "doctor" ==> !r
    ensures userRole != "doctor" && !settings.autonomousMode ==> r
    ensures userRole != "doctor" && settings.autonomousMode ==>
              (r <==> confidence < settings.confidenceThreshold || sensitive)
  {
    if userRole == "doctor" then false
    else if !settings.autonomousMode then true
    else if confidence < settings.confidenceThreshold then true
    else sensitive
  }

  /** What one node does to the state. */
  function Step(stage: Stage, s: Snapshot, settings: Settings, agents: Agents): Snapshot {
    match stage
    case Gating => Gated(s, agents.findPii)
    case Extraction => s.(symptoms := agents.extractSymptoms(s.patientInput))
    case ContextRetrieval =>
      s.(medicalContext := Sanitized(agents.retrieveContext(s.symptoms), s.userRole, agents.sanitizeRewrite))
    case RiskEvaluation =>
      s.(riskAssessment := EvaluateRisk(s.symptoms, Dict(s.medicalContext), agents.assessRisk))
    case DiagnosisGeneration =>
      s.(diagnosis := agents.generateDiagnoses(s.symptoms, Dict(s.medicalContext)))
    case AlternativeGeneration =>
      s.(alternatives := agents.generateAlternatives(s.symptoms, s.diagnosis))
    case Judging =>
      s.(evaluation := agents.judge(s.symptoms, Dict(s.medicalContext), s.diagnosis, s.alternatives))
    case FactChecking =>
      s.(perplexityCheck := Some(CheckDiagnosis(CheckerOf(settings), s.diagnosis, agents.factCheckQuery,
                                                agents.factCheckApi, agents.toFloat)))
    case ValidationDecision =>
      s.(requiresValidation := ValidationRequired(s.userRole, settings, ConfidenceOf(s.perplexityCheck),
                                                  s.sensitiveContentDetected))
    case Persistence => s
    case Recommendation =>
      s.(finalRecommendation := agents.finalRecommendation(s.evaluation, agents.validateRisk(s.riskAssessment)))
  }

  /**
   * The nodes run one after the other, each on the state the previous one left.
   * (`s` is named in the decreases clause so that a run of the literal pipeline
   * is unfolded only where a proof asks for it.)
   */
  function RunStages(stages: seq<Stage>, s: Snapshot, settings: Settings, agents: Agents): Snapshot
    decreases |stages|, s
  {
    if |stages| == 0 then s else RunStages(stages[1..], Step(stages[0], s, settings, agents), settings, agents)
  }

  /** The state the graph returns for one request. */
  function Run(patientInput: string, userRole: string, settings: Settings, agents: Agents): Snapshot {
    RunStages(Pipeline, Initial(patientInput, userRole), settings, agents)
  }

  /** A node assigns no key other than those `Writes` names. */
  lemma StepWritesOnly(stage: Stage, s: Snapshot, settings: Settings, agents: Agents, f: Field)
    requires f !in Writes(stage)
    ensures Agree(s, Step(stage, s, settings, agents), f)
  {
    match stage
    case Gating =>
    case Extraction =>
    case ContextRetrieval =>
    case RiskEvaluation =>
    case DiagnosisGeneration =>
    case AlternativeGeneration =>
    case Judging =>
    case FactChecking =>
    case ValidationDecision =>
    case Persistence =>
    case Recommendation =>
  }

  /** Running one more node after a prefix of nodes. */
  lemma {:induction false} RunSnoc(stages: seq<Stage>, last: Stage, s: Snapshot, settings: Settings, agents: Agents)
    ensures RunStages(stages + [last], s, settings, agents)
            == Step(last, RunStages(stages, s, settings, agents), settings, agents)
    decreases |stages|
  {
    if |stages| > 0 {
      assert (stages + [last])[1..] == stages[1..] + [last];
      RunSnoc(stages[1..], last, Step(stages[0], s, settings, agents), settings, agents);
    }
  }

  /** The state after the first `k + 1` nodes is the state after `k` of them, with node `k` applied. */
  lemma RunPrefix(k: nat, s: Snapshot, settings: Settings, agents: Agents)
    requires k < |Pipeline|
    ensures RunStages(Pipeline[..k + 1], s, settings, agents)
            == Step(Pipeline[k], RunStages(Pipeline[..k], s, settings, agents), settings, agents)
  {
    assert Pipeline[..k + 1] == Pipeline[..k] + [Pipeline[k]];
    RunSnoc(Pipeline[..k], Pipeline[k], s, settings, agents);
  }

  /** A key that no node of a run assigns keeps its value through the run. */
  lemma {:induction false} RunKeeps(stages: seq<Stage>, s: Snapshot, settings: Settings, agents: Agents, f: Field)
    requires forall i :: 0 <= i < |stages| ==> f !in Writes(stages[i])
    ensures Agree(s, RunStages(stages, s, settings, agents), f)
    decreases |stages|
  {
    if |stages| > 0 {
      StepWritesOnly(stages[0], s, settings, agents, f);
      RunKeeps(stages[1..], Step(stages[0], s, settings, agents), settings, agents, f);
    }
  }

  /** The record `store_in_neo4j` hands to the case store. */
  datatype CaseRecord = CaseRecord(
    symptoms: Value, diagnosis: Value, confidence: real, riskLevel: Value,
    userRole: string, sensitiveContent: bool)

  /** `not requires_validation or validation_status`. */
  predicate ShouldStore(s: Snapshot) {
    !s.requiresValidation || s.validationStatus == Some(true)
  }

  /** The record built from the state; a missing risk level reads as "unknown". */
  function RecordOf(s: Snapshot): (rec: CaseRecord)
    ensures rec.symptoms == s.symptoms && rec.diagnosis == s.diagnosis
    ensures rec.confidence == ConfidenceOf(s.perplexityCheck)
    ensures !HasKey(s.riskAssessment, "risk_level") ==> rec.riskLevel == Str("unknown")
    ensures HasKey(s.riskAssessment, "risk_level") ==> Get(s.riskAssessment, "risk_level") == Some(rec.riskLevel)
    ensures rec.userRole == s.userRole && rec.sensitiveContent == s.sensitiveContentDetected
  {
    CaseRecord(s.symptoms, s.diagnosis, ConfidenceOf(s.perplexityCheck),
               Get(s.riskAssessment, "risk_level").GetOr(Str("unknown")),
               s.userRole, s.sensitiveContentDetected)
  }

  /** The calls to the case store that the persistence node makes on state `s`. */
  function StoreCalls(s: Snapshot): (calls: seq<CaseRecord>)
    ensures |calls| <= 1
    ensures |calls| == 1 <==> ShouldStore(s)
    ensures |calls| == 1 ==> calls[0] == RecordOf(s)
  {
    if ShouldStore(s) then [RecordOf(s)] else []
  }

  /** The recommendation, written after the store, has no part in what is stored. */
  lemma StoreCallsIgnoreRecommendation(s: Snapshot, recommendation: string)
    ensures StoreCalls(s.(finalRecommendation := recommendation)) == StoreCalls(s)
  {
  }

  /** The state dict of one request, updated in place by the nodes. */
  class CaseState {
    var patientInput: string
    var userRole: string
    var symptoms: Value
    var medicalContext: seq<Entry>
    var riskAssessment: seq<Entry>
    var diagnosis: Value
    var alternatives: Value
    var evaluation: Value
    var finalRecommendation: string
    var perplexityCheck: Option<FactCheck>
    var requiresValidation: bool
    var validationStatus: Option<bool>
    var piiDetected: bool
    var sensitiveContentDetected: bool

    function Contents(): Snapshot
      reads this
    {
      Snapshot(patientInput, userRole, symptoms, medicalContext, riskAssessment, diagnosis,
                        alternatives, evaluation, finalRecommendation, perplexityCheck,
                        requiresValidation, validationStatus, piiDetected, sensitiveContentDetected)
    }

    /** The initial state of `process_patient_input`. */
    constructor (patientInput: string, userRole: string)
      ensures Contents() == Initial(patientInput, userRole)
    {
      this.patientInput := patientInput;
      this.userRole := userRole;
      symptoms := List([]);
      medicalContext := [];
      riskAssessment := [];
      diagnosis := Dict([]);
      alternatives := Dict([]);
      evaluation := Dict([]);
      finalRecommendation := "";
      perplexityCheck := None;
      requiresValidation := false;
      validationStatus := None;
      piiDetected := false;
      sensitiveContentDetected := false;
    }
  }

  /** The workflow: its settings and services, and the log of what it handed to the case store. */
  class Workflow {
    const settings: Settings
    const agents: Agents
    var stored: seq<CaseRecord>

    constructor (settings: Settings, agents: Agents)
      ensures this.settings == settings && this.agents == agents && stored == []
    {
      this.settings := settings;
      this.agents := agents;
      stored := [];
    }

    /** The gating node; the three keys it writes are assigned together at the end. */
    method CheckPiiAndSensitiveContent(state: CaseState)
      modifies state
      ensures state.Contents() == Step(Gating, old(state.Contents()), settings, agents)
    {
      var input := state.patientInput;
      var hasPii, piiMatches := CheckPii(agents.findPii, input);
      if hasPii {
        input := RedactPii(input, piiMatches);
      }
      var hasSensitive, _ := CheckSensitiveContent(input);
      state.patientInput := input;
      state.piiDetected := hasPii;
      state.sensitiveContentDetected := hasSensitive;
    }

    method ExtractSymptoms(state: CaseState)
      modifies state
      ensures state.Contents() == Step(Extraction, old(state.Contents()), settings, agents)
    {
      state.symptoms := agents.extractSymptoms(state.patientInput);
    }

    method RetrieveMedicalContext(state: CaseState)
      modifies state
      ensures state.Contents() == Step(ContextRetrieval, old(state.Contents()), settings, agents)
    {
      state.medicalContext := agents.retrieveContext(state.symptoms);
      var sanitized := SanitizeMedicalContext(state.medicalContext, state.userRole, agents.sanitizeRewrite);
      state.medicalContext := sanitized;
    }

    method EvaluateRiskNode(state: CaseState)
      modifies state
      ensures state.Contents() == Step(RiskEvaluation, old(state.Contents()), settings, agents)
    {
      state.riskAssessment := EvaluateRisk(state.symptoms, Dict(state.medicalContext), agents.assessRisk);
    }

    method GenerateDiagnosis(state: CaseState)
      modifies state
      ensures state.Contents() == Step(DiagnosisGeneration, old(state.Contents()), settings, agents)
    {
      state.diagnosis := agents.generateDiagnoses(state.symptoms, Dict(state.medicalContext));
    }

    method GenerateAlternatives(state: CaseState)
      modifies state
      ensures state.Contents() == Step(AlternativeGeneration, old(state.Contents()), settings, agents)
    {
      state.alternatives := agents.generateAlternatives(state.symptoms, state.diagnosis);
    }

    method EvaluateWithJudge(state: CaseState)
      modifies state
      ensures state.Contents() == Step(Judging, old(state.Contents()), settings, agents)
    {
      state.evaluation := agents.judge(state.symptoms, Dict(state.medicalContext), state.diagnosis, state.alternatives);
    }

    method CheckWithPerplexity(state: CaseState)
      modifies state
      ensures state.Contents() == Step(FactChecking, old(state.Contents()), settings, agents)
    {
      state.perplexityCheck := Some(CheckDiagnosis(CheckerOf(settings), state.diagnosis, agents.factCheckQuery,
                                                   agents.factCheckApi, agents.toFloat));
    }

    /** The flag is cleared first and then set by the first rule that applies. */
    method CheckValidationRequired(state: CaseState)
      modifies state
      ensures state.Contents() == Step(ValidationDecision, old(state.Contents()), settings, agents)
    {
      if state.userRole == "doctor" {
        state.requiresValidation := false;
        return;
      }
      state.requiresValidation := false;
      if !settings.autonomousMode {
        state.requiresValidation := true;
      } else if ConfidenceOf(state.perplexityCheck) < settings.confidenceThreshold {
        state.requiresValidation := true;
      } else if state.sensitiveContentDetected {
        state.requiresValidation := true;
      }
    }

    /** The state is left as it is; the case store is called when the decision allows it. */
    method StoreInNeo4j(state: CaseState)
      modifies this
      ensures state.Contents() == Step(Persistence, old(state.Contents()), settings, agents)
      ensures stored == old(stored) + StoreCalls(state.Contents())
    {
      if !state.requiresValidation || state.validationStatus == Some(true) {
        var caseData := CaseRecord(state.symptoms, state.diagnosis, ConfidenceOf(state.perplexityCheck),
                                   Get(state.riskAssessment, "risk_level").GetOr(Str("unknown")),
                                   state.userRole, state.sensitiveContentDetected);
        stored := stored + [caseData];
      }
    }

    method GenerateFinalRecommendation(state: CaseState)
      modifies state
      ensures state.Contents() == Step(Recommendation, old(state.Contents()), settings, agents)
      ensures state.Contents() == old(state.Contents()).(finalRecommendation := state.finalRecommendation)
    {
      var riskValidation := agents.validateRisk(state.riskAssessment);
      state.finalRecommendation := agents.finalRecommendation(state.evaluation, riskValidation);
    }

    /**
     * `process_patient_input`: a fresh state runs through the nodes in the order
     * of the edges; the store is called at most once, exactly as the decision allows.
     */
    method ProcessPatientInput(patientInput: string, userRole: string) returns (finalState: CaseState)
      modifies this
      ensures fresh(finalState)
      ensures finalState.Contents() == Run(patientInput, userRole, settings, agents)
      ensures stored == old(stored) + StoreCalls(finalState.Contents())
    {
      var state := new CaseState(patientInput, userRole);
      ghost var s0 := state.Contents();
      CheckPiiAndSensitiveContent(state);
      ghost var s1 := state.Contents();
      ExtractSymptoms(state);
      ghost var s2 := state.Contents();
      RetrieveMedicalContext(state);
      ghost var s3 := state.Contents();
      EvaluateRiskNode(state);
      ghost var s4 := state.Contents();
      GenerateDiagnosis(state);
      ghost var s5 := state.Contents();
      GenerateAlternatives(state);
      ghost var s6 := state.Contents();
      EvaluateWithJudge(state);
      ghost var s7 := state.Contents();
      CheckWithPerplexity(state);
      ghost var s8 := state.Contents();
      CheckValidationRequired(state);
      ghost var s9 := state.Contents();
      StoreInNeo4j(state);
      ghost var s10 := state.Contents();
      ghost var storedNow := stored;
      assert storedNow == old(stored) + StoreCalls(s10);
      GenerateFinalRecommendation(state);
      assert stored == storedNow;
      StoreCallsIgnoreRecommendation(s10, state.finalRecommendation);
      RunOpening(s0, settings, agents);
      RunMiddle(s4, settings, agents);
      RunClosing(s8, settings, agents);
      finalState := state;
    }
  }

  /** The chain of the edges, written out node by node: the first four nodes. */
  lemma RunOpening(s: Snapshot, settings: Settings, agents: Agents)
    ensures RunStages(Pipeline, s, settings, agents)
      == RunStages(Pipeline[4..], Step(RiskEvaluation, Step(ContextRetrieval, Step(Extraction,
           Step(Gating, s, settings, agents), settings, agents), settings, agents), settings, agents), settings, agents)
  {
    var p := Pipeline;
    var s1 := Step(Gating, s, settings, agents);
    var s2 := Step(Extraction, s1, settings, agents);
    var s3 := Step(ContextRetrieval, s2, settings, agents);
    assert p[1..][1..] == p[2..] && p[2..][1..] == p[3..] && p[3..][1..] == p[4..];
    calc {
      RunStages(p, s, settings, agents);
      RunStages(p[1..], s1, settings, agents);
      RunStages(p[2..], s2, settings, agents);
      RunStages(p[3..], s3, settings, agents);
    }
  }

  /** The next four nodes. */
  lemma RunMiddle(s: Snapshot, settings: Settings, agents: Agents)
    ensures RunStages(Pipeline[4..], s, settings, agents)
      == RunStages(Pipeline[8..], Step(FactChecking, Step(Judging, Step(AlternativeGeneration,
           Step(DiagnosisGeneration, s, settings, agents), settings, agents), settings, agents), settings, agents), settings, agents)
  {
    var p := Pipeline;
    var s5 := Step(DiagnosisGeneration, s, settings, agents);
    var s6 := Step(AlternativeGeneration, s5, settings, agents);
    var s7 := Step(Judging, s6, settings, agents);
    assert p[4..][1..] == p[5..] && p[5..][1..] == p[6..] && p[6..][1..] == p[7..] && p[7..][1..] == p[8..];
    calc {
      RunStages(p[4..], s, settings, agents);
      RunStages(p[5..], s5, settings, agents);
      RunStages(p[6..], s6, settings, agents);
      RunStages(p[7..], s7, settings, agents);
    }
  }

  /** The last three nodes. */
  lemma RunClosing(s: Snapshot, settings: Settings, agents: Agents)
    ensures RunStages(Pipeline[8..], s, settings, agents)
      == Step(Recommendation, Step(Persistence, Step(ValidationDecision, s, settings, agents), settings, agents), settings, agents)
  {
    var p := Pipeline;
    var s9 := Step(ValidationDecision, s, settings, agents);
    var s10 := Step(Persistence, s9, settings, agents);
    assert p[8..][1..] == p[9..] && p[9..][1..] == p[10..] && p[10..][1..] == [];
    calc {
      RunStages(p[8..], s, settings, agents);
      RunStages(p[9..], s9, settings, agents);
      RunStages(p[10..], s10, settings, agents);
      RunStages([], Step(Recommendation, s10, settings, agents), settings, agents);
    }
  }

  /** Running two runs of nodes one after the other. */
  lemma {:induction false} RunAppend(a: seq<Stage>, b: seq<Stage>, s: Snapshot, settings: Settings, agents: Agents)
    ensures RunStages(a + b, s, settings, agents) == RunStages(b, RunStages(a, s, settings, agents), settings, agents)
    decreases |a|
  {
    if |a| == 0 {
      assert a + b == b;
    } else {
      assert (a + b)[1..] == a[1..] + b;
      RunAppend(a[1..], b, Step(a[0], s, settings, agents), settings, agents);
    }
  }

  /** The state after the first `k` nodes of the chain. */
  function Before(k: nat, s: Snapshot, settings: Settings, agents: Agents): Snapshot
    requires k <= |Pipeline|
  {
    RunStages(Pipeline[..k], s, settings, agents)
  }

  /** The node that assigns each key, if any: every key has at most one writer. */
  function Writer(f: Field): (k: Option<nat>)
    ensures k.Some? ==> k.value < |Pipeline|
  {
    match f
    case PatientInput => Some(0)
    case PiiDetected => Some(0)
    case SensitiveContentDetected => Some(0)
    case Symptoms => Some(1)
    case MedicalContext => Some(2)
    case RiskAssessment => Some(3)
    case Diagnosis => Some(4)
    case Alternatives => Some(5)
    case Evaluation => Some(6)
    case PerplexityCheck => Some(7)
    case RequiresValidation => Some(8)
    case FinalRecommendation => Some(10)
    case UserRole => None
    case ValidationStatus => None
  }

  /** Node `j` assigns key `f` exactly when it is that key's writer. */
  lemma SoleWriter(f: Field, j: nat)
    requires j < |Pipeline|
    ensures f in Writes(Pipeline[j]) <==> Writer(f) == Some(j)
  {
  }

  /** A key whose writer, if any, comes before node `k` has, at the end, the value it had before node `k`. */
  lemma KeptAfter(k: nat, s: Snapshot, settings: Settings, agents: Agents, f: Field)
    requires k <= |Pipeline|
    requires Writer(f).None? || Writer(f).value < k
    ensures Agree(Before(k, s, settings, agents), RunStages(Pipeline, s, settings, agents), f)
  {
    assert Pipeline == Pipeline[..k] + Pipeline[k..];
    RunAppend(Pipeline[..k], Pipeline[k..], s, settings, agents);
    forall i | 0 <= i < |Pipeline[k..]| ensures f !in Writes(Pipeline[k..][i]) {
      assert Pipeline[k..][i] == Pipeline[k + i];
      SoleWriter(f, k + i);
    }
    RunKeeps(Pipeline[k..], Before(k, s, settings, agents), settings, agents, f);
  }

  /** The value a key has at the end is the one its writer, node `k`, gave it. */
  lemma LastWrite(k: nat, s: Snapshot, settings: Settings, agents: Agents, f: Field)
    requires k < |Pipeline| && Writer(f) == Some(k)
    ensures Agree(Step(Pipeline[k], Before(k, s, settings, agents), settings, agents),
                  RunStages(Pipeline, s, settings, agents), f)
  {
    RunPrefix(k, s, settings, agents);
    KeptAfter(k + 1, s, settings, agents, f);
  }

  /** No node assigns the role or the validation status: they keep their initial values. */
  lemma RoleAndStatusKept(patientInput: string, userRole: string, settings: Settings, agents: Agents)
    ensures Run(patientInput, userRole, settings, agents).userRole == userRole
    ensures Run(patientInput, userRole, settings, agents).validationStatus == None
  {
    assert Pipeline[..0] == [];
    KeptAfter(0, Initial(patientInput, userRole), settings, agents, UserRole);
    KeptAfter(0, Initial(patientInput, userRole), settings, agents, ValidationStatus);
  }

  /**
   * The returned state agrees with the validation policy: its flag is the
   * decision for its own role, confidence score and sensitive-content flag.
   */
  lemma RunFollowsPolicy(patientInput: string, userRole: string, settings: Settings, agents: Agents)
    ensures var r := Run(patientInput, userRole, settings, agents);
      r.requiresValidation
      == ValidationRequired(r.userRole, settings, ConfidenceOf(r.perplexityCheck), r.sensitiveContentDetected)
  {
    var s := Initial(patientInput, userRole);
    DecisionSettled(s, settings, agents);
    DecisionInputsSettled(s, settings, agents);
    DecisionStep(Before(8, s, settings, agents), settings, agents);
  }

  /** Nothing after the validation node changes its decision. */
  lemma DecisionSettled(s: Snapshot, settings: Settings, agents: Agents)
    ensures RunStages(Pipeline, s, settings, agents).requiresValidation
      == Step(ValidationDecision, Before(8, s, settings, agents), settings, agents).requiresValidation
  {
    assert Pipeline[8] == ValidationDecision;
    LastWrite(8, s, settings, agents, RequiresValidation);
  }

  /** Nor what the decision read: the role, the fact-check and the sensitive-content flag. */
  lemma DecisionInputsSettled(s: Snapshot, settings: Settings, agents: Agents)
    ensures var b := Before(8, s, settings, agents);
      var r := RunStages(Pipeline, s, settings, agents);
      r.userRole == b.userRole && r.perplexityCheck == b.perplexityCheck
      && r.sensitiveContentDetected == b.sensitiveContentDetected
  {
    KeptAfter(8, s, settings, agents, UserRole);
    KeptAfter(8, s, settings, agents, PerplexityCheck);
    KeptAfter(8, s, settings, agents, SensitiveContentDetected);
  }

  /** The validation node applies the policy to the state it is given. */
  lemma DecisionStep(b: Snapshot, settings: Settings, agents: Agents)
    ensures Step(ValidationDecision, b, settings, agents).requiresValidation
      == ValidationRequired(b.userRole, settings, ConfidenceOf(b.perplexityCheck), b.sensitiveContentDetected)
  {
  }

  /** A doctor's case never needs validation, whatever the mode, confidence or content. */
  lemma DoctorNeverNeedsValidation(patientInput: string, settings: Settings, agents: Agents)
    ensures !Run(patientInput, "doctor", settings, agents).requiresValidation
  {
    RunFollowsPolicy(patientInput, "doctor", settings, agents);
    RoleAndStatusKept(patientInput, "doctor", settings, agents);
  }

  /** In controlled mode every other role, unknown ones included, needs validation. */
  lemma ControlledModeNeedsValidation(patientInput: string, userRole: string, settings: Settings, agents: Agents)
    requires userRole != "doctor" && !settings.autonomousMode
    ensures Run(patientInput, userRole, settings, agents).requiresValidation
  {
    RunFollowsPolicy(patientInput, userRole, settings, agents);
    RoleAndStatusKept(patientInput, userRole, settings, agents);
  }

  /** In autonomous mode another role needs validation iff the score is below the threshold or the content is sensitive. */
  lemma AutonomousModeDecision(patientInput: string, userRole: string, settings: Settings, agents: Agents)
    requires userRole != "doctor" && settings.autonomousMode
    ensures var r := Run(patientInput, userRole, settings, agents);
      r.requiresValidation
      <==> ConfidenceOf(r.perplexityCheck) < settings.confidenceThreshold || r.sensitiveContentDetected
  {
    RunFollowsPolicy(patientInput, userRole, settings, agents);
    RoleAndStatusKept(patientInput, userRole, settings, agents);
  }

  /** The fact-check in the returned state is the one made on the generated diagnosis. */
  lemma RunFactCheck(patientInput: string, userRole: string, settings: Settings, agents: Agents)
    ensures var r := Run(patientInput, userRole, settings, agents);
      r.perplexityCheck == Some(CheckDiagnosis(CheckerOf(settings), r.diagnosis, agents.factCheckQuery,
                                               agents.factCheckApi, agents.toFloat))
  {
    var s := Initial(patientInput, userRole);
    FactCheckSettled(s, settings, agents);
    FactCheckStep(Before(7, s, settings, agents), settings, agents);
  }

  /** Nothing after the fact-check node changes its result or the diagnosis it checked. */
  lemma FactCheckSettled(s: Snapshot, settings: Settings, agents: Agents)
    ensures var b := Before(7, s, settings, agents);
      var r := RunStages(Pipeline, s, settings, agents);
      r.perplexityCheck == Step(FactChecking, b, settings, agents).perplexityCheck && r.diagnosis == b.diagnosis
  {
    KeptAfter(7, s, settings, agents, Diagnosis);
    assert Pipeline[7] == FactChecking;
    LastWrite(7, s, settings, agents, PerplexityCheck);
  }

  /** The fact-check node checks the diagnosis of the state it is given. */
  lemma FactCheckStep(b: Snapshot, settings: Settings, agents: Agents)
    ensures Step(FactChecking, b, settings, agents).perplexityCheck
      == Some(CheckDiagnosis(CheckerOf(settings), b.diagnosis, agents.factCheckQuery, agents.factCheckApi, agents.toFloat))
  {
  }

  /**
   * Without a fact-check API key the score reads as 0, so with a positive
   * threshold a role other than doctor always needs validation.
   */
  lemma NoApiKeyNeedsValidation(patientInput: string, userRole: string, settings: Settings, agents: Agents)
    requires userRole != "doctor" && settings.confidenceThreshold > 0.0
    requires settings.perplexityApiKey.None? || settings.perplexityApiKey == Some("")
    ensures Run(patientInput, userRole, settings, agents).requiresValidation
  {
    RunFollowsPolicy(patientInput, userRole, settings, agents);
    RoleAndStatusKept(patientInput, userRole, settings, agents);
    RunFactCheck(patientInput, userRole, settings, agents);
  }

  /** So does a fact-check whose call raises, for a positive threshold. */
  lemma FailedFactCheckNeedsValidation(patientInput: string, userRole: string, settings: Settings, agents: Agents)
    requires userRole != "doctor" && settings.confidenceThreshold > 0.0
    requires forall q :: agents.factCheckApi(q).CallRaised?
    ensures Run(patientInput, userRole, settings, agents).requiresValidation
  {
    RunFollowsPolicy(patientInput, userRole, settings, agents);
    RoleAndStatusKept(patientInput, userRole, settings, agents);
    RunFactCheck(patientInput, userRole, settings, agents);
    var r := Run(patientInput, userRole, settings, agents);
    UncheckedScoresZero(CheckerOf(settings), r.diagnosis, agents.factCheckQuery, agents.factCheckApi, agents.toFloat);
  }

  /** Since nothing sets the validation status, a case is stored exactly when it needs no validation. */
  lemma StoredIffNoValidation(patientInput: string, userRole: string, settings: Settings, agents: Agents)
    ensures var r := Run(patientInput, userRole, settings, agents);
      (|StoreCalls(r)| == 1 <==> !r.requiresValidation) && (|StoreCalls(r)| == 0 <==> r.requiresValidation)
  {
    RoleAndStatusKept(patientInput, userRole, settings, agents);
  }

  /** A doctor's case is always stored. */
  lemma DoctorCasesAreStored(patientInput: string, settings: Settings, agents: Agents)
    ensures |StoreCalls(Run(patientInput, "doctor", settings, agents))| == 1
  {
    DoctorNeverNeedsValidation(patientInput, settings, agents);
    StoredIffNoValidation(patientInput, "doctor", settings, agents);
  }

  /** The risk assessment never holds a "risk_level", so a stored record's risk level is "unknown". */
  lemma StoredRiskLevelUnknown(patientInput: string, userRole: string, settings: Settings, agents: Agents)
    ensures RecordOf(Run(patientInput, userRole, settings, agents)).riskLevel == Str("unknown")
  {
    var s := Initial(patientInput, userRole);
    RiskSettled(s, settings, agents);
    RiskStep(Before(3, s, settings, agents), settings, agents);
  }

  /** Nothing after the risk node changes the assessment. */
  lemma RiskSettled(s: Snapshot, settings: Settings, agents: Agents)
    ensures RunStages(Pipeline, s, settings, agents).riskAssessment
      == Step(RiskEvaluation, Before(3, s, settings, agents), settings, agents).riskAssessment
  {
    assert Pipeline[3] == RiskEvaluation;
    LastWrite(3, s, settings, agents, RiskAssessment);
  }

  /** The risk node's assessment has no "risk_level" key. */
  lemma RiskStep(b: Snapshot, settings: Settings, agents: Agents)
    ensures !HasKey(Step(RiskEvaluation, b, settings, agents).riskAssessment, "risk_level")
  {
  }

  /**
   * Gating in the returned state: the PII flag says whether any pattern matched,
   * the input is the redacted text exactly when it did, and the sensitive flag
   * describes the text after redaction.
   */
  lemma GatingOutcome(patientInput: string, userRole: string, settings: Settings, agents: Agents)
    ensures var r := Run(patientInput, userRole, settings, agents);
      var matches := PiiMatches(agents.findPii, patientInput);
      && (r.piiDetected <==> |matches| > 0)
      && r.patientInput == (if |matches| > 0 then ReplaceAll(patientInput, SortByStartDesc(matches)) else patientInput)
      && (r.sensitiveContentDetected <==> exists t :: t in SensitiveConditions && HasWord(r.patientInput, t))
  {
    var s := Initial(patientInput, userRole);
    assert Pipeline[..0] == [];
    LastWrite(0, s, settings, agents, PatientInput);
    LastWrite(0, s, settings, agents, PiiDetected);
    LastWrite(0, s, settings, agents, SensitiveContentDetected);
    var r := Run(patientInput, userRole, settings, agents);
    var found := SensitiveTermsIn(r.patientInput);
    assert found != [] ==> found[0] in found;
  }

  // ---------------------------------------------------------------------------
  // Role-guarded queries
  // ---------------------------------------------------------------------------

  /** The dict `{"diagnosis_id": diagnosis_id}` whose text the access check reads. */
  function DiagnosisIdContent(diagnosisId: string): Value {
    Dict([Entry("diagnosis_id", Str(diagnosisId))])
  }

  /** `validate_diagnosis`: false when access is denied, the given verdict otherwise. */
  function ValidateDiagnosis(diagnosisId: string, isValid: bool, userRole: string): (r: bool)
    ensures r <==> isValid && ValidateUserAccess(userRole, DiagnosisIdContent(diagnosisId))
    ensures userRole == "doctor" ==> r == isValid
  {
    if !ValidateUserAccess(userRole, DiagnosisIdContent(diagnosisId)) then false else isValid
  }

  /** The dict `{"symptoms": symptoms}`. */
  function SymptomsContent(symptoms: seq<string>): Value {
    Dict([Entry("symptoms", List(seq(|symptoms|, i requires 0 <= i < |symptoms| => Str(symptoms[i]))))])
  }

  /** The number of similar cases asked for when the caller gives none. */
  const DefaultSimilarCaseLimit: int := 5

  /** `find_similar_cases`: nothing when access is denied, the store's answer otherwise. `lookup` stands for the store's query. */
  function FindSimilarCases(symptoms: seq<string>, userRole: string, limit: int,
                            lookup: (seq<string>, int) -> seq<Value>): (cases: seq<Value>)
    ensures !ValidateUserAccess(userRole, SymptomsContent(symptoms)) ==> cases == []
    ensures ValidateUserAccess(userRole, SymptomsContent(symptoms)) ==> cases == lookup(symptoms, limit)
  {
    if !ValidateUserAccess(userRole, SymptomsContent(symptoms)) then [] else lookup(symptoms, limit)
  }

  /** The dict `{"diagnosis": diagnosis}`. */
  function DiagnosisContent(diagnosis: string): Value {
    Dict([Entry("diagnosis", Str(diagnosis))])
  }

  /** `find_comorbidities`: nothing when access is denied, the store's answer otherwise. */
  function FindComorbidities(diagnosis: string, userRole: string, lookup: string -> seq<Value>): (found: seq<Value>)
    ensures !ValidateUserAccess(userRole, DiagnosisContent(diagnosis)) ==> found == []
    ensures ValidateUserAccess(userRole, DiagnosisContent(diagnosis)) ==> found == lookup(diagnosis)
  {
    if !ValidateUserAccess(userRole, DiagnosisContent(diagnosis)) then [] else lookup(diagnosis)
  }

  const UnauthorizedMessage: string := "Unauthorized access"

  /** `get_case_statistics`: only the role spelled exactly "doctor" gets the store's statistics. */
  function GetCaseStatistics(userRole: string, statistics: Value): (r: Value)
    ensures userRole != "doctor" ==> r == Dict([Entry("error", Str(UnauthorizedMessage))])
    ensures userRole == "doctor" ==> r == statistics
  {
    if userRole != "doctor" then Dict([Entry("error", Str(UnauthorizedMessage))]) else statistics
  }

  /** A doctor's queries always reach the store. */
  lemma DoctorQueriesReachStore(symptoms: seq<string>, diagnosis: string, limit: int,
                                similar: (seq<string>, int) -> seq<Value>, comorbid: string -> seq<Value>)
    ensures FindSimilarCases(symptoms, "doctor", limit, similar) == similar(symptoms, limit)
    ensures FindComorbidities(diagnosis, "doctor", comorbid) == comorbid(diagnosis)
  {
  }

  /** A symptom list naming a sensitive condition is refused to every role but "doctor". */
  lemma SensitiveSymptomIsRefused(symptoms: seq<string>, k: nat, t: string, userRole: string, limit: int,
                                  lookup: (seq<string>, int) -> seq<Value>)
    requires userRole != "doctor"
    requires k < |symptoms| && t in SensitiveConditions && Lower(symptoms[k]) == Lower(t)
    ensures FindSimilarCases(symptoms, userRole, limit, lookup) == []
  {
    var items := seq(|symptoms|, i requires 0 <= i < |symptoms| => Str(symptoms[i]));
    ListReprHasItem(items, k);
    SingleEntryRepr("symptoms", List(items));
    InfixOfLonger(StrRepr(symptoms[k]), Repr(List(items)), "{" + StrRepr("symptoms") + ": ");
    InfixOfLonger(StrRepr(symptoms[k]), "{" + StrRepr("symptoms") + ": " + Repr(List(items)), "}");
    QuotedTermIsFound(Repr(SymptomsContent(symptoms)), symptoms[k], t);
  }

  /** A diagnosis spelled like a sensitive condition is refused to every role but "doctor". */
  lemma SensitiveDiagnosisIsRefused(diagnosis: string, t: string, userRole: string, lookup: string -> seq<Value>)
    requires userRole != "doctor"
    requires t in SensitiveConditions && Lower(diagnosis) == Lower(t)
    ensures FindComorbidities(diagnosis, userRole, lookup) == []
  {
    var prefix := "{" + StrRepr("diagnosis") + ": ";
    SingleEntryRepr("diagnosis", Str(diagnosis));
    InfixOfMiddle(StrRepr(diagnosis), prefix, "}");
    QuotedTermIsFound(Repr(DiagnosisContent(diagnosis)), diagnosis, t);
  }

  /** When access is denied the answer does not depend on the store: it is not consulted. */
  lemma DeniedQueriesIgnoreStore(symptoms: seq<string>, diagnosis: string, userRole: string, limit: int,
                                 similar1: (seq<string>, int) -> seq<Value>, similar2: (seq<string>, int) -> seq<Value>,
                                 comorbid1: string -> seq<Value>, comorbid2: string -> seq<Value>,
                                 statistics1: Value, statistics2: Value)
    requires userRole != "doctor"
    ensures !ValidateUserAccess(userRole, SymptomsContent(symptoms)) ==>
              FindSimilarCases(symptoms, userRole, limit, similar1) == FindSimilarCases(symptoms, userRole, limit, similar2)
    ensures !ValidateUserAccess(userRole, DiagnosisContent(diagnosis)) ==>
              FindComorbidities(diagnosis, userRole, comorbid1) == FindComorbidities(diagnosis, userRole, comorbid2)
    ensures GetCaseStatistics(userRole, statistics1) == GetCaseStatistics(userRole, statistics2)
  {
  }

  /** The patient cases of the tests: "HIV" among the symptoms is refused, statistics are refused. */
  lemma PatientQueriesRefused(lookup: (seq<string>, int) -> seq<Value>, statistics: Value)
    ensures FindSimilarCases(["HIV", "depression"], "patient", DefaultSimilarCaseLimit, lookup) == []
    ensures Get(GetCaseStatistics("patient", statistics).entries, "error").Some?
  {
    SensitiveSymptomIsRefused(["HIV", "depression"], 0, "HIV", "patient", DefaultSimilarCaseLimit, lookup);
  }
}

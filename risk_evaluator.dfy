/**
 * The risk evaluator: the reasoning service's analysis is wrapped in a dict
 * together with a keyword test for immediate attention.
 */
module RiskEvaluator {
  import opened Wrappers
  import opened Text
  import opened PyValues

  /** The phrases that signal that immediate attention is needed. */
  const ImmediateKeywords: seq<string> := [
    "high risk", "emergency", "immediate", "urgent",
    "severe", "critical", "life-threatening"
  ]

  ghost predicate MentionsKeyword(lowered: string, keywords: seq<string>) {
    exists k :: 0 <= k < |keywords| && IsInfix(keywords[k], lowered)
  }

  /** `any(keyword in text for keyword in keywords)`. */
  function AnyKeywordIn(text: string, keywords: seq<string>): (r: bool)
    ensures r <==> MentionsKeyword(text, keywords)
  {
    if |keywords| == 0 then false
    else if Contains(text, keywords[0]) then true
    else
      var r := AnyKeywordIn(text, keywords[1..]);
      assert forall k :: 1 <= k < |keywords| ==> keywords[k] == keywords[1..][k - 1];
      r
  }

  /** `_check_immediate_attention`: some keyword is a substring of the lower-cased analysis. */
  function CheckImmediateAttention(riskAnalysis: string): (r: bool)
    ensures r <==> MentionsKeyword(Lower(riskAnalysis), ImmediateKeywords)
  {
    AnyKeywordIn(Lower(riskAnalysis), ImmediateKeywords)
  }

  /** The test depends only on the lower-cased text. */
  lemma ImmediateAttentionIgnoresCase(s: string, t: string)
    requires Lower(s) == Lower(t)
    ensures CheckImmediateAttention(s) == CheckImmediateAttention(t)
  {
  }

  lemma ImmediateAttentionOfLowered(s: string)
    ensures CheckImmediateAttention(Lower(s)) == CheckImmediateAttention(s)
  {
    LowerIdempotent(s);
  }

  /** An empty analysis never asks for immediate attention. */
  lemma EmptyAnalysisIsCalm()
    ensures !CheckImmediateAttention("")
  {
    forall k, i: nat | 0 <= k < |ImmediateKeywords| ensures !OccursAt(ImmediateKeywords[k], "", i) {
      assert |ImmediateKeywords[k]| > 0;
    }
  }

  /** Adding text before or after an alarming analysis keeps it alarming. */
  lemma ImmediateAttentionMonotone(s: string, t: string)
    requires CheckImmediateAttention(s)
    ensures CheckImmediateAttention(s + t) && CheckImmediateAttention(t + s)
  {
    var k :| 0 <= k < |ImmediateKeywords| && IsInfix(ImmediateKeywords[k], Lower(s));
    InfixOfLonger(ImmediateKeywords[k], Lower(s), Lower(t));
    LowerAppend(s, t);
    LowerAppend(t, s);
  }

  /** Matching is by substring: "immediately" contains "immediate". */
  lemma ImmediatelyTriggers()
    ensures CheckImmediateAttention("Seek care Immediately")
  {
    var lowered := Lower("Seek care Immediately");
    assert lowered == "seek care immediately";
    assert OccursAt("immediate", lowered, 10);
    assert ImmediateKeywords[2] == "immediate";
  }

  /**
   * `evaluate_risk`: the dict holds the symptoms and the context as given, the
   * service's analysis and the immediate-attention flag, and no "risk_level".
   * `assess` stands for the reasoning service.
   */
  function EvaluateRisk(symptoms: Value, medicalContext: Value,
                        assess: (Value, Value) -> string): (assessment: seq<Entry>)
    ensures Get(assessment, "symptoms") == Some(symptoms)
    ensures Get(assessment, "medical_context") == Some(medicalContext)
    ensures Get(assessment, "risk_analysis") == Some(Str(assess(symptoms, medicalContext)))
    ensures Get(assessment, "requires_immediate_attention")
            == Some(Bool(CheckImmediateAttention(assess(symptoms, medicalContext))))
    ensures Get(assessment, "risk_level") == None
  {
    var response := assess(symptoms, medicalContext);
    var head := [Entry("symptoms", symptoms), Entry("medical_context", medicalContext)];
    var tail := [Entry("risk_analysis", Str(response)),
                 Entry("requires_immediate_attention", Bool(CheckImmediateAttention(response)))];
    GetConcat(head, tail, "risk_analysis");
    GetConcat(head, tail, "requires_immediate_attention");
    GetConcat(head, tail, "risk_level");
    head + tail
  }
}

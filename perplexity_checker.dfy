/**
 * The independent fact-check of a diagnosis. The HTTP request, the query text
 * and `float()` are parameters; what is modelled is how the result dict is
 * shaped on each path and how the confidence score is read from the response.
 */
module PerplexityChecker {
  import opened Wrappers
  import opened PyValues

  /** The outcome of the HTTP call: the decoded JSON body, or the message of the exception raised. */
  datatype ApiOutcome = Responded(body: Value) | CallRaised(message: string)

  /** What the constructor captures from the settings: the API key and the confidence threshold. */
  datatype Checker = Checker(apiKey: Option<string>, confidenceThreshold: real)

  /** The three shapes of the dict `check_diagnosis` returns. */
  datatype FactCheck =
    | NotConfigured(error: string)
    | Checked(confidenceScore: real, isReliable: bool, rawResponse: Value, diagnosis: Value)
    | CheckFailed(error: string, diagnosis: Value)

  const MissingKeyMessage: string := "Perplexity API key not configured"

  /** The keys of the result dict, in the order they are written. */
  function ResultKeys(fc: FactCheck): (keys: seq<string>)
    ensures |keys| > 0 && keys[0] == "checked"
    ensures "confidence_score" in keys <==> fc.Checked?
    ensures "is_reliable" in keys <==> fc.Checked?
    ensures "error" in keys <==> !fc.Checked?
    ensures "diagnosis" in keys <==> !fc.NotConfigured?
  {
    match fc
    case NotConfigured(_) => ["checked", "error"]
    case Checked(_, _, _, _) => ["checked", "confidence_score", "is_reliable", "raw_response", "diagnosis"]
    case CheckFailed(_, _) => ["checked", "error", "diagnosis"]
  }

  /** `result["checked"]`. */
  function CheckedFlag(fc: FactCheck): bool {
    fc.Checked?
  }

  /** `result.get("confidence_score", 0)`: the score when the key is there, 0 otherwise. */
  function ConfidenceOrZero(fc: FactCheck): (score: real)
    ensures "confidence_score" in ResultKeys(fc) ==> score == fc.confidenceScore
    ensures "confidence_score" !in ResultKeys(fc) ==> score == 0.0
  {
    if fc.Checked? then fc.confidenceScore else 0.0
  }

  /** `not self.api_key` is false: a key is set and is not empty. */
  predicate HasApiKey(c: Checker) {
    c.apiKey.Some? && c.apiKey.value != ""
  }

  /** The message of the AttributeError that `x.get` raises on a value that is not a dict. */
  function NoGetMessage(v: Value): string {
    "'" + TypeName(v) + "' object has no attribute 'get'"
  }

  /**
   * `_extract_confidence`: `float(response.get("confidence", 0.0))`, with 0.0 when
   * the conversion fails. `toFloat` stands for `float()`, giving None where it
   * raises ValueError or TypeError. A response that is not a dict makes `.get`
   * raise an AttributeError, which this function does not catch.
   */
  function ExtractConfidence(response: Value, toFloat: Value -> Option<real>): (r: Result<real, string>)
    ensures r.Err? <==> !response.Dict?
    ensures r.Err? ==> r.error == NoGetMessage(response)
    ensures response.Dict? && !HasKey(response.entries, "confidence") ==> r == Ok(0.0)
    ensures response.Dict? && HasKey(response.entries, "confidence") ==>
      var v := Get(response.entries, "confidence").value;
      r == Ok(if toFloat(v).Some? then toFloat(v).value else 0.0)
  {
    if !response.Dict? then Err(NoGetMessage(response))
    else
      match Get(response.entries, "confidence")
      case None => Ok(0.0)
      case Some(v) => Ok(toFloat(v).GetOr(0.0))
  }

  /**
   * `check_diagnosis`: without an API key, an unchecked result with an error
   * message; otherwise the query is sent and, when a score can be read from the
   * response, a checked result whose reliability compares the score with the
   * threshold; any exception on the way gives an unchecked result that echoes the
   * diagnosis. `query` stands for `_prepare_query` and `api` for the HTTP call.
   */
  function CheckDiagnosis(c: Checker, diagnosis: Value, query: Value -> string,
                          api: string -> ApiOutcome, toFloat: Value -> Option<real>): (r: FactCheck)
    ensures !HasApiKey(c) ==> r == NotConfigured(MissingKeyMessage)
    ensures CheckedFlag(r) ==> HasApiKey(c) && api(query(diagnosis)).Responded?
    ensures r.Checked? ==> (r.isReliable <==> r.confidenceScore >= c.confidenceThreshold)
    ensures r.Checked? ==> r.diagnosis == diagnosis && r.rawResponse == api(query(diagnosis)).body
    ensures HasApiKey(c) && api(query(diagnosis)).CallRaised? ==>
      r == CheckFailed(api(query(diagnosis)).message, diagnosis)
    ensures HasApiKey(c) ==> !r.NotConfigured? && (r.CheckFailed? ==> r.diagnosis == diagnosis)
    ensures HasApiKey(c) && api(query(diagnosis)).Responded? ==>
      var body := api(query(diagnosis)).body;
      match ExtractConfidence(body, toFloat)
      case Ok(score) => r == Checked(score, score >= c.confidenceThreshold, body, diagnosis)
      case Err(message) => r == CheckFailed(message, diagnosis)
  {
    if !HasApiKey(c) then NotConfigured(MissingKeyMessage)
    else
      match api(query(diagnosis))
      case CallRaised(message) => CheckFailed(message, diagnosis)
      case Responded(body) =>
        match ExtractConfidence(body, toFloat)
        case Err(message) => CheckFailed(message, diagnosis)
        case Ok(score) => Checked(score, score >= c.confidenceThreshold, body, diagnosis)
  }

  /** Every path other than a successful check leaves the confidence score out, so it reads as 0. */
  lemma UncheckedScoresZero(c: Checker, diagnosis: Value, query: Value -> string,
                            api: string -> ApiOutcome, toFloat: Value -> Option<real>)
    ensures var r := CheckDiagnosis(c, diagnosis, query, api, toFloat);
      !CheckedFlag(r) ==> "confidence_score" !in ResultKeys(r) && "is_reliable" !in ResultKeys(r)
                          && ConfidenceOrZero(r) == 0.0
  {
  }
}

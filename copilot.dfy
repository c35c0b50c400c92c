/**
 * The end-to-end entry point: intake, symptom extraction, normalisation of the
 * extracted symptoms to a list, and a look-up of similar cases in the graph.
 */
module Copilot {
  import opened Wrappers
  import opened PyValues
  import opened SymptomIntake
  import opened SymptomExtractor

  /** The dict `process_input` returns, by shape. */
  datatype Response =
    | InputFailed(intake: IntakeSummary)
    | ExtractionError(extraction: Extraction)
    | Success(inputAnalysis: IntakeSummary, symptoms: Extraction, similarCases: seq<Value>)
    | Crashed(message: string)

  function ResponseStatus(r: Response): string {
    if r.Success? then "success" else "error"
  }

  /** The "message" entry of the response, where there is one. */
  function ResponseMessage(r: Response): Option<string> {
    match r
    case InputFailed(_) => Some("Failed to process input")
    case ExtractionError(_) => Some("Failed to extract symptoms")
    case Success(_, _, _) => None
    case Crashed(message) => Some(message)
  }

  /** How many similar cases are asked for. */
  const SimilarCaseLimit: nat := 3

  /** The message of the TypeError `list(x)` raises on a value that is not iterable. */
  function NotIterableMessage(v: Value): string {
    "'" + TypeName(v) + "' object is not iterable"
  }

  /**
   * The normalisation of the extracted symptoms: a string becomes a one-element
   * list, a list stays as it is, and anything else goes through `list()`, which
   * gives a dict's keys and raises a TypeError on a scalar.
   */
  function NormalizeSymptoms(symptoms: Value): (r: Result<seq<Value>, string>)
    ensures r.Ok? <==> symptoms.Str? || symptoms.List? || symptoms.Dict?
    ensures symptoms.Str? ==> r == Ok([symptoms])
    ensures symptoms.List? ==> r == Ok(symptoms.items)
    ensures symptoms.Dict? ==>
              && r.Ok? && |r.value| == |symptoms.entries|
              && forall i :: 0 <= i < |r.value| ==> r.value[i] == Str(symptoms.entries[i].key)
    ensures r.Err? ==> r.error == NotIterableMessage(symptoms)
  {
    match symptoms
    case Str(_) => Ok([symptoms])
    case List(items) => Ok(items)
    case Dict(entries) => Ok(seq(|entries|, i requires 0 <= i < |entries| => Str(entries[i].key)))
    case _ => Err(NotIterableMessage(symptoms))
  }

  /** Normalising is idempotent: a normalised list, normalised again, is unchanged. */
  lemma NormalizeIdempotent(symptoms: Value)
    requires NormalizeSymptoms(symptoms).Ok?
    ensures NormalizeSymptoms(List(NormalizeSymptoms(symptoms).value)) == NormalizeSymptoms(symptoms)
  {
  }

  /**
   * `process_input`. The intake never reports "error" (it reports "success" or
   * "partial_success"), so the first error branch is never taken; an extraction
   * error is passed back with its details; a scalar symptom value makes `list()`
   * raise, which the outer handler turns into an error response.
   */
  method ProcessInput(text: Option<string>, audioFile: Option<string>, imageFile: Option<string>,
                      transcribe: string -> ServiceOutcome, describe: string -> ServiceOutcome,
                      agent: string -> AgentReply, findSimilar: (seq<Value>, nat) -> seq<Value>)
    returns (r: Response)
    ensures !r.InputFailed?
    ensures var results := IntakeResults(text, audioFile, imageFile, transcribe, describe);
            var e := ExtractionOf(Some(results), agent);
            (e.ExtractionFailed? ==> r == ExtractionError(e))
            && (e.Extracted? && NormalizeSymptoms(e.symptoms).Err? ==>
                  r == Crashed(NormalizeSymptoms(e.symptoms).error))
            && (e.Extracted? && NormalizeSymptoms(e.symptoms).Ok? ==>
                  r == Success(IntakeSummary(results, OverallStatus(results)), e,
                               findSimilar(NormalizeSymptoms(e.symptoms).value, SimilarCaseLimit)))
    ensures ResponseStatus(r) == "success" <==> r.Success?
  {
    var inputResults := ProcessMultiModalInput(text, audioFile, imageFile, transcribe, describe);
    if inputResults.status == "error" {
      return InputFailed(inputResults);
    }
    var symptomResults := ExtractSymptoms(Some(inputResults.results), agent);
    if symptomResults.ExtractionFailed? {
      return ExtractionError(symptomResults);
    }
    match NormalizeSymptoms(symptomResults.symptoms)
    case Err(message) =>
      r := Crashed(message);
    case Ok(symptoms) =>
      var similarCases := findSimilar(symptoms, SimilarCaseLimit);
      r := Success(inputResults, symptomResults, similarCases);
  }
}

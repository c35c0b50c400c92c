/**
 * Multi-modal intake: text is checked for content, voice and images go through
 * a transcription or vision service, and the per-input results are gathered with
 * an overall status.
 */
module SymptomIntake {
  import opened Wrappers
  import opened Text

  /** The per-input dict: `{"type", "content", "status": "success"}` or `{"type", "error", "status": "error"}`. */
  datatype InputResult = Succeeded(kind: string, content: string) | Failed(kind: string, error: string)

  function Status(r: InputResult): (s: string)
    ensures s == "success" <==> r.Succeeded?
  {
    if r.Succeeded? then "success" else "error"
  }

  /** The outcome of a transcription or vision call: its text, or the message of the exception raised. */
  datatype ServiceOutcome = Produced(text: string) | ServiceRaised(message: string)

  const EmptyTextMessage: string := "Empty text input"

  /** `process_text_input`: empty or all-white-space text is an error; other text is kept as given, unstripped. */
  function ProcessTextInput(text: string): (r: InputResult)
    ensures r.kind == "text"
    ensures r.Failed? <==> Blank(text)
    ensures r.Failed? ==> r.error == EmptyTextMessage
    ensures r.Succeeded? ==> r.content == text
  {
    StripEmptyIffBlank(text);
    if text == "" || |Strip(text)| == 0 then Failed("text", EmptyTextMessage)
    else Succeeded("text", text)
  }

  /** `process_voice_input`: `transcribe` stands for the speech-to-text service on the file at `audioPath`. */
  function ProcessVoiceInput(audioPath: string, transcribe: string -> ServiceOutcome): (r: InputResult)
    ensures r.kind == "voice"
    ensures r.Succeeded? <==> transcribe(audioPath).Produced?
    ensures r.Succeeded? ==> r.content == transcribe(audioPath).text
    ensures r.Failed? ==> r.error == transcribe(audioPath).message
  {
    match transcribe(audioPath)
    case Produced(text) => Succeeded("voice", text)
    case ServiceRaised(message) => Failed("voice", message)
  }

  /** `process_image_input`: `describe` stands for reading the file and asking the vision service about it. */
  function ProcessImageInput(imagePath: string, describe: string -> ServiceOutcome): (r: InputResult)
    ensures r.kind == "image"
    ensures r.Succeeded? <==> describe(imagePath).Produced?
    ensures r.Succeeded? ==> r.content == describe(imagePath).text
    ensures r.Failed? ==> r.error == describe(imagePath).message
  {
    match describe(imagePath)
    case Produced(text) => Succeeded("image", text)
    case ServiceRaised(message) => Failed("image", message)
  }

  /** Python truthiness of an optional string argument: given and not empty. */
  predicate Truthy(arg: Option<string>) {
    arg.Some? && arg.value != ""
  }

  /** The dict `process_multi_modal_input` returns. */
  datatype IntakeSummary = IntakeSummary(results: seq<InputResult>, status: string)

  /** The results of the inputs that were given, in the order text, voice, image. */
  function IntakeResults(text: Option<string>, audioFile: Option<string>, imageFile: Option<string>,
                         transcribe: string -> ServiceOutcome, describe: string -> ServiceOutcome): (rs: seq<InputResult>)
    ensures |rs| == (if Truthy(text) then 1 else 0) + (if Truthy(audioFile) then 1 else 0)
                    + (if Truthy(imageFile) then 1 else 0)
    ensures Truthy(text) ==> rs[0] == ProcessTextInput(text.value)
    ensures Truthy(audioFile) ==> rs[if Truthy(text) then 1 else 0] == ProcessVoiceInput(audioFile.value, transcribe)
    ensures Truthy(imageFile) ==> rs[|rs| - 1] == ProcessImageInput(imageFile.value, describe)
  {
    (if Truthy(text) then [ProcessTextInput(text.value)] else [])
    + (if Truthy(audioFile) then [ProcessVoiceInput(audioFile.value, transcribe)] else [])
    + (if Truthy(imageFile) then [ProcessImageInput(imageFile.value, describe)] else [])
  }

  /** `all(r["status"] == "success" for r in results)`. */
  function AllSucceeded(rs: seq<InputResult>): (r: bool)
    ensures r <==> forall i :: 0 <= i < |rs| ==> rs[i].Succeeded?
  {
    if |rs| == 0 then true
    else
      assert forall i :: 0 < i < |rs| ==> rs[i] == rs[1..][i - 1];
      Status(rs[0]) == "success" && AllSucceeded(rs[1..])
  }

  function OverallStatus(rs: seq<InputResult>): (s: string)
    ensures s == "success" <==> forall i :: 0 <= i < |rs| ==> rs[i].Succeeded?
    ensures s == "success" || s == "partial_success"
  {
    if AllSucceeded(rs) then "success" else "partial_success"
  }

  /**
   * `process_multi_modal_input`: each input that was given is processed in turn;
   * the status is "success" when every result succeeded (so also when nothing was
   * given) and "partial_success" otherwise. It never reports "error".
   */
  method ProcessMultiModalInput(text: Option<string>, audioFile: Option<string>, imageFile: Option<string>,
                                transcribe: string -> ServiceOutcome, describe: string -> ServiceOutcome)
    returns (summary: IntakeSummary)
    ensures summary.results == IntakeResults(text, audioFile, imageFile, transcribe, describe)
    ensures summary.status == OverallStatus(summary.results)
  {
    ghost var fromText := if Truthy(text) then [ProcessTextInput(text.value)] else [];
    ghost var fromVoice := if Truthy(audioFile) then [ProcessVoiceInput(audioFile.value, transcribe)] else [];
    ghost var fromImage := if Truthy(imageFile) then [ProcessImageInput(imageFile.value, describe)] else [];
    var results: seq<InputResult> := [];
    if Truthy(text) {
      var textResult := ProcessTextInput(text.value);
      results := results + [textResult];
    }
    assert results == fromText;
    if Truthy(audioFile) {
      var voiceResult := ProcessVoiceInput(audioFile.value, transcribe);
      results := results + [voiceResult];
    }
    assert results == fromText + fromVoice;
    if Truthy(imageFile) {
      var imageResult := ProcessImageInput(imageFile.value, describe);
      results := results + [imageResult];
    }
    assert results == fromText + fromVoice + fromImage;
    summary := IntakeSummary(results, OverallStatus(results));
  }

  /** A white-space-only text makes the whole intake a partial success, whatever else was given. */
  lemma BlankTextIsPartial(text: string, audioFile: Option<string>, imageFile: Option<string>,
                           transcribe: string -> ServiceOutcome, describe: string -> ServiceOutcome)
    requires text != "" && Blank(text)
    ensures OverallStatus(IntakeResults(Some(text), audioFile, imageFile, transcribe, describe)) == "partial_success"
  {
    var rs := IntakeResults(Some(text), audioFile, imageFile, transcribe, describe);
    assert Status(rs[0]) == "error";
  }

  /** With no input at all there are no results and the status is "success". */
  lemma NothingGivenIsSuccess(transcribe: string -> ServiceOutcome, describe: string -> ServiceOutcome)
    ensures IntakeResults(None, None, None, transcribe, describe) == []
    ensures OverallStatus([]) == "success"
  {
  }
}

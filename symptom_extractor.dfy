/**
 * Symptom extraction: the successful intake results are combined into one text,
 * which is handed to the extraction agent.
 */
module SymptomExtractor {
  import opened Wrappers
  import opened Text
  import opened PyValues
  import opened SymptomIntake

  /** The line a successful result contributes: `f"{type}: {content}"`. */
  function Line(r: InputResult): string
    requires r.Succeeded?
  {
    r.kind + ": " + r.content
  }

  /** The lines of the successful results, in order; other results contribute nothing. */
  function SuccessLines(rs: seq<InputResult>): (lines: seq<string>)
    ensures |lines| <= |rs|
    ensures |lines| == |rs| <==> forall i :: 0 <= i < |rs| ==> rs[i].Succeeded?
  {
    if |rs| == 0 then []
    else
      var init := SuccessLines(rs[..|rs| - 1]);
      assert forall i :: 0 <= i < |rs| - 1 ==> rs[..|rs| - 1][i] == rs[i];
      if rs[|rs| - 1].Succeeded? then init + [Line(rs[|rs| - 1])] else init
  }

  lemma {:induction false} SuccessLinesAppend(a: seq<InputResult>, b: seq<InputResult>)
    ensures SuccessLines(a + b) == SuccessLines(a) + SuccessLines(b)
    decreases |b|
  {
    if |b| == 0 {
      assert a + b == a;
    } else {
      assert (a + b)[..|a + b| - 1] == a + b[..|b| - 1];
      SuccessLinesAppend(a, b[..|b| - 1]);
    }
  }

  /** A failed result can be removed without changing the combined lines. */
  lemma FailureContributesNothing(a: seq<InputResult>, f: InputResult, b: seq<InputResult>)
    requires f.Failed?
    ensures SuccessLines(a + [f] + b) == SuccessLines(a + b)
  {
    SuccessLinesAppend(a + [f], b);
    SuccessLinesAppend(a, [f]);
    SuccessLinesAppend(a, b);
    assert SuccessLines([f]) == SuccessLines([]);
  }

  /** Each successful result's line appears, whole, in the combined text. */
  lemma SuccessIsCombined(rs: seq<InputResult>, k: nat)
    requires k < |rs| && rs[k].Succeeded?
    ensures exists a: string, b: string :: Combined(Some(rs)) == a + Line(rs[k]) + b
  {
    var before, after := rs[..k], rs[k + 1..];
    assert rs == before + [rs[k]] + after;
    SuccessLinesAppend(before + [rs[k]], after);
    SuccessLinesAppend(before, [rs[k]]);
    assert SuccessLines([rs[k]]) == [Line(rs[k])] by {
      assert [rs[k]][..0] == [];
    }
    var lines := SuccessLines(rs);
    assert lines == SuccessLines(before) + [Line(rs[k])] + SuccessLines(after);
    var j := |SuccessLines(before)|;
    assert lines[j] == Line(rs[k]);
    JoinHasPart(lines, "\n", j);
  }

  /** The text `_combine_inputs` builds from the optional "results" entry. */
  function Combined(results: Option<seq<InputResult>>): string {
    Join(SuccessLines(results.GetOr([])), "\n")
  }

  /** A missing or empty results list, or one with no success, combines to the empty text. */
  lemma NothingCombinesToEmpty(results: Option<seq<InputResult>>)
    requires forall i :: 0 <= i < |results.GetOr([])| ==> results.GetOr([])[i].Failed?
    ensures Combined(results) == ""
  {
    NoSuccessNoLines(results.GetOr([]));
  }

  lemma {:induction false} NoSuccessNoLines(rs: seq<InputResult>)
    requires forall i :: 0 <= i < |rs| ==> rs[i].Failed?
    ensures SuccessLines(rs) == []
  {
    if |rs| > 0 {
      NoSuccessNoLines(rs[..|rs| - 1]);
    }
  }

  /** `_combine_inputs`: one line per successful result, joined by newlines. */
  method CombineInputs(results: Option<seq<InputResult>>) returns (combined: string)
    ensures combined == Combined(results)
  {
    var rs := results.GetOr([]);
    var lines: seq<string> := [];
    var i := 0;
    while i < |rs|
      invariant 0 <= i <= |rs|
      invariant lines == SuccessLines(rs[..i])
    {
      assert rs[..i + 1][..i] == rs[..i];
      if rs[i].Succeeded? {
        lines := lines + [rs[i].kind + ": " + rs[i].content];
      }
      i := i + 1;
    }
    assert rs[..|rs|] == rs;
    combined := Join(lines, "\n");
  }

  /** What the agent gives back: its result dict (with optional "output" and "confidence"), or an exception. */
  datatype AgentReply = Replied(output: Option<Value>, confidence: Option<Value>) | AgentRaised(message: string)

  /** The dict `extract_symptoms` returns. */
  datatype Extraction = Extracted(symptoms: Value, confidence: Value) | ExtractionFailed(error: string)

  function ExtractionStatus(e: Extraction): string {
    if e.Extracted? then "success" else "error"
  }

  /** The confidence reported when the agent gives none. */
  const DefaultConfidence: Value := Scalar("float", "0.8")

  /** The message of the KeyError raised by `result["output"]`. */
  const MissingOutputMessage: string := "'output'"

  /**
   * The outcome of `extract_symptoms` on the combined text: the agent's output
   * with its confidence (0.8 when absent), or an error carrying the message of
   * whatever was raised.
   */
  function ExtractionOf(results: Option<seq<InputResult>>, agent: string -> AgentReply): (e: Extraction)
    ensures e.Extracted? <==> agent(Combined(results)).Replied? && agent(Combined(results)).output.Some?
    ensures e.Extracted? ==> e.symptoms == agent(Combined(results)).output.value
    ensures e.Extracted? && agent(Combined(results)).confidence.None? ==> e.confidence == DefaultConfidence
    ensures e.Extracted? && agent(Combined(results)).confidence.Some? ==>
              e.confidence == agent(Combined(results)).confidence.value
    ensures agent(Combined(results)).AgentRaised? ==> e == ExtractionFailed(agent(Combined(results)).message)
    ensures agent(Combined(results)).Replied? && agent(Combined(results)).output.None? ==>
              e == ExtractionFailed(MissingOutputMessage)
  {
    match agent(Combined(results))
    case AgentRaised(message) => ExtractionFailed(message)
    case Replied(output, confidence) =>
      if output.None? then ExtractionFailed(MissingOutputMessage)
      else Extracted(output.value, confidence.GetOr(DefaultConfidence))
  }

  /** `extract_symptoms`: combine the inputs, then ask the agent. */
  method ExtractSymptoms(results: Option<seq<InputResult>>, agent: string -> AgentReply)
    returns (e: Extraction)
    ensures e == ExtractionOf(results, agent)
  {
    var combinedInput := CombineInputs(results);
    var reply := agent(combinedInput);
    match reply
    case AgentRaised(message) =>
      e := ExtractionFailed(message);
    case Replied(output, confidence) =>
      if output.None? {
        e := ExtractionFailed(MissingOutputMessage);
      } else {
        e := Extracted(output.value, confidence.GetOr(DefaultConfidence));
      }
  }
}

/**
 * The safety and access layer: PII detection and redaction, whole-word
 * detection of a fixed vocabulary of sensitive conditions, content-dependent
 * access checks, role-dependent sanitising of the medical context, and the
 * role-to-access-level table.
 */
module SafetyCompliance {
  import opened Wrappers
  import opened Text
  import opened PyValues

  // ---------------------------------------------------------------------------
  // PII detection
  // ---------------------------------------------------------------------------

  datatype PiiKind = Email | Phone | Ssn | CreditCard | DateOfBirth

  /** The five patterns, in the order in which they are tried. */
  const PiiKinds: seq<PiiKind> := [Email, Phone, Ssn, CreditCard, DateOfBirth]

  /** The pattern's name, which is the `type` of every match it yields. */
  function KindName(k: PiiKind): string {
    match k
    case Email => "email"
    case Phone => "phone"
    case Ssn => "ssn"
    case CreditCard => "credit_card"
    case DateOfBirth => "date_of_birth"
  }

  /** The position of `k` in `PiiKinds`. */
  function KindRank(k: PiiKind): (n: nat)
    ensures n < |PiiKinds| && PiiKinds[n] == k
  {
    match k
    case Email => 0
    case Phone => 1
    case Ssn => 2
    case CreditCard => 3
    case DateOfBirth => 4
  }

  datatype Span = Span(start: nat, end: nat)

  /** One element of the list `check_pii` returns: `{"type", "value", "start", "end"}`. */
  datatype PiiMatch = PiiMatch(kind: PiiKind, value: string, start: nat, end: nat)

  /**
   * What `re.finditer` yields for one of the five patterns over a text of length
   * `n`: non-empty matches (no pattern matches the empty string), inside the
   * text, left to right and not overlapping each other.
   */
  ghost predicate FinditerSpans(spans: seq<Span>, n: nat) {
    && (forall i :: 0 <= i < |spans| ==> spans[i].start < spans[i].end <= n)
    && (forall i :: 0 <= i < |spans| - 1 ==> spans[i].end <= spans[i + 1].start)
  }

  /**
   * The regular-expression engine, abstracted: for each pattern and text, the
   * spans `re.finditer` yields.
   */
  type PatternFinder = f: (PiiKind, string) -> seq<Span> | forall k, t :: FinditerSpans(f(k, t), |t|)
    witness (k: PiiKind, t: string) => []

  /** A match as `check_pii` records it: its text is the matched slice. */
  ghost predicate WellFormedMatch(m: PiiMatch, text: string) {
    m.start < m.end <= |text| && m.value == text[m.start..m.end]
  }

  function MatchOf(k: PiiKind, text: string, sp: Span): PiiMatch
    requires sp.start <= sp.end <= |text|
  {
    PiiMatch(k, text[sp.start..sp.end], sp.start, sp.end)
  }

  /** The matches of one pattern, in the order `re.finditer` yields them. */
  function KindMatches(find: PatternFinder, k: PiiKind, text: string): (ms: seq<PiiMatch>)
    ensures |ms| == |find(k, text)|
    ensures forall i :: 0 <= i < |ms| ==> WellFormedMatch(ms[i], text) && ms[i].kind == k
  {
    var spans := find(k, text);
    seq(|spans|, i requires 0 <= i < |spans| => MatchOf(k, text, spans[i]))
  }

  /**
   * The matches of the first `n` patterns, pattern by pattern: every match is a
   * well-formed slice of the text, and matches are grouped in pattern order.
   */
  function MatchesOfFirst(find: PatternFinder, text: string, n: nat): (ms: seq<PiiMatch>)
    requires n <= |PiiKinds|
    ensures forall i :: 0 <= i < |ms| ==> WellFormedMatch(ms[i], text) && KindRank(ms[i].kind) < n
    ensures forall i, j :: 0 <= i < j < |ms| ==> KindRank(ms[i].kind) <= KindRank(ms[j].kind)
  {
    if n == 0 then []
    else MatchesOfFirst(find, text, n - 1) + KindMatches(find, PiiKinds[n - 1], text)
  }

  /** Everything `check_pii` finds in `text`. */
  function PiiMatches(find: PatternFinder, text: string): seq<PiiMatch> {
    MatchesOfFirst(find, text, |PiiKinds|)
  }

  /**
   * `check_pii`: runs every pattern over the text and collects its matches;
   * the flag says whether anything was found.
   */
  method CheckPii(find: PatternFinder, text: string) returns (found: bool, matches: seq<PiiMatch>)
    ensures matches == PiiMatches(find, text)
    ensures found <==> |matches| > 0
    ensures forall i :: 0 <= i < |matches| ==> WellFormedMatch(matches[i], text)
    ensures forall i, j :: 0 <= i < j < |matches| ==> KindRank(matches[i].kind) <= KindRank(matches[j].kind)
  {
    matches := [];
    var n := 0;
    while n < |PiiKinds|
      invariant 0 <= n <= |PiiKinds|
      invariant matches == MatchesOfFirst(find, text, n)
    {
      var kind := PiiKinds[n];
      var spans := find(kind, text);
      var j := 0;
      while j < |spans|
        invariant 0 <= j <= |spans|
        invariant matches == MatchesOfFirst(find, text, n) + KindMatches(find, kind, text)[..j]
      {
        matches := matches + [MatchOf(kind, text, spans[j])];
        j := j + 1;
      }
      n := n + 1;
    }
    found := |matches| > 0;
  }

  // ---------------------------------------------------------------------------
  // PII redaction
  // ---------------------------------------------------------------------------

  /** `f"[REDACTED {type.upper()}]"`. */
  function Placeholder(k: PiiKind): string {
    "[REDACTED " + Upper(KindName(k)) + "]"
  }

  /** Inserts `m` before the first element whose start is not larger (Python's stable reverse sort). */
  function InsertByStartDesc(m: PiiMatch, ds: seq<PiiMatch>): (r: seq<PiiMatch>)
    ensures multiset(r) == multiset(ds) + multiset{m}
  {
    if |ds| == 0 || m.start >= ds[0].start then [m] + ds
    else
      assert ds == [ds[0]] + ds[1..];
      [ds[0]] + InsertByStartDesc(m, ds[1..])
  }

  ghost predicate StartsDescending(ds: seq<PiiMatch>) {
    forall i, j :: 0 <= i < j < |ds| ==> ds[i].start >= ds[j].start
  }

  /** The matches that start at `start`, in their order in `ms`. */
  function WithStart(ms: seq<PiiMatch>, start: nat): seq<PiiMatch> {
    if |ms| == 0 then []
    else (if ms[0].start == start then [ms[0]] else []) + WithStart(ms[1..], start)
  }

  /** Insertion goes before every element with the same start. */
  lemma {:induction false} InsertWithStart(m: PiiMatch, ds: seq<PiiMatch>, start: nat)
    ensures WithStart(InsertByStartDesc(m, ds), start)
            == (if m.start == start then [m] else []) + WithStart(ds, start)
  {
    if |ds| > 0 && m.start < ds[0].start {
      InsertWithStart(m, ds[1..], start);
      assert ([ds[0]] + InsertByStartDesc(m, ds[1..]))[1..] == InsertByStartDesc(m, ds[1..]);
    } else {
      assert ([m] + ds)[1..] == ds;
    }
  }

  lemma {:induction false} InsertKeepsOrder(m: PiiMatch, ds: seq<PiiMatch>)
    requires StartsDescending(ds)
    ensures StartsDescending(InsertByStartDesc(m, ds))
    ensures |ds| > 0 ==> InsertByStartDesc(m, ds)[0] == (if m.start >= ds[0].start then m else ds[0])
  {
    if |ds| > 0 && m.start < ds[0].start {
      InsertKeepsOrder(m, ds[1..]);
    }
  }

  /**
   * `sorted(matches, key=lambda x: x["start"], reverse=True)`: a permutation,
   * last start first, and stable: matches with the same start keep their order.
   */
  function SortByStartDesc(ms: seq<PiiMatch>): (ds: seq<PiiMatch>)
    ensures multiset(ds) == multiset(ms)
    ensures StartsDescending(ds)
    ensures forall start :: WithStart(ds, start) == WithStart(ms, start)
  {
    if |ms| == 0 then []
    else
      assert ms == [ms[0]] + ms[1..];
      var rest := SortByStartDesc(ms[1..]);
      InsertKeepsOrder(ms[0], rest);
      assert forall start :: WithStart(InsertByStartDesc(ms[0], rest), start) == WithStart(ms, start) by {
        forall start ensures WithStart(InsertByStartDesc(ms[0], rest), start) == WithStart(ms, start) {
          InsertWithStart(ms[0], rest, start);
        }
      }
      InsertByStartDesc(ms[0], rest)
  }

  /** Python's `s[:i]` and `s[i:]` for a non-negative `i`, which clamp to the length. */
  function Take(s: string, i: nat): string { if i <= |s| then s[..i] else s }
  function Drop(s: string, i: nat): string { if i <= |s| then s[i..] else "" }

  /** One step of the loop: the span of `m` in the current text becomes its placeholder. */
  function ReplaceSpan(text: string, m: PiiMatch): string {
    Take(text, m.start) + Placeholder(m.kind) + Drop(text, m.end)
  }

  /** The loop of `redact_pii`, applied to the matches in the order given. */
  function ReplaceAll(text: string, ds: seq<PiiMatch>): string
    decreases |ds|
  {
    if |ds| == 0 then text else ReplaceAll(ReplaceSpan(text, ds[0]), ds[1..])
  }

  /**
   * `redact_pii`: sorts the matches by start, last first, and replaces each
   * span by its placeholder in the text redacted so far.
   */
  method RedactPii(text: string, matches: seq<PiiMatch>) returns (redacted: string)
    ensures redacted == ReplaceAll(text, SortByStartDesc(matches))
    ensures |matches| == 0 ==> redacted == text
  {
    var ordered := SortByStartDesc(matches);
    redacted := text;
    var i := 0;
    while i < |ordered|
      invariant 0 <= i <= |ordered|
      invariant ReplaceAll(redacted, ordered[i..]) == ReplaceAll(text, ordered)
    {
      assert ordered[i..][1..] == ordered[i + 1..];
      redacted := ReplaceSpan(redacted, ordered[i]);
      i := i + 1;
    }
  }

  // Redaction of spans that do not overlap

  /** Spans `a` and `b` share no character. */
  predicate Apart(a: PiiMatch, b: PiiMatch) {
    a.end <= b.start || b.end <= a.start
  }

  /** No two of the matches overlap: the first is apart from all the others, and so on. */
  ghost predicate PairwiseApart(ms: seq<PiiMatch>) {
    |ms| == 0 || ((forall x :: x in ms[1..] ==> Apart(ms[0], x)) && PairwiseApart(ms[1..]))
  }

  /** Every match is a non-empty span inside a text of length `n`. */
  ghost predicate InText(ms: seq<PiiMatch>, n: nat) {
    forall x :: x in ms ==> x.start < x.end <= n
  }

  /**
   * Spans taken last first, each non-empty and ending at or before the start of
   * the span taken just before it (the first inside the text of length `n`).
   */
  ghost predicate DescendingChain(ds: seq<PiiMatch>, n: nat) {
    |ds| == 0 || (ds[0].start < ds[0].end <= n && DescendingChain(ds[1..], ds[0].start))
  }

  /**
   * The intended result of redaction, segment by segment: the text before the
   * last span (itself redacted), that span's placeholder, and the text after it.
   */
  ghost function Redacted(text: string, ds: seq<PiiMatch>): string
    requires DescendingChain(ds, |text|)
    decreases |ds|
  {
    if |ds| == 0 then text
    else Redacted(text[..ds[0].start], ds[1..]) + Placeholder(ds[0].kind) + text[ds[0].end..]
  }

  /** The number of characters the spans cover. */
  function SpanTotal(ms: seq<PiiMatch>): int {
    if |ms| == 0 then 0 else (ms[0].end - ms[0].start) + SpanTotal(ms[1..])
  }

  /** The number of characters the placeholders take. */
  function PlaceholderTotal(ms: seq<PiiMatch>): nat {
    if |ms| == 0 then 0 else |Placeholder(ms[0].kind)| + PlaceholderTotal(ms[1..])
  }

  lemma {:induction false} ReplaceAllPrefix(x: string, y: string, ds: seq<PiiMatch>)
    requires DescendingChain(ds, |x|)
    ensures ReplaceAll(x + y, ds) == ReplaceAll(x, ds) + y
    decreases |ds|
  {
    if |ds| > 0 {
      var d := ds[0];
      assert Take(x + y, d.start) == Take(x, d.start);
      assert Drop(x + y, d.end) == Drop(x, d.end) + y;
      assert ReplaceSpan(x + y, d) == ReplaceSpan(x, d) + y;
      ReplaceAllPrefix(ReplaceSpan(x, d), y, ds[1..]);
    }
  }

  lemma {:induction false} ReplaceAllIsRedacted(text: string, ds: seq<PiiMatch>)
    requires DescendingChain(ds, |text|)
    ensures ReplaceAll(text, ds) == Redacted(text, ds)
    decreases |ds|
  {
    if |ds| > 0 {
      var d := ds[0];
      var tail := Placeholder(d.kind) + text[d.end..];
      assert ReplaceSpan(text, d) == text[..d.start] + tail;
      ReplaceAllPrefix(text[..d.start], tail, ds[1..]);
      ReplaceAllIsRedacted(text[..d.start], ds[1..]);
    }
  }

  lemma {:induction false} RedactedLength(text: string, ds: seq<PiiMatch>)
    requires DescendingChain(ds, |text|)
    ensures |Redacted(text, ds)| == |text| - SpanTotal(ds) + PlaceholderTotal(ds)
    decreases |ds|
  {
    if |ds| > 0 {
      RedactedLength(text[..ds[0].start], ds[1..]);
    }
  }

  lemma {:induction false} InsertTotals(m: PiiMatch, ds: seq<PiiMatch>)
    ensures SpanTotal(InsertByStartDesc(m, ds)) == (m.end - m.start) + SpanTotal(ds)
    ensures PlaceholderTotal(InsertByStartDesc(m, ds)) == |Placeholder(m.kind)| + PlaceholderTotal(ds)
  {
    if |ds| > 0 && m.start < ds[0].start {
      InsertTotals(m, ds[1..]);
    }
  }

  lemma {:induction false} SortTotals(ms: seq<PiiMatch>)
    ensures SpanTotal(SortByStartDesc(ms)) == SpanTotal(ms)
    ensures PlaceholderTotal(SortByStartDesc(ms)) == PlaceholderTotal(ms)
  {
    if |ms| > 0 {
      SortTotals(ms[1..]);
      InsertTotals(ms[0], SortByStartDesc(ms[1..]));
    }
  }

  lemma {:induction false} InsertKeepsApart(m: PiiMatch, ds: seq<PiiMatch>)
    requires forall x :: x in ds ==> Apart(m, x)
    requires PairwiseApart(ds)
    ensures PairwiseApart(InsertByStartDesc(m, ds))
  {
    if |ds| > 0 && m.start < ds[0].start {
      InsertKeepsApart(m, ds[1..]);
      var rest := InsertByStartDesc(m, ds[1..]);
      assert ds[0] in ds;
      forall x | x in rest ensures Apart(ds[0], x) {
        assert x in multiset(ds[1..]) + multiset{m};
        if x != m {
          assert x in multiset(ds[1..]);
          assert x in ds[1..];
        }
      }
      assert InsertByStartDesc(m, ds) == [ds[0]] + rest;
      assert ([ds[0]] + rest)[1..] == rest;
    } else {
      assert ([m] + ds)[1..] == ds;
    }
  }

  lemma {:induction false} SortKeepsApart(ms: seq<PiiMatch>)
    requires PairwiseApart(ms)
    ensures PairwiseApart(SortByStartDesc(ms))
  {
    if |ms| > 0 {
      SortKeepsApart(ms[1..]);
      var rest := SortByStartDesc(ms[1..]);
      assert forall x :: x in rest ==> x in multiset(ms[1..]);
      InsertKeepsApart(ms[0], rest);
    }
  }

  lemma {:induction false} SortedApartIsChain(ds: seq<PiiMatch>, n: nat)
    requires StartsDescending(ds) && PairwiseApart(ds) && InText(ds, n)
    ensures DescendingChain(ds, n)
    decreases |ds|
  {
    if |ds| > 0 {
      assert ds[0] in ds;
      forall x | x in ds[1..] ensures x.start < x.end <= ds[0].start {
        assert x in ds;
        var j :| 0 <= j < |ds[1..]| && ds[1..][j] == x;
        assert ds[0].start >= ds[j + 1].start;
      }
      SortedApartIsChain(ds[1..], ds[0].start);
    }
  }

  /**
   * Redaction of non-overlapping, in-range, non-empty matches: the result is the
   * text with every span replaced by its placeholder, the untouched segments
   * kept in order, and its length is the text's, minus what the spans cover,
   * plus what the placeholders take.
   */
  lemma RedactPiiSegments(text: string, ms: seq<PiiMatch>)
    requires InText(ms, |text|) && PairwiseApart(ms)
    ensures DescendingChain(SortByStartDesc(ms), |text|)
    ensures ReplaceAll(text, SortByStartDesc(ms)) == Redacted(text, SortByStartDesc(ms))
    ensures |ReplaceAll(text, SortByStartDesc(ms))| == |text| - SpanTotal(ms) + PlaceholderTotal(ms)
  {
    var ds := SortByStartDesc(ms);
    assert forall x :: x in ds ==> x in multiset(ms);
    SortKeepsApart(ms);
    SortedApartIsChain(ds, |text|);
    ReplaceAllIsRedacted(text, ds);
    RedactedLength(text, ds);
    SortTotals(ms);
  }

  // ---------------------------------------------------------------------------
  // Sensitive conditions
  // ---------------------------------------------------------------------------

  /** The sensitive-condition vocabulary, in the order in which it is searched. */
  const SensitiveConditions: seq<string> := [
    "HIV", "AIDS", "mental health", "suicide", "abuse",
    "substance abuse", "STD", "STI", "pregnancy", "abortion",
    "cancer", "terminal", "palliative", "hospice"
  ]

  /** The regular-expression assertion `\b` at index `i`: a word character on exactly one side. */
  predicate Boundary(text: string, i: nat)
    requires i <= |text|
  {
    (i > 0 && IsWordChar(text[i - 1])) != (i < |text| && IsWordChar(text[i]))
  }

  /** The pattern `\b<term>\b`, compared ignoring case, matches `text` at index `i`. */
  predicate WordAt(text: string, term: string, i: nat) {
    && i + |term| <= |text|
    && Lower(text[i..i + |term|]) == Lower(term)
    && Boundary(text, i)
    && Boundary(text, i + |term|)
  }

  /** `re.search(rf'\b{term}\b', text, re.IGNORECASE)` finds something. */
  ghost predicate HasWord(text: string, term: string) {
    exists i: nat :: WordAt(text, term, i)
  }

  function SearchWordFrom(text: string, term: string, from: nat): (r: bool)
    requires from <= |text|
    ensures r <==> exists i: nat :: from <= i && WordAt(text, term, i)
    decreases |text| - from
  {
    if from + |term| > |text| then false
    else if WordAt(text, term, from) then true
    else if from == |text| then false
    else SearchWordFrom(text, term, from + 1)
  }

  /** The executable whole-word search. */
  function SearchWord(text: string, term: string): (r: bool)
    ensures r <==> HasWord(text, term)
  {
    SearchWordFrom(text, term, 0)
  }

  /** `sub` is `full` with some elements left out, the rest in their order. */
  ghost predicate IsSubsequence(sub: seq<string>, full: seq<string>)
    decreases |full|
  {
    if |sub| == 0 then true
    else if |full| == 0 then false
    else
      || (sub[|sub| - 1] == full[|full| - 1] && IsSubsequence(sub[..|sub| - 1], full[..|full| - 1]))
      || IsSubsequence(sub, full[..|full| - 1])
  }

  /** The terms of `terms` that occur in `text` as whole words, in the order of `terms`. */
  function TermsFoundIn(text: string, terms: seq<string>): (found: seq<string>)
    ensures forall t :: t in found <==> t in terms && HasWord(text, t)
    ensures IsSubsequence(found, terms)
  {
    if |terms| == 0 then []
    else
      var last := terms[|terms| - 1];
      var earlier := TermsFoundIn(text, terms[..|terms| - 1]);
      assert terms == terms[..|terms| - 1] + [last];
      if SearchWord(text, last) then
        assert (earlier + [last])[..|earlier|] == earlier;
        earlier + [last]
      else earlier
  }

  /** The sensitive conditions mentioned in `text`, in vocabulary order. */
  function SensitiveTermsIn(text: string): (found: seq<string>)
    ensures forall t :: t in found <==> t in SensitiveConditions && HasWord(text, t)
    ensures IsSubsequence(found, SensitiveConditions)
  {
    TermsFoundIn(text, SensitiveConditions)
  }

  /**
   * `check_sensitive_content`: searches for each vocabulary term in turn and
   * collects those it finds; the flag says whether any was found.
   */
  method CheckSensitiveContent(text: string) returns (has: bool, conditions: seq<string>)
    ensures conditions == SensitiveTermsIn(text)
    ensures has <==> |conditions| > 0
    ensures has <==> exists t :: t in SensitiveConditions && HasWord(text, t)
  {
    conditions := [];
    var i := 0;
    while i < |SensitiveConditions|
      invariant 0 <= i <= |SensitiveConditions|
      invariant conditions == TermsFoundIn(text, SensitiveConditions[..i])
    {
      var term := SensitiveConditions[i];
      assert SensitiveConditions[..i + 1][..i] == SensitiveConditions[..i];
      if SearchWord(text, term) {
        conditions := conditions + [term];
      }
      i := i + 1;
    }
    assert SensitiveConditions[..i] == SensitiveConditions;
    has := |conditions| > 0;
    if has {
      assert conditions[0] in conditions;
    }
  }

  /** The text mentions some sensitive condition. */
  predicate IsSensitive(text: string) {
    |SensitiveTermsIn(text)| > 0
  }

  // ---------------------------------------------------------------------------
  // Access decisions
  // ---------------------------------------------------------------------------

  /**
   * `validate_user_access`: the role spelled exactly "doctor" may see anything;
   * every other role may see the content only when `str(content)` mentions no
   * sensitive condition.
   */
  function ValidateUserAccess(userRole: string, content: Value): (allowed: bool)
    ensures userRole == "doctor" ==> allowed
    ensures userRole != "doctor" ==>
      (allowed <==> forall t :: t in SensitiveConditions ==> !HasWord(StrOf(content), t))
  {
    if userRole == "doctor" then true
    else
      var found := SensitiveTermsIn(StrOf(content));
      assert found != [] ==> found[0] in found;
      found == []
  }

  /** `validate_diagnosis_access`: the same decision, for a diagnosis. */
  function ValidateDiagnosisAccess(diagnosis: Value, userRole: string): (allowed: bool)
    ensures allowed == ValidateUserAccess(userRole, diagnosis)
  {
    if userRole == "doctor" then true else !IsSensitive(StrOf(diagnosis))
  }

  /** Whether `sanitize_medical_context` has the context rewritten for this role. */
  predicate NeedsSanitizing(context: seq<Entry>, userRole: string) {
    userRole != "doctor" && IsSensitive(Repr(Dict(context)))
  }

  /** The context `sanitize_medical_context` returns, as a value. */
  function Sanitized(context: seq<Entry>, userRole: string, rewrite: (string, seq<string>) -> string): (sanitized: seq<Entry>)
    ensures forall k :: k != "context_analysis" ==> Get(sanitized, k) == Get(context, k)
    ensures NeedsSanitizing(context, userRole) ==>
      var contextStr := Repr(Dict(context));
      Get(sanitized, "context_analysis") == Some(Str(rewrite(contextStr, SensitiveTermsIn(contextStr))))
    ensures !NeedsSanitizing(context, userRole) ==> sanitized == context
  {
    if NeedsSanitizing(context, userRole) then
      var contextStr := Repr(Dict(context));
      var text := rewrite(contextStr, SensitiveTermsIn(contextStr));
      assert forall k :: k != "context_analysis" ==> Get(Set(context, "context_analysis", Str(text)), k) == Get(context, k) by {
        forall k | k != "context_analysis" ensures Get(Set(context, "context_analysis", Str(text)), k) == Get(context, k) {
          SetKeepsOthers(context, "context_analysis", Str(text), k);
        }
      }
      Set(context, "context_analysis", Str(text))
    else context
  }

  /**
   * `sanitize_medical_context`: a doctor gets the context as it is; for other
   * roles a copy is returned, in which "context_analysis" is replaced by the
   * rewriting service's text when the context mentions a sensitive condition.
   * `rewrite` stands for that service, given `str(context)` and the conditions found.
   */
  method SanitizeMedicalContext(context: seq<Entry>, userRole: string,
                                rewrite: (string, seq<string>) -> string)
    returns (sanitized: seq<Entry>)
    ensures sanitized == Sanitized(context, userRole, rewrite)
    ensures Keys(sanitized) == Keys(context) || Keys(sanitized) == Keys(context) + ["context_analysis"]
  {
    if userRole == "doctor" {
      return context;
    }
    sanitized := context;
    var contextStr := Repr(Dict(context));
    var hasSensitive, conditions := CheckSensitiveContent(contextStr);
    if hasSensitive {
      var text := rewrite(contextStr, conditions);
      SetKeys(sanitized, "context_analysis", Str(text));
      sanitized := Set(sanitized, "context_analysis", Str(text));
    }
  }

  datatype AccessLevel = Full | Partial | Limited | Anonymized

  /** The name `get_access_level` returns. */
  function AccessLevelName(level: AccessLevel): string {
    match level
    case Full => "full"
    case Partial => "partial"
    case Limited => "limited"
    case Anonymized => "anonymized"
  }

  /**
   * `get_access_level`: the lower-cased role is looked up; doctor, nurse and
   * researcher have their own level, patient and every unknown role get "limited".
   */
  function GetAccessLevel(userRole: string): (level: AccessLevel)
    ensures level == Full <==> Lower(userRole) == "doctor"
    ensures level == Partial <==> Lower(userRole) == "nurse"
    ensures level == Anonymized <==> Lower(userRole) == "researcher"
    ensures level == Limited <==> Lower(userRole) !in {"doctor", "nurse", "researcher"}
  {
    var role := Lower(userRole);
    if role == "doctor" then Full
    else if role == "nurse" then Partial
    else if role == "patient" then Limited
    else if role == "researcher" then Anonymized
    else Limited
  }

  /** The level depends on the role only up to case. */
  lemma AccessLevelIgnoresCase(userRole: string)
    ensures GetAccessLevel(userRole) == GetAccessLevel(Lower(userRole))
  {
    LowerIdempotent(userRole);
  }

  // ---------------------------------------------------------------------------
  // Properties of the vocabulary search and the access decisions
  // ---------------------------------------------------------------------------

  /** A term that begins and ends with a word character and that `repr` shows unchanged. */
  ghost predicate QuotableWord(t: string) {
    && |t| > 0
    && IsWordChar(t[0]) && IsWordChar(t[|t| - 1])
    && forall i :: 0 <= i < |t| ==> PlainChar(t[i])
  }

  /** Letters, possibly with single spaces between them, are quotable. */
  lemma LettersAreQuotable(t: string)
    requires |t| > 0
    requires forall i :: 0 <= i < |t| ==> ('a' <= t[i] <= 'z' || 'A' <= t[i] <= 'Z' || t[i] == ' ')
    requires t[0] != ' ' && t[|t| - 1] != ' '
    ensures QuotableWord(t)
  {
  }

  lemma VocabularyIsQuotable()
    ensures forall t :: t in SensitiveConditions ==> QuotableWord(t)
  {
    forall i | 0 <= i < |SensitiveConditions| ensures QuotableWord(SensitiveConditions[i]) {
      LettersAreQuotable(SensitiveConditions[i]);
    }
  }

  /** A string that lower-cases to a quotable term is quotable itself. */
  lemma {:induction false} SpelledLikeQuotable(s: string, t: string)
    requires QuotableWord(t) && Lower(s) == Lower(t)
    ensures QuotableWord(s)
  {
    assert |s| == |t|;
    forall i | 0 <= i < |s| ensures PlainChar(s[i]) {
      assert LowerChar(s[i]) == LowerChar(t[i]);
    }
    assert LowerChar(s[0]) == LowerChar(t[0]);
    assert LowerChar(s[|s| - 1]) == LowerChar(t[|t| - 1]);
  }

  /**
   * A string spelled like a vocabulary term, up to case, and standing between
   * quotes anywhere in a text makes that term one of the text's sensitive terms.
   */
  lemma QuotedTermIsFound(text: string, s: string, t: string)
    requires t in SensitiveConditions && Lower(s) == Lower(t)
    requires IsInfix(StrRepr(s), text)
    ensures t in SensitiveTermsIn(text)
  {
    VocabularyIsQuotable();
    SpelledLikeQuotable(s, t);
    StrReprPlain(s);
    var j: nat :| OccursAt(StrRepr(s), text, j);
    SplitAtOccurrence(StrRepr(s), text, j);
    var a, b := text[..j], text[j + |StrRepr(s)|..];
    assert text == a + "'" + s + "'" + b;
    QuotedWordIsFound(a, s, b, t);
  }

  /** The same, with the text written out around the quoted string. */
  lemma {:induction false} QuotedWordIsFound(a: string, s: string, b: string, t: string)
    requires t in SensitiveConditions && Lower(s) == Lower(t)
    ensures t in SensitiveTermsIn(a + "'" + s + "'" + b)
  {
    VocabularyIsQuotable();
    SpelledLikeQuotable(s, t);
    var text := a + "'" + s + "'" + b;
    var i := |a| + 1;
    assert text[i..i + |t|] == s;
    assert text[i - 1] == '\'' && text[i] == s[0];
    assert text[i + |t| - 1] == s[|s| - 1] && text[i + |t|] == '\'';
    assert WordAt(text, t, i);
  }

  /** A word inside a longer word is not found: "cancer" does not occur in "cancerous". */
  lemma LongerWordDoesNotMatch()
    ensures !HasWord("cancerous", "cancer")
  {
    var text := "cancerous";
    forall i: nat ensures !WordAt(text, "cancer", i) {
      if 0 < i <= 3 {
        assert IsWordChar(text[i - 1]) && IsWordChar(text[i]);
      } else if i == 0 {
        assert IsWordChar(text[5]) && IsWordChar(text[6]);
      }
    }
  }

  /** A hyphen is a word boundary: "HIV" occurs in "HIV-positive". */
  lemma HyphenIsBoundary()
    ensures "HIV" in SensitiveTermsIn("HIV-positive")
  {
    assert "HIV-positive"[0..3] == "HIV";
    assert WordAt("HIV-positive", "HIV", 0);
  }

  /**
   * The bypass compares the role exactly while the access level ignores case:
   * "Doctor" has full access but is refused content that names a condition.
   */
  lemma CapitalisedDoctorHasNoBypass()
    ensures AccessLevelName(GetAccessLevel("Doctor")) == "full"
    ensures !ValidateUserAccess("Doctor", Str("HIV"))
  {
    assert Lower("Doctor") == "doctor";
    assert StrOf(Str("HIV")) == "HIV";
    assert WordAt("HIV", "HIV", 0);
    assert "HIV" in SensitiveConditions && HasWord(StrOf(Str("HIV")), "HIV");
  }
}

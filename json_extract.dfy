/**
 * The JSON normalisation shared by the Gemini and Ollama adapters: parse the
 * whole reply; failing that, take the first ```json fenced block, else the
 * first `{`..`}` span, and parse that.
 *
 * `JSON.parse` is foreign, so every operation takes the parser as a parameter
 * `parse`, which yields the parsed value or the engine's error message.
 */
module JsonExtract {
  import opened Wrappers
  import opened Text

  const FenceOpen := "```json\n"
  const FenceClose := "\n```"

  /**
   * The pattern `open [\s\S]*? close` can match `s` with `open` at `p` and
   * `close` at `q`.
   */
  predicate DelimitedAt(s: string, open: string, close: string, p: nat, q: nat) {
    OccursAt(s, open, p) && p + |open| <= q && OccursAt(s, close, q)
  }

  /**
   * The match a backtracking regex engine reports for `open [\s\S]*? close`:
   * the leftmost start that admits a match and, for that start, the shortest body.
   */
  ghost predicate IsRegexMatch(s: string, open: string, close: string, p: nat, q: nat) {
    && DelimitedAt(s, open, close, p, q)
    && (forall p', q' :: DelimitedAt(s, open, close, p', q') ==> p <= p')
    && (forall q' :: DelimitedAt(s, open, close, p, q') ==> q <= q')
  }

  /** The regex match as a scan: the first `open`, then the first `close` after it. */
  function FirstDelimited(s: string, open: string, close: string): (r: Option<(nat, nat)>)
    ensures r.Some? ==> IsRegexMatch(s, open, close, r.value.0, r.value.1)
    ensures r.None? <==> forall p, q :: !DelimitedAt(s, open, close, p, q)
  {
    match IndexOf(s, open, 0)
    case None => None
    case Some(p) =>
      match IndexOf(s, close, p + |open|)
      case None => None
      case Some(q) => Some((p, q))
  }

  /** At most one match is the regex match. */
  lemma RegexMatchUnique(s: string, open: string, close: string, p: nat, q: nat, p': nat, q': nat)
    requires IsRegexMatch(s, open, close, p, q) && IsRegexMatch(s, open, close, p', q')
    ensures p == p' && q == q'
  {
  }

  /**
   * `jsonMatch[1] || jsonMatch[0]` for the fence: the body between the fence
   * lines, or the whole fenced text when the body is empty.
   */
  function FenceText(s: string, p: nat, q: nat): string
    requires DelimitedAt(s, FenceOpen, FenceClose, p, q)
  {
    if q > p + |FenceOpen| then s[p + |FenceOpen|..q] else s[p..q + |FenceClose|]
  }

  /** `jsonMatch[0]` for the brace pattern: the span from `{` to `}` inclusive. */
  function BraceText(s: string, p: nat, q: nat): string
    requires DelimitedAt(s, "{", "}", p, q)
  {
    s[p..q + 1]
  }

  ghost predicate HasFence(s: string) {
    exists p, q :: DelimitedAt(s, FenceOpen, FenceClose, p, q)
  }

  ghost predicate HasBrace(s: string) {
    exists p, q :: DelimitedAt(s, "{", "}", p, q)
  }

  /**
   * The extraction candidate: the fenced block (preferred even when a brace
   * comes first), else the brace span, else none.
   */
  function Candidate(s: string): (r: Option<string>)
    ensures r.None? <==> !HasFence(s) && !HasBrace(s)
    ensures forall p, q :: IsRegexMatch(s, FenceOpen, FenceClose, p, q) ==> r == Some(FenceText(s, p, q))
    ensures !HasFence(s) ==> forall p, q :: IsRegexMatch(s, "{", "}", p, q) ==> r == Some(BraceText(s, p, q))
  {
    match FirstDelimited(s, FenceOpen, FenceClose)
    case Some((p, q)) => Some(FenceText(s, p, q))
    case None =>
      match FirstDelimited(s, "{", "}")
      case Some((p, q)) => Some(BraceText(s, p, q))
      case None => None
  }

  /** The candidate is always a piece of the reply text. */
  lemma CandidateIsSubstring(s: string)
    requires Candidate(s).Some?
    ensures exists i: nat :: OccursAt(s, Candidate(s).value, i)
  {
    match FirstDelimited(s, FenceOpen, FenceClose)
    case Some((p, q)) =>
      var i := if q > p + |FenceOpen| then p + |FenceOpen| else p;
      assert OccursAt(s, Candidate(s).value, i);
    case None =>
      var (p, q) := FirstDelimited(s, "{", "}").value;
      assert OccursAt(s, Candidate(s).value, p);
  }

  function ExtractError(vendor: string): string {
    "Could not extract JSON from " + vendor + " response"
  }

  function ParseError(vendor: string): string {
    "Could not parse JSON from " + vendor + " response"
  }

  /** The three stages, with the extraction and parse errors named after `vendor`. */
  function ExtractJson<V>(text: string, parse: string -> Result<V, string>, vendor: string): (r: Result<V, string>)
    ensures parse(text).Success? ==> r == parse(text)
    ensures parse(text).Failure? && Candidate(text).None? ==> r == Failure(ExtractError(vendor))
    ensures parse(text).Failure? && Candidate(text).Some? ==>
      r == (if parse(Candidate(text).value).Success? then parse(Candidate(text).value) else Failure(ParseError(vendor)))
    ensures r.Failure? ==> r.error != "" && (r.error == ExtractError(vendor) || r.error == ParseError(vendor))
  {
    match parse(text)
    case Success(v) => Success(v)
    case Failure(_) =>
      match Candidate(text)
      case None => Failure(ExtractError(vendor))
      case Some(c) =>
        match parse(c)
        case Success(v) => Success(v)
        case Failure(_) => Failure(ParseError(vendor))
  }

  /** The two extraction failures can always be told apart. */
  lemma ErrorsDistinct(vendor: string)
    ensures ExtractError(vendor) != ParseError(vendor)
  {
    assert ExtractError(vendor)[10] != ParseError(vendor)[10];
  }

  /**
   * Every value extraction produces is what the parser makes of some piece of
   * the reply: the whole text or a part of it.
   */
  lemma {:induction false} ExtractedFromPiece<V>(text: string, parse: string -> Result<V, string>, vendor: string)
    requires ExtractJson(text, parse, vendor).Success?
    ensures exists c: string, i: nat :: OccursAt(text, c, i) && parse(c) == ExtractJson(text, parse, vendor)
  {
    if parse(text).Success? {
      assert OccursAt(text, text, 0);
    } else {
      CandidateIsSubstring(text);
      var c := Candidate(text).value;
      var i: nat :| OccursAt(text, c, i);
      assert parse(c) == ExtractJson(text, parse, vendor);
    }
  }

  /**
   * Re-running extraction on the candidate that succeeded gives the same value
   * straight from the first stage: normalised output is a fixed point.
   */
  lemma ReextractCandidate<V>(text: string, parse: string -> Result<V, string>, vendor: string)
    requires ExtractJson(text, parse, vendor).Success?
    requires parse(text).Failure?
    ensures Candidate(text).Some?
    ensures ExtractJson(Candidate(text).value, parse, vendor) == ExtractJson(text, parse, vendor)
  {
  }
}

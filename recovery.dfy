/** The best-effort parse of an analysis reply
    (comment_analyzer.py:237-245): try `json.loads` on the reply; if that
    fails, search it for `\{.*\}` with DOTALL and parse the match; with no
    match, hand the raw text back for an error record. `json.loads` itself
    is a parameter. The same span choice recurs in the other analysis
    calls at lines 94-103, 118-126, 141-149, 164-172, 187-195 and
    210-218. */
module Recovery {
  import opened Wrappers
  import opened Text

  /** Some `{` comes before some `}` in `text`. */
  ghost predicate HasBracePair(text: string) {
    exists a, b :: 0 <= a < b < |text| && text[a] == '{' && text[b] == '}'
  }

  /** What `re.search(r'\{.*\}', text, re.DOTALL)` matches: the leftmost
      start is the first `{` and the greedy `.*` runs to the last `}`. */
  function BraceSpan(text: string): Option<string> {
    var a := IndexOf(text, '{');
    var b := LastIndexOf(text, '}');
    if a < b then Some(text[a..b + 1]) else None
  }

  /** There is a match exactly when some `{` precedes some `}`, and the
      match runs from the first `{` to the last `}`. */
  lemma BraceSpanSpec(text: string)
    ensures var r := BraceSpan(text);
      && (r.Some? <==> HasBracePair(text))
      && (r.Some? ==> exists a, b ::
            && 0 <= a < b < |text| && r.value == text[a..b + 1]
            && text[a] == '{' && text[b] == '}'
            && (forall k :: 0 <= k < a ==> text[k] != '{')
            && (forall k :: b < k < |text| ==> text[k] != '}'))
  {
    IndexOfSpec(text, '{');
    LastIndexOfSpec(text, '}');
  }

  /** The outcome of the two-stage parse: a parsed value, the raw text
      when no brace span exists, or the exception raised when the span
      does not parse either (the second `json.loads` is not guarded). */
  datatype Recovered<J> = Parsed(value: J) | NoObject(raw: string) | Raised(error: string)

  function ParseWithRecovery<J>(text: string, loads: string -> Option<J>): Recovered<J> {
    match loads(text)
    case Some(v) => Parsed(v)
    case None =>
      match BraceSpan(text)
      case None => NoObject(text)
      case Some(span) =>
        match loads(span)
        case Some(v) => Parsed(v)
        case None => Raised("JSONDecodeError")
  }

  /** A reply that parses is taken as it is; the error-tagged outcome
      happens exactly when it does not parse and contains no `{` before a
      `}`; otherwise the value comes from the brace span or the call
      raises. */
  lemma RecoveryCases<J>(text: string, loads: string -> Option<J>)
    ensures var r := ParseWithRecovery(text, loads);
      && (loads(text).Some? ==> r == Parsed(loads(text).value))
      && (r.NoObject? <==> loads(text).None? && !HasBracePair(text))
      && (r.NoObject? ==> r.raw == text)
      && (loads(text).None? && HasBracePair(text) ==>
            exists a, b :: 0 <= a < b < |text| && text[a] == '{' && text[b] == '}'
              && (forall k :: 0 <= k < a ==> text[k] != '{')
              && (forall k :: b < k < |text| ==> text[k] != '}')
              && (r.Parsed? <==> loads(text[a..b + 1]).Some?)
              && (r.Parsed? ==> r.value == loads(text[a..b + 1]).value))
  {
    var r := ParseWithRecovery(text, loads);
    BraceSpanSpec(text);
    if loads(text).None? && HasBracePair(text) {
      var span := BraceSpan(text);
      var a, b :| && 0 <= a < b < |text| && span.value == text[a..b + 1] && text[a] == '{' && text[b] == '}'
                  && (forall k :: 0 <= k < a ==> text[k] != '{')
                  && (forall k :: b < k < |text| ==> text[k] != '}');
      assert r.Parsed? <==> loads(text[a..b + 1]).Some?;
    }
  }
}

/**
 * The provider-independent rules of the summariser: whether a symbol is worth
 * summarising, and the rough token count charged for a call.
 */
module LlmProvider {
  import opened PyStr

  /** Content whose stripped text is shorter than this is never summarised. */
  const MinContent := 100
  /** A "@brief" first line shorter than this counts as a description already. */
  const BriefLine := 80
  /** Characters per token in the estimate. */
  const CharsPerToken := 4

  predicate NeverSummarised(kind: string)
  {
    kind == "getter" || kind == "setter" || kind == "destructor"
  }

  predicate AlwaysSummarised(kind: string)
  {
    kind == "template" || kind == "macro"
  }

  /** The stripped content is long enough to be worth a summary. */
  predicate Substantial(content: string)
  {
    |Strip(content)| >= MinContent
  }

  /** `content.split('\n')[0]`. */
  function FirstLine(content: string): string
  {
    Split(content, "\n")[0]
  }

  /** `should_summarize`: too little content and trivial kinds are skipped, templates and macros are always summarised, and a short "@brief" first line counts as a summary already. */
  function ShouldSummarize(content: string, kind: string): bool
  {
    if !Substantial(content) then false
    else if NeverSummarised(kind) then false
    else if AlwaysSummarised(kind) then true
    else if StartsWith(content, "@brief") && |FirstLine(content)| < BriefLine then false
    else true
  }

  /** The first line is shorter than `n` exactly when the text is, or it has a newline before index `n`. */
  lemma FirstLineShorter(content: string, n: nat)
    ensures |FirstLine(content)| < n <==> |content| < n || exists k :: 0 <= k < n && k < |content| && content[k] == '\n'
  {
    var i := Find(content, "\n");
    if i < 0 {
      assert FirstLine(content) == content;
      forall k | 0 <= k < |content| ensures content[k] != '\n' {
        assert !OccursAt(content, "\n", k);
        assert content[k..k + 1] == [content[k]];
      }
    } else {
      assert FirstLine(content) == content[..i];
      assert content[i..i + 1] == "\n";
      assert content[i] == '\n';
      forall k | 0 <= k < i ensures content[k] != '\n' {
        assert !OccursAt(content, "\n", k);
        assert content[k..k + 1] == [content[k]];
      }
    }
  }

  /** For an ordinary kind with enough content, a "@brief" text is skipped exactly when a newline comes within its first 80 characters. */
  lemma BriefSkipsOnlyShortFirstLine(content: string, kind: string)
    requires Substantial(content) && !NeverSummarised(kind) && !AlwaysSummarised(kind)
    requires StartsWith(content, "@brief")
    ensures !ShouldSummarize(content, kind) <==> exists k :: 0 <= k < BriefLine && content[k] == '\n'
  {
    assert |content| >= MinContent by {
      assert |LStrip(content)| <= |content|;
    }
    FirstLineShorter(content, BriefLine);
  }

  /**
   * The whole rule, with the first-line test read off the text: enough content,
   * a kind that is not trivial, and then either a template or macro, or a text
   * that does not open with a "@brief" line shorter than 80 characters.
   */
  lemma SummariseRule(content: string, kind: string)
    ensures ShouldSummarize(content, kind) <==>
      Substantial(content) && !NeverSummarised(kind)
      && (AlwaysSummarised(kind) || !StartsWith(content, "@brief")
          || forall k :: 0 <= k < BriefLine && k < |content| ==> content[k] != '\n')
  {
    if Substantial(content) {
      assert |content| >= MinContent by {
        assert |LStrip(content)| <= |content|;
      }
      FirstLineShorter(content, BriefLine);
    }
  }

  /** `_estimate_tokens`: a quarter of the characters of prompt and response, rounded down. */
  function EstimateTokens(prompt: string, response: string): (r: nat)
    ensures CharsPerToken * r <= |prompt| + |response| < CharsPerToken * (r + 1)
  {
    (|prompt| + |response|) / CharsPerToken
  }

  /** More text never gives a smaller estimate. */
  lemma EstimateMonotone(p1: string, r1: string, p2: string, r2: string)
    requires |p1| + |r1| <= |p2| + |r2|
    ensures EstimateTokens(p1, r1) <= EstimateTokens(p2, r2)
  {
    var a, b := EstimateTokens(p1, r1), EstimateTokens(p2, r2);
    assert CharsPerToken * a < CharsPerToken * (b + 1);
  }
}

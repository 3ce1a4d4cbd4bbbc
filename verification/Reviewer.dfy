/** agentorg/agents/reviewer.py: the review verdict, never without something to act on. */
module Reviewer {
  import opened Prelude
  import opened State
  import opened Settings

  const NO_DETAIL_MUST_FIX :=
    "The reviewer requested changes " + "but named none. Re-check the diff " + "against the plan's acceptance " +
    "criteria and fix whatever it does " + "not satisfy."

  function Digits(n: nat): string {
    if n < 10 then [('0' as int + n) as char] else Digits(n / 10) + Digits(n % 10)
  }

  function Decimal(n: int): string {
    if n < 0 then "-" + Digits(-n) else Digits(n)
  }

  function CommentLine(c: ReviewComment): string {
    c.file + ":" + Decimal(c.line) + " " + c.note
  }

  function CommentLines(comments: seq<ReviewComment>): (lines: seq<string>)
    ensures |lines| == |comments|
  {
    if comments == [] then [] else [CommentLine(comments[0])] + CommentLines(comments[1..])
  }

  function Actionable(review: ReviewDoc): ReviewDoc {
    if review.verdict != ChangesRequested || review.mustFix != [] then review
    else review.(mustFix := if review.comments != [] then CommentLines(review.comments) else [NO_DETAIL_MUST_FIX])
  }

  function Reviewed(reply: Option<ReviewDoc>, fixtures: Fixtures): ReviewDoc {
    Actionable(if reply.Some? then reply.value else fixtures.review)
  }

  // ----- what is to be fixed ----------------------------------------------

  predicate IsDigits(s: string) {
    s != "" && forall i | 0 <= i < |s| :: '0' <= s[i] <= '9'
  }

  /** The number digits stand for. */
  function ValueOf(s: string): nat
    requires IsDigits(s)
  {
    var last := s[|s| - 1] as int - 48;
    if |s| == 1 then last else 10 * ValueOf(s[..|s| - 1]) + last
  }

  /** Digits for the number, no more of them than needed, and a minus sign before them if it is
      negative. */
  ghost predicate IsDecimal(s: string, n: int) {
    if n >= 0 then IsDigits(s) && ValueOf(s) == n && (|s| > 1 ==> s[0] != '0')
    else s != "" && s[0] == '-' && IsDigits(s[1..]) && ValueOf(s[1..]) == -n && s[1] != '0'
  }

  lemma {:induction false} DigitsExactly(n: nat)
    ensures IsDigits(Digits(n)) && ValueOf(Digits(n)) == n
    ensures n > 0 ==> Digits(n)[0] != '0'
    ensures |Digits(n)| > 1 ==> n > 0
  {
    if n >= 10 {
      DigitsExactly(n / 10);
      var s := Digits(n / 10) + Digits(n % 10);
      assert s[..|s| - 1] == Digits(n / 10);
    }
  }

  lemma DecimalExactly(n: int)
    ensures IsDecimal(Decimal(n), n)
  {
    DigitsExactly(if n < 0 then -n else n);
    assert n < 0 ==> Decimal(n)[1..] == Digits(-n);
  }

  /** The comment's file, its line in decimal and its note. */
  ghost predicate SaysComment(item: string, c: ReviewComment) {
    exists number :: IsDecimal(number, c.line) && item == c.file + ":" + number + " " + c.note
  }

  lemma {:induction false} CommentLinesSay(comments: seq<ReviewComment>, k: nat)
    requires k < |comments|
    ensures SaysComment(CommentLines(comments)[k], comments[k])
  {
    if k == 0 {
      DecimalExactly(comments[0].line);
      assert CommentLines(comments)[0] == CommentLine(comments[0]);
    } else {
      CommentLinesSay(comments[1..], k - 1);
    }
  }

  /** A refusal that named nothing to fix: item k says comment k, in order; without comments, and
      only then, the one fixed sentence stands there. Any other review is left as it was. */
  lemma NamesWhatWasSaid(review: ReviewDoc)
    ensures var fixed := Actionable(review);
      && fixed.verdict == review.verdict && fixed.comments == review.comments
      && (review.verdict == Approve || review.mustFix != [] ==> fixed.mustFix == review.mustFix)
      && (review.verdict == ChangesRequested && review.mustFix == [] ==>
            && (review.comments == []
                <==> fixed.mustFix
                     == ["The reviewer requested changes " + "but named none. Re-check the diff "
                         + "against the plan's acceptance " + "criteria and fix whatever it does " + "not satisfy."])
            && (review.comments != [] ==> |fixed.mustFix| == |review.comments|)
            && forall k | 0 <= k < |review.comments| :: SaysComment(fixed.mustFix[k], review.comments[k]))
  {
    forall k | 0 <= k < |review.comments|
      ensures SaysComment(CommentLines(review.comments)[k], review.comments[k])
      ensures CommentLines(review.comments)[k] != NO_DETAIL_MUST_FIX
    {
      CommentLinesSay(review.comments, k);
      HoldsColon(CommentLines(review.comments)[k], review.comments[k]);
      SentenceHasNoColon();
    }
  }

  lemma HoldsColon(item: string, c: ReviewComment)
    requires SaysComment(item, c)
    ensures ':' in item
  {
    var number :| IsDecimal(number, c.line) && item == c.file + ":" + number + " " + c.note;
    assert item[|c.file|] == ':';
  }

  lemma SentenceHasNoColon()
    ensures ':' !in NO_DETAIL_MUST_FIX
  {
    OpeningHasNoColon();
    MiddleHasNoColon();
    ClosingHasNoColon();
  }

  lemma OpeningHasNoColon()
    ensures ':' !in "The reviewer requested changes " && ':' !in "not satisfy."
  {
  }

  lemma MiddleHasNoColon()
    ensures ':' !in "but named none. Re-check the diff " && ':' !in "against the plan's acceptance "
  {
  }

  lemma ClosingHasNoColon()
    ensures ':' !in "criteria and fix whatever it does "
  {
  }

  method EnsureActionable(result: ReviewResult)
    modifies result`mustFix
    ensures result.Doc() == Actionable(old(result.Doc()))
  {
    if result.verdict != ChangesRequested || result.mustFix != [] {
      return;
    }
    if result.comments != [] {
      result.mustFix := CommentLines(result.comments);
    } else {
      result.mustFix := [NO_DETAIL_MUST_FIX];
    }
  }

  method Run(reply: Option<ReviewDoc>, fixtures: Fixtures) returns (result: ReviewResult)
    ensures fresh(result) && result.Doc() == Reviewed(reply, fixtures)
  {
    result := new ReviewResult(if reply.Some? then reply.value else fixtures.review);
    EnsureActionable(result);
  }

  /** A refusal always names something to fix, and the verdict and the comments are the
      reviewer's own. */
  lemma RefusalIsActionable(reply: Option<ReviewDoc>, fixtures: Fixtures)
    ensures var review := Reviewed(reply, fixtures);
      var said := if reply.Some? then reply.value else fixtures.review;
      && review.verdict == said.verdict && review.comments == said.comments
      && (review.verdict == ChangesRequested ==> review.mustFix != [])
      && (said.mustFix != [] ==> review == said)
  {
    var said := if reply.Some? then reply.value else fixtures.review;
    if said.comments != [] {
      assert |CommentLines(said.comments)| > 0;
    }
  }
}

/**
 The markdown the pipeline appends for one repository. Every piece is a line; the
 program's buffer receives each line followed by a newline.
 */
module Markdown {
  import opened Text
  import opened Upstream

  /** The title and timestamp at the top of every digest. */
  function Header(now: string): string {
    "# Latest Issues\nGenerated at " + now + "\n\n"
  }

  /** The heading of a repository that has matching issues. */
  function SectionHeading(org: string, repo: string): string {
    "## <font color=\"green\">" + org + "/" + repo + "</font>"
  }

  /** The notice for a repository whose issue listing failed. */
  function IssuesFailedNotice(org: string, repo: string): string {
    "### Failed to find issues for " + org + "/" + repo + "!"
  }

  /** The notice for an organisation whose repository listing failed. */
  function ReposFailedNotice(org: string): string {
    "### Failed to fetch repos under " + org + "!"
  }

  const Rule: string := "---"

  /** The issue title as a link to the issue. */
  function TitleLine(issue: Issue): string {
    "### [" + issue.title + "](" + issue.url + ")"
  }

  function CreatedLine(issue: Issue): string {
    "#### Created at: " + issue.createdAt
  }

  /** The four lines shown for one issue, between two rules. */
  function IssueBlock(issue: Issue): seq<string> {
    [Rule, TitleLine(issue), CreatedLine(issue), Rule]
  }

  /** The text of one block: its four lines, each ended by a newline. */
  lemma BlockText(issue: Issue)
    ensures Unlines(IssueBlock(issue)) == Rule + "\n" + TitleLine(issue) + "\n" + CreatedLine(issue) + "\n" + Rule + "\n"
  {
    var b := IssueBlock(issue);
    assert Unlines(b[3..]) == Rule + "\n" by { assert b[3..][1..] == []; }
    assert Unlines(b[2..]) == CreatedLine(issue) + "\n" + Unlines(b[3..]) by { assert b[2..][1..] == b[3..]; }
    assert Unlines(b[1..]) == TitleLine(issue) + "\n" + Unlines(b[2..]) by { assert b[1..][1..] == b[2..]; }
  }

  /** The blocks of all issues, one after another, in upstream order. */
  function IssueBlocks(issues: seq<Issue>): (lines: seq<string>)
    ensures |lines| == 4 * |issues|
    ensures forall i :: 0 <= i < |issues| ==> lines[4 * i..4 * i + 4] == IssueBlock(issues[i])
  {
    if |issues| == 0 then []
    else
      var rest := IssueBlocks(issues[1..]);
      var lines := IssueBlock(issues[0]) + rest;
      assert forall i :: 1 <= i < |issues| ==> lines[4 * i..4 * i + 4] == rest[4 * (i - 1)..4 * (i - 1) + 4];
      lines
  }

  /** The blocks of a longer list extend the blocks of a shorter one. */
  lemma {:induction false} IssueBlocksAppend(issues: seq<Issue>, issue: Issue)
    ensures IssueBlocks(issues + [issue]) == IssueBlocks(issues) + IssueBlock(issue)
    decreases |issues|
  {
    if |issues| == 0 {
      assert [] + [issue] == [issue];
    } else {
      assert (issues + [issue])[1..] == issues[1..] + [issue];
      IssueBlocksAppend(issues[1..], issue);
    }
  }

  /**
   What one issue listing of `org/repo` contributes to the digest: the failure
   notice alone on a failed listing, nothing for an empty listing, otherwise the
   heading followed by one block per issue in upstream order.
   */
  function CollectLines(org: string, repo: string, outcome: Outcome<seq<Issue>>): (lines: seq<string>)
    ensures outcome.Failure? ==> lines == [IssuesFailedNotice(org, repo)]
    ensures lines == [] <==> outcome == Success([])
    ensures outcome.Success? && |outcome.value| > 0 ==>
      && |lines| == 1 + 4 * |outcome.value|
      && lines[0] == SectionHeading(org, repo)
      && forall i :: 0 <= i < |outcome.value| ==> lines[1 + 4 * i..5 + 4 * i] == IssueBlock(outcome.value[i])
  {
    match outcome
    case Failure => [IssuesFailedNotice(org, repo)]
    case Success(issues) =>
      if |issues| == 0 then []
      else
        var blocks := IssueBlocks(issues);
        var lines := [SectionHeading(org, repo)] + blocks;
        assert forall i :: 0 <= i < |issues| ==> lines[1 + 4 * i..5 + 4 * i] == blocks[4 * i..4 * i + 4];
        lines
  }

  /** The text of a successful listing: the heading line (if any issue) and then the blocks. */
  lemma CollectedText(org: string, repo: string, issues: seq<Issue>)
    ensures Unlines(CollectLines(org, repo, Success(issues))) ==
      (if |issues| > 0 then SectionHeading(org, repo) + "\n" else "") + Unlines(IssueBlocks(issues))
  {
    if |issues| > 0 {
      var lines := CollectLines(org, repo, Success(issues));
      assert lines[1..] == IssueBlocks(issues);
    }
  }

  /** The loop over the issues: each issue's four lines appended in turn. */
  method AppendBlocks(buffer: string, issues: seq<Issue>) returns (result: string)
    ensures result == buffer + Unlines(IssueBlocks(issues))
  {
    result := buffer;
    var i := 0;
    while i < |issues|
      invariant 0 <= i <= |issues|
      invariant result == buffer + Unlines(IssueBlocks(issues[..i]))
    {
      var issue := issues[i];
      var block := Rule + "\n" + TitleLine(issue) + "\n" + CreatedLine(issue) + "\n" + Rule + "\n";
      ghost var done := IssueBlocks(issues[..i]);
      BlockText(issue);
      assert issues[..i + 1] == issues[..i] + [issue];
      IssueBlocksAppend(issues[..i], issue);
      UnlinesAppend(done, IssueBlock(issue));
      ConcatAssoc(buffer, Unlines(done), block);
      result := result + block;
      i := i + 1;
    }
    assert issues[..i] == issues;
  }

  /**
   The program's own way of producing the same text: append to a buffer the
   failure notice, or the heading once and then each issue's four lines.
   */
  method AppendCollected(buffer: string, org: string, repo: string, outcome: Outcome<seq<Issue>>)
    returns (result: string)
    ensures result == buffer + Unlines(CollectLines(org, repo, outcome))
  {
    match outcome {
      case Failure =>
        result := buffer + IssuesFailedNotice(org, repo) + "\n";
      case Success(issues) =>
        result := buffer;
        if |issues| > 0 {
          result := result + SectionHeading(org, repo) + "\n";
        }
        result := AppendBlocks(result, issues);
        CollectedText(org, repo, issues);
    }
  }
}

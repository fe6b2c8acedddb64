/**
 The issue tracker as the digest pipeline sees it: two read-only queries whose
 outcome is either a failure (a non-ok HTTP status) or the decoded payload.
 The network, the bearer token and JSON decoding are folded into the two
 functions of `Api`, which the pipeline receives as a parameter.
 */
module Upstream {

  /** Outcome of one upstream request: all or nothing. */
  datatype Outcome<+T> = Failure | Success(value: T)

  /** The three fields of an issue the digest shows. */
  datatype Issue = Issue(title: string, createdAt: string, url: string)

  /**
   The filter of an issue listing: the label filter, whether only issues without an
   assignee are wanted, and the `since` boundary in milliseconds since the epoch.
   Both listings the program makes ask for open issues only.
   */
  datatype Query = Query(labels: string, unassignedOnly: bool, sinceMs: int)

  /**
   The upstream service: `listIssues(org, repo, query)` lists the matching open
   issues of one repository in upstream order; `listRepos(org)` lists the names
   of an organisation's repositories, most recently pushed first.
   */
  datatype Api = Api(
    listIssues: (string, string, Query) -> Outcome<seq<Issue>>,
    listRepos: string -> Outcome<seq<string>>)

  /** Length of the recency window, in days. */
  const NumDays: int := 14

  /** Milliseconds in a day. */
  const MsPerDay: int := 86400000

  /** The `since` boundary: the window's length before the clock reading `nowMs`. */
  function SinceMs(nowMs: int): int {
    nowMs - NumDays * MsPerDay
  }

  const GoodFirstIssueLabel: string := "good first issue"
  const HelpWantedLabel: string := "Help Wanted"

  /** The standard listing: good first issues nobody is assigned to. */
  function GoodFirstIssues(sinceMs: int): Query {
    Query(GoodFirstIssueLabel, true, sinceMs)
  }

  /** The bounty listing: help-wanted issues, assigned or not. */
  function HelpWanted(sinceMs: int): Query {
    Query(HelpWantedLabel, false, sinceMs)
  }
}

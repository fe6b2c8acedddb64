# gh-issues-monitor: the digest pipeline in Dafny

This project models one run of `fetchLatestIssues`, the aggregation pipeline of
gh-issues-monitor. The pipeline does the following:

- It reads a newline-separated list of repository specifiers (`org/repo`, or
  `org/*` for every repository of an organisation).
- It drops repeated lines, keeping the first occurrence.
- It resolves each line into issue listings against the issue tracker. The line
  `Expensify/App` also gets a "Help Wanted" bounty listing first.
- It appends the result of each listing to a markdown digest that starts with a
  fixed header. A listing can give a failure notice, nothing (an empty listing)
  or a section heading followed by a four-line block per issue.

The model is split into modules that follow the program's structure:

- `Text` (text.dfy): JavaScript's `split` on one character, its inverse `Join`,
  and `Unlines`, which is how appended lines become buffer text.
- `Deduplication` (dedup.dfy): `[...new Set(xs)]`, both as a function and as the
  loop over a seen-set.
- `Upstream` (upstream.dfy): the issue tracker. It has two oracles:
  `listIssues(org, repo, query)` and `listRepos(org)`. Each answers `Failure`
  (a non-ok response) or `Success(payload)`. It also holds the 14-day window
  and the two label filters.
- `Specifier` (specifier.dfy): `let [org, repo] = line.split('/')`. Only the
  first two segments count. A line without a slash leaves the repository
  `undefined`, and a template string prints that as the text `undefined`.
- `Markdown` (markdown.dfy): the header, the notices, the section heading and
  the issue blocks. It also has the per-repository collector, both as lines
  and as the buffer-appending loop.
- `Flatten` (flatten.dfy): a flat-map used to express "each item appends its
  output in turn".
- `Pipeline` (pipeline.dfy): the run itself, in two stages. `Resolve` turns a
  specifier line into `Action`s. An action is an issue listing or a failed
  repository listing, and the repository listing of a wildcard happens during
  resolution. `Perform` turns an action into lines. `Run` is the header
  followed by all performed lines. `RunPipeline` is the program's own loop,
  proved equal to `Run`.

Some behaviours of the code are worth knowing:

- Deduplication is by exact line only, so overlapping specifiers such as `A/b`
  and `A/*` list `A/b` twice (`Pipeline.OverlappingWildcardRepeats`).
- A list ending in a newline has an empty last line. That line names the
  organisation `""` with an undefined repository, so the program requests the
  issues of `/undefined`, which upstream would normally reject
  (`Pipeline.TrailingNewlineQueriesUndefined`).
- A malformed response body or a network error is not a recoverable failure in
  the code. See "Left out".

The rows below rely on a few plain definitions that carry no contract of their
own:

- `Markdown.Header` is the header of index.ts:19.
- `Markdown.SectionHeading`, `Markdown.IssuesFailedNotice` and
  `Markdown.ReposFailedNotice` are the lines of index.ts:30, 26 and 43.
- `Markdown.Rule`, `Markdown.TitleLine`, `Markdown.CreatedLine` and
  `Markdown.IssueBlock` are the four lines of one issue at index.ts:33-36.
- `Specifier.IsWildcard` is the test `repo === "*"` of index.ts:80, and
  `Specifier.RepoText` is how a template string prints the repository, with
  `undefined` for a line without a slash.
- `Upstream.GoodFirstIssues` and `Upstream.HelpWanted` are the filters of the
  listings at index.ts:23 and 56.
- `Upstream.SinceMs` is the `since` boundary of index.ts:22 and 55: `NUM_DAYS`
  (index.ts:4) days of 86 400 000 ms before the clock reading.
- `Pipeline.Plan` is the fold of `Resolve` over the specifier lines, and
  `Pipeline.PerformAll` is the fold of `Perform` over the actions. Together they
  are the loop at index.ts:75-89.
- `Pipeline.Digest` is the header followed by the performed lines.

## Model

| member | source | states |
|---|---|---|
| `Text.Split` | index.ts:73 | Splitting never yields an empty list, no part contains the separator, and joining the parts with the separator gives back the input. |
| `Text.SplitJoin` | index.ts:73 | Splitting a join of separator-free parts recovers exactly those parts, so the split of a text is unique. |
| `Text.SplitAppend` | index.ts:73 | Adding a separator and one more separator-free line to a text adds exactly one part at the end of its split. |
| `Deduplication.Dedup` | index.ts:74 | The result has no repeated element, holds exactly the elements of the input, and lists them in the order of their first occurrence. |
| `Deduplication.DedupIgnoresRepeat` | index.ts:74 | Appending an element that already occurs leaves the deduplicated list unchanged. |
| `Deduplication.DedupOfDistinct` | index.ts:74 | A list without repeated elements is its own deduplication. |
| `Deduplication.DedupIdempotent` | index.ts:74 | Deduplicating twice is the same as deduplicating once. |
| `Deduplication.DedupInOrder` | index.ts:74 | The loop that keeps a set of elements already seen produces the first-occurrence-order deduplication. |
| `Pipeline.Specifiers` | index.ts:73-74 | The specifier lines of a list file have no repeats, hold the same distinct lines as the file, in first-occurrence order, and contain no newline. |
| `Specifier.Parse` | index.ts:76 | The organisation is slash-free. The repository is undefined exactly when the line has no slash, in which case the organisation is the whole line. Otherwise the line starts with organisation, slash and repository, and then ends or continues with another slash. |
| `Specifier.ParseLeading` | index.ts:76 | Only the first two segments count: `org/repo` followed by nothing or by further slash-separated segments names exactly `org` and `repo`. |
| `Specifier.ParseFormat` | index.ts:76 | Parsing the printed form of any slash-free organisation and repository gives them back. |
| `Markdown.IssueBlocks` | index.ts:32-37 | The blocks of n issues are 4n lines, and lines 4i to 4i+3 are the rule, title link, creation time and rule of issue i, in upstream order. |
| `Markdown.CollectLines` | index.ts:25-37 | A failed listing gives exactly its one failure notice. A listing gives no lines iff it succeeded with no issues. A listing of n > 0 issues gives the section heading and then, for each issue in upstream order, its four-line block. |
| `Markdown.AppendBlocks` | index.ts:32-37 | The loop over the issues appends the text of exactly their blocks to the buffer. |
| `Markdown.AppendCollected` | index.ts:21-38 | The collector's buffer appends are exactly the collected lines, each followed by a newline. |
| `Pipeline.Expand` | index.ts:80-88 | Every standard request asks for unassigned good first issues. A wildcard whose organisation cannot be listed gives only the repository-listing failure. Otherwise a wildcard gives one listing per listed repository in upstream order, and any other line gives one listing of its named (or undefined) repository. |
| `Pipeline.Resolve` | index.ts:76-88 | A line causes a bounty request iff it is exactly `Expensify/App`. That line gets the Help Wanted listing of Expensify/App (with no assignee filter) and then its standard listing. Every other line gets only its standard requests. |
| `Pipeline.BountyResolution` | index.ts:53-56 | The standard requests of the bounty line are the single good-first-issue listing of Expensify/App, and the bounty line's requests include the bounty listing. |
| `Pipeline.StandardHasNoBounty` | index.ts:80-88 | No standard request of any specifier uses the bounty label. |
| `Pipeline.Perform` | index.ts:21-71 | A failed repository listing gives its one notice. A failed issue listing gives its one notice. An issue listing gives no lines iff it succeeds empty. |
| `Pipeline.Run` | index.ts:19 | Every digest begins with the header, whatever the list and the upstream answers. |
| `Pipeline.AppendOnly` | index.ts:19-89 | The digest after any number of actions is a prefix of the digest after any later number: the buffer is only ever appended to. |
| `Pipeline.SpecifiersInOrder` | index.ts:75-89 | The lines for a list `a + b` are the lines for `a` followed by the lines for `b`. Later specifiers are processed whatever earlier ones produced. |
| `Pipeline.FailureIsolated` | index.ts:25-28 | A failed issue listing contributes exactly its notice. The actions before and after it contribute what they would contribute anyway. |
| `Pipeline.RepeatedLineIgnored` | index.ts:73-75 | Appending another copy of a line already in the list, at its end, does not change the digest. |
| `Pipeline.DuplicateLineIgnored` | index.ts:73-75 | A list naming the same line twice gives the same digest as naming it once. |
| `Pipeline.SingleRepositoryRun` | index.ts:19-38 | A one-line list `org/repo` (not a wildcard, not the bounty line) gives the header followed by exactly the lines collected for that repository's good-first-issue listing. |
| `Pipeline.NamedThenWildcardOrder` | index.ts:75-88 | For a named line followed by a wildcard whose organisation lists `a` then `b`, the sections come in the order: named repository, `a`, `b`. |
| `Pipeline.WildcardPairPlan` | index.ts:80-84 | A wildcard whose organisation lists two repositories plans their two listings in upstream order. |
| `Pipeline.OverlappingWildcardRepeats` | index.ts:73-88 | `org/name` followed by the wildcard of `org`, whose organisation lists only `name`, plans the listing of `org/name` twice: deduplication is by line, not by repository. |
| `Pipeline.NamedPlan` | index.ts:86-88 | A line naming one repository (not the bounty line) plans exactly one good-first-issue listing of that repository. |
| `Pipeline.WildcardSinglePlan` | index.ts:80-84 | The wildcard of an organisation that lists one repository plans exactly one listing of it. |
| `Pipeline.TrailingNewlineQueriesUndefined` | index.ts:73-87 | A list ending in a newline contains the empty line, and that line requests the issues of repository `undefined` under the empty organisation. |
| `Pipeline.AppendEach` | index.ts:81-84 | The loop over a wildcard's repositories appends exactly the lines of their listings, in order. |
| `Pipeline.AppendExpanded` | index.ts:80-88 | The wildcard or single-repository branch appends exactly the lines of the line's standard requests. |
| `Pipeline.AppendSpecifier` | index.ts:76-88 | Handling one line appends exactly the lines of all its requests: for the bounty line, the bounty listing's lines come before the standard listing's. |
| `Pipeline.AppendAll` | index.ts:75-89 | The loop over the deduplicated lines appends exactly the lines of the whole plan, line by line. |
| `Pipeline.RunPipeline` | index.ts:17-89 | The program's sequence (split the list, deduplicate through a set, start from the header, append each line's output) produces exactly `Run`. |

## Left out

- Reading `repos.txt`, writing `index.html` and the markdown-to-HTML rendering
  by `marked.parse` are I/O and a foreign library. The model ends at the
  markdown text.
- The HTTP requests, URLs, bearer token and JSON decoding are folded into the
  two functions of `Upstream.Api`. The model states which query each request
  carries (labels, assignee filter, since) but not how its URL is spelled.
- The code calls `JSON.parse` on an issue listing's body before it checks
  `response.ok`, so a non-JSON error body throws and ends the whole run rather
  than giving a notice. The model treats every non-ok response as `Failure`,
  as if the body always parsed.
- A listing whose JSON is not an array, or whose entries lack the expected
  fields, is outside the model: `Issue` always has its three fields.
- Pagination is not modelled: each listing is whatever single page upstream
  returns.
- The clock is not read by the model. `now` is the generation-time text used
  verbatim in the header, and one reading `nowMs` fixes the window for every
  request of a run. The code reads `Date.now()` again for each listing and
  prints `new Date()` in the engine's own format.
- A network error ends the whole run. No await in index.ts:23-24, 41, 46 and
  56-57 is guarded, so a rejected `fetch` or `response.text()` throws out of
  `fetchLatestIssues`: the remaining specifiers are not processed and
  `index.html` is not written. `Upstream.Outcome` has no such case, so
  `Pipeline.FailureIsolated` speaks only of non-ok responses.
- Upstream is a fixed snapshot. `Upstream.Api` holds pure functions, so within
  one modelled run the same request always gets the same answer. In the program,
  a repeated request is a separate call made later and may be answered
  differently. Examples: `Expensify/App` with `Expensify/*` lists the
  standard issues of Expensify/App twice, and `A/*` with `A/*/x` lists
  organisation A's repositories twice.
- Publication is not modelled. `Bun.write` at index.ts:90 overwrites
  `index.html` in place, and the `/` route at index.ts:108-110 reads that file
  while a run may be writing it. The program does not publish atomically.
- The cron schedule, the HTTP server and overlapping runs are outside
  `fetchLatestIssues` and are not modelled.
- Pipeline.Run: its own contract states only the header prefix. What follows
  the header is stated by the lemmas about `PerformAll` and `Plan` listed above.

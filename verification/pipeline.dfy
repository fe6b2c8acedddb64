/**
 The aggregation run: the repository list is split into lines, deduplicated in
 first-occurrence order, and each specifier is resolved into upstream requests
 whose outcomes are rendered, in order, below a fixed header.

 A run is modelled in two stages. `Resolve` turns one specifier into the
 `Action`s it causes (the repository listing of a wildcard happens here), and
 `Perform` turns one action into the lines it appends.
 */
module Pipeline {
  import opened Text
  import opened Flatten
  import opened Deduplication
  import opened Upstream
  import opened Specifier
  import opened Markdown

  /** One contribution to the digest: an issue listing, or a failed repository listing. */
  datatype Action =
    | CollectIssues(org: string, repo: string, query: Query)
    | ReposFailed(org: string)

  /** The one specifier that also gets the bounty listing. */
  const BountySpecifier: string := "Expensify/App"
  const BountyOrg: string := "Expensify"
  const BountyRepo: string := "App"

  predicate IsBountyFetch(a: Action) {
    a.CollectIssues? && a.query.labels == HelpWantedLabel
  }

  predicate HasBountyFetch(acts: seq<Action>) {
    exists k :: 0 <= k < |acts| && IsBountyFetch(acts[k])
  }

  /** The bounty line names the organisation `Expensify` and the repository `App`. */
  lemma ParseBountySpecifier()
    ensures Parse(BountySpecifier) == Specifier(BountyOrg, Named(BountyRepo))
  {
    assert '/' !in BountyOrg;
    assert '/' !in BountyRepo;
    assert Format(Specifier(BountyOrg, Named(BountyRepo))) == BountySpecifier;
    ParseFormat(Specifier(BountyOrg, Named(BountyRepo)));
  }

  /** The standard listing for each repository name, in the given order. */
  function CollectEach(org: string, names: seq<string>, sinceMs: int): (acts: seq<Action>)
    ensures |acts| == |names|
    ensures forall i :: 0 <= i < |names| ==> acts[i] == CollectIssues(org, names[i], GoodFirstIssues(sinceMs))
  {
    seq(|names|, i requires 0 <= i < |names| => CollectIssues(org, names[i], GoodFirstIssues(sinceMs)))
  }

  /**
   The standard requests for one parsed specifier: for a wildcard, one listing per
   repository of the organisation in upstream order, or a notice if the
   organisation cannot be listed; otherwise one listing of the named repository.
   */
  function Expand(spec: Specifier, api: Api, sinceMs: int): (acts: seq<Action>)
    ensures forall k :: 0 <= k < |acts| && acts[k].CollectIssues? ==> acts[k].query == GoodFirstIssues(sinceMs)
    ensures IsWildcard(spec) && api.listRepos(spec.org).Failure? ==> acts == [ReposFailed(spec.org)]
    ensures IsWildcard(spec) && api.listRepos(spec.org).Success? ==>
      && |acts| == |api.listRepos(spec.org).value|
      && forall i :: 0 <= i < |acts| ==>
           acts[i] == CollectIssues(spec.org, api.listRepos(spec.org).value[i], GoodFirstIssues(sinceMs))
    ensures !IsWildcard(spec) ==> acts == [CollectIssues(spec.org, RepoText(spec.repo), GoodFirstIssues(sinceMs))]
  {
    if IsWildcard(spec) then
      match api.listRepos(spec.org)
      case Failure => [ReposFailed(spec.org)]
      case Success(names) => CollectEach(spec.org, names, sinceMs)
    else
      [CollectIssues(spec.org, RepoText(spec.repo), GoodFirstIssues(sinceMs))]
  }

  /**
   The requests one specifier line causes, in the order the program makes them:
   the exact line `Expensify/App` first gets the bounty listing and then its
   standard listing; every other line gets only its standard requests.
   */
  function Resolve(line: string, api: Api, sinceMs: int): (acts: seq<Action>)
    ensures HasBountyFetch(acts) <==> line == BountySpecifier
    ensures line == BountySpecifier ==>
      acts == [CollectIssues(BountyOrg, BountyRepo, HelpWanted(sinceMs)),
               CollectIssues(BountyOrg, BountyRepo, GoodFirstIssues(sinceMs))]
    ensures line != BountySpecifier ==> acts == Expand(Parse(line), api, sinceMs)
  {
    if line == BountySpecifier then
      BountyResolution(api, sinceMs);
      [CollectIssues(BountyOrg, BountyRepo, HelpWanted(sinceMs))] + Expand(Parse(line), api, sinceMs)
    else
      StandardHasNoBounty(Parse(line), api, sinceMs);
      Expand(Parse(line), api, sinceMs)
  }

  /** The standard requests of the bounty line are the one listing of `Expensify/App`. */
  lemma BountyResolution(api: Api, sinceMs: int)
    ensures Expand(Parse(BountySpecifier), api, sinceMs) == [CollectIssues(BountyOrg, BountyRepo, GoodFirstIssues(sinceMs))]
    ensures HasBountyFetch([CollectIssues(BountyOrg, BountyRepo, HelpWanted(sinceMs))] + Expand(Parse(BountySpecifier), api, sinceMs))
  {
    ParseBountySpecifier();
    var acts := [CollectIssues(BountyOrg, BountyRepo, HelpWanted(sinceMs))] + Expand(Parse(BountySpecifier), api, sinceMs);
    assert IsBountyFetch(acts[0]);
  }

  /** No standard request asks for the bounty label. */
  lemma StandardHasNoBounty(spec: Specifier, api: Api, sinceMs: int)
    ensures !HasBountyFetch(Expand(spec, api, sinceMs))
  {
    assert GoodFirstIssueLabel != HelpWantedLabel;
  }

  /** The lines one action appends. */
  function Perform(a: Action, api: Api): (lines: seq<string>)
    ensures a.ReposFailed? ==> lines == [ReposFailedNotice(a.org)]
    ensures a.CollectIssues? && api.listIssues(a.org, a.repo, a.query).Failure? ==>
      lines == [IssuesFailedNotice(a.org, a.repo)]
    ensures a.CollectIssues? ==> (lines == [] <==> api.listIssues(a.org, a.repo, a.query) == Success([]))
  {
    match a
    case CollectIssues(org, repo, query) => CollectLines(org, repo, api.listIssues(org, repo, query))
    case ReposFailed(org) => [ReposFailedNotice(org)]
  }

  /** `Perform` as a function value. */
  function Performer(api: Api): Action -> seq<string> {
    (a: Action) => Perform(a, api)
  }

  /** `Resolve` as a function value. */
  function Resolver(api: Api, sinceMs: int): string -> seq<Action> {
    (line: string) => Resolve(line, api, sinceMs)
  }

  /** The lines of a sequence of actions, performed one after another. */
  function PerformAll(acts: seq<Action>, api: Api): seq<string> {
    FlatMap(acts, Performer(api))
  }

  /** The actions of a list of specifier lines, resolved one after another. */
  function Plan(specs: seq<string>, api: Api, sinceMs: int): seq<Action> {
    FlatMap(specs, Resolver(api, sinceMs))
  }

  /** The rendered digest after the given actions. */
  function Digest(now: string, acts: seq<Action>, api: Api): string {
    Header(now) + Unlines(PerformAll(acts, api))
  }

  /** The specifier lines of the list, each once, in first-occurrence order. */
  function Specifiers(file: string): (specs: seq<string>)
    ensures NoDuplicates(specs)
    ensures SameElements(specs, Split(file, '\n'))
    ensures InFirstOccurrenceOrder(specs, Split(file, '\n'))
    ensures forall i :: 0 <= i < |specs| ==> '\n' !in specs[i]
  {
    var lines := Split(file, '\n');
    var specs := Dedup(lines);
    assert forall i :: 0 <= i < |specs| ==> '\n' !in specs[i] by {
      forall i | 0 <= i < |specs| ensures '\n' !in specs[i] {
        var k := FirstIndex(lines, specs[i]);
        assert lines[k] == specs[i];
      }
    }
    specs
  }

  /**
   The digest of one run over the repository list `file`, generated at `now`,
   with the clock reading `nowMs` fixing the recency window.
   */
  function Run(file: string, now: string, nowMs: int, api: Api): (page: string)
    ensures Header(now) <= page
  {
    Digest(now, Plan(Specifiers(file), api, SinceMs(nowMs)), api)
  }

  /** Performing a concatenation appends the two outputs. */
  lemma PerformAllAppend(a: seq<Action>, b: seq<Action>, api: Api)
    ensures PerformAll(a + b, api) == PerformAll(a, api) + PerformAll(b, api)
  {
    FlatMapAppend(a, b, Performer(api));
  }

  /** A single action performed on its own gives just its lines. */
  lemma PerformOne(a: Action, api: Api)
    ensures PerformAll([a], api) == Perform(a, api)
  {
    FlatMapOne(a, Performer(api));
  }

  /** Planning a concatenation of specifier lists appends the two plans. */
  lemma PlanAppend(a: seq<string>, b: seq<string>, api: Api, sinceMs: int)
    ensures Plan(a + b, api, sinceMs) == Plan(a, api, sinceMs) + Plan(b, api, sinceMs)
  {
    FlatMapAppend(a, b, Resolver(api, sinceMs));
  }

  /** A list of one specifier line plans just that line's requests. */
  lemma PlanOne(line: string, api: Api, sinceMs: int)
    ensures Plan([line], api, sinceMs) == Resolve(line, api, sinceMs)
  {
    FlatMapOne(line, Resolver(api, sinceMs));
  }

  /**
   The digest only grows: the text after any number of actions is a prefix of
   the text after any later number.
   */
  lemma AppendOnly(now: string, acts: seq<Action>, api: Api, j: nat, k: nat)
    requires j <= k <= |acts|
    ensures Digest(now, acts[..j], api) <= Digest(now, acts[..k], api)
  {
    var shorter, longer := PerformAll(acts[..j], api), PerformAll(acts[..k], api);
    FlatMapPrefix(acts, j, k, Performer(api));
    assert longer == shorter + longer[|shorter|..];
    UnlinesAppend(shorter, longer[|shorter|..]);
  }

  /**
   The lines of a run over `a + b` are the lines of `a` followed by the lines of
   `b`: later specifiers are processed whatever happened to earlier ones, and
   their sections come after them.
   */
  lemma SpecifiersInOrder(a: seq<string>, b: seq<string>, api: Api, sinceMs: int)
    ensures PerformAll(Plan(a + b, api, sinceMs), api) ==
      PerformAll(Plan(a, api, sinceMs), api) + PerformAll(Plan(b, api, sinceMs), api)
  {
    PlanAppend(a, b, api, sinceMs);
    PerformAllAppend(Plan(a, api, sinceMs), Plan(b, api, sinceMs), api);
  }

  /**
   A failed issue listing contributes exactly its one notice, and the actions
   after it contribute what they would contribute anyway.
   */
  lemma FailureIsolated(pre: seq<Action>, a: Action, post: seq<Action>, api: Api)
    requires a.CollectIssues? && api.listIssues(a.org, a.repo, a.query).Failure?
    ensures PerformAll(pre + [a] + post, api) ==
      PerformAll(pre, api) + [IssuesFailedNotice(a.org, a.repo)] + PerformAll(post, api)
  {
    PerformAllAppend(pre + [a], post, api);
    PerformAllAppend(pre, [a], api);
    PerformOne(a, api);
  }

  /** Repeating a line already in the list does not change the digest. */
  lemma RepeatedLineIgnored(file: string, line: string, now: string, nowMs: int, api: Api)
    requires '\n' !in line
    requires line in Split(file, '\n')
    ensures Run(file + "\n" + line, now, nowMs, api) == Run(file, now, nowMs, api)
  {
    assert file + "\n" + line == file + ['\n'] + line;
    SplitAppend(file, '\n', line);
    DedupIgnoresRepeat(Split(file, '\n'), line);
  }

  /** A list naming the same line twice gives the same digest as naming it once. */
  lemma DuplicateLineIgnored(line: string, now: string, nowMs: int, api: Api)
    requires '\n' !in line
    ensures Run(line + "\n" + line, now, nowMs, api) == Run(line, now, nowMs, api)
  {
    SplitJoin([line], '\n');
    RepeatedLineIgnored(line, line, now, nowMs, api);
  }

  /**
   A run over a one-line list naming a single repository: the header followed by
   exactly what that repository's listing contributes.
   */
  lemma SingleRepositoryRun(org: string, repo: string, now: string, nowMs: int, api: Api)
    requires '/' !in org && '/' !in repo
    requires '\n' !in org && '\n' !in repo
    requires repo != Wildcard
    requires org + "/" + repo != BountySpecifier
    ensures Run(org + "/" + repo, now, nowMs, api) ==
      Header(now) + Unlines(CollectLines(org, repo, api.listIssues(org, repo, GoodFirstIssues(SinceMs(nowMs)))))
  {
    var line := org + "/" + repo;
    var sinceMs := SinceMs(nowMs);
    assert '\n' !in line;
    SplitJoin([line], '\n');
    assert Specifiers(line) == [line] by {
      DedupOfDistinct([line]);
    }
    PlanOne(line, api, sinceMs);
    ParseFormat(Specifier(org, Named(repo)));
    var a := CollectIssues(org, repo, GoodFirstIssues(sinceMs));
    assert Resolve(line, api, sinceMs) == [a];
    PerformOne(a, api);
  }

  /**
   Sections follow the list order and, within a wildcard, the listing order: a
   named repository `x` followed by a wildcard `y` whose organisation lists `a`
   then `b` gives the lines of `x`, then of `a`, then of `b`.
   */
  lemma NamedThenWildcardOrder(x: string, y: string, a: string, b: string, api: Api, sinceMs: int)
    requires x != BountySpecifier && !IsWildcard(Parse(x))
    requires IsWildcard(Parse(y)) && api.listRepos(Parse(y).org) == Success([a, b])
    ensures PerformAll(Plan([x, y], api, sinceMs), api) ==
      CollectLines(Parse(x).org, RepoText(Parse(x).repo),
                   api.listIssues(Parse(x).org, RepoText(Parse(x).repo), GoodFirstIssues(sinceMs)))
      + CollectLines(Parse(y).org, a, api.listIssues(Parse(y).org, a, GoodFirstIssues(sinceMs)))
      + CollectLines(Parse(y).org, b, api.listIssues(Parse(y).org, b, GoodFirstIssues(sinceMs)))
  {
    var ax := CollectIssues(Parse(x).org, RepoText(Parse(x).repo), GoodFirstIssues(sinceMs));
    var aa := CollectIssues(Parse(y).org, a, GoodFirstIssues(sinceMs));
    var ab := CollectIssues(Parse(y).org, b, GoodFirstIssues(sinceMs));
    PlanOne(x, api, sinceMs);
    WildcardPairPlan(y, a, b, api, sinceMs);
    SpecifiersInOrder([x], [y], api, sinceMs);
    assert [x] + [y] == [x, y];
    PerformOne(ax, api);
    PerformPair(aa, ab, api);
    assert Perform(ax, api) + (Perform(aa, api) + Perform(ab, api)) == Perform(ax, api) + Perform(aa, api) + Perform(ab, api);
  }

  /** A wildcard whose organisation lists `a` then `b` plans their two listings in that order. */
  lemma WildcardPairPlan(y: string, a: string, b: string, api: Api, sinceMs: int)
    requires IsWildcard(Parse(y)) && api.listRepos(Parse(y).org) == Success([a, b])
    ensures Plan([y], api, sinceMs) ==
      [CollectIssues(Parse(y).org, a, GoodFirstIssues(sinceMs)), CollectIssues(Parse(y).org, b, GoodFirstIssues(sinceMs))]
  {
    ParseBountySpecifier();
    assert y != BountySpecifier;
    PlanOne(y, api, sinceMs);
    var acts := Resolve(y, api, sinceMs);
    PairEquality(acts, CollectIssues(Parse(y).org, a, GoodFirstIssues(sinceMs)), CollectIssues(Parse(y).org, b, GoodFirstIssues(sinceMs)));
  }

  /** Two actions performed one after the other. */
  lemma PerformPair(p: Action, q: Action, api: Api)
    ensures PerformAll([p, q], api) == Perform(p, api) + Perform(q, api)
  {
    assert [p, q] == [p] + [q];
    PerformAllAppend([p], [q], api);
    PerformOne(p, api);
    PerformOne(q, api);
  }

  /**
   A two-element sequence is the display of its elements. Stated as a lemma so
   that the extensionality step is proved outside the caller's large context.
   */
  lemma PairEquality<T>(s: seq<T>, p: T, q: T)
    requires |s| == 2 && s[0] == p && s[1] == q
    ensures s == [p, q]
  {
  }

  /**
   Deduplication is by exact line only: `org/name` followed by the wildcard line
   of `org`, where the organisation lists just `name`, lists the issues of
   `org/name` twice.
   */
  lemma OverlappingWildcardRepeats(org: string, name: string, api: Api, sinceMs: int)
    requires '/' !in org && '/' !in name && name != Wildcard
    requires org + "/" + name != BountySpecifier
    requires api.listRepos(org) == Success([name])
    ensures Plan([org + "/" + name, org + "/*"], api, sinceMs) ==
      [CollectIssues(org, name, GoodFirstIssues(sinceMs)), CollectIssues(org, name, GoodFirstIssues(sinceMs))]
  {
    var named, wild := org + "/" + name, org + "/*";
    NamedPlan(org, name, api, sinceMs);
    WildcardSinglePlan(org, name, api, sinceMs);
    assert [named] + [wild] == [named, wild];
    PlanAppend([named], [wild], api, sinceMs);
  }

  /** A line naming one repository (not the bounty line) plans its one standard listing. */
  lemma NamedPlan(org: string, repo: string, api: Api, sinceMs: int)
    requires '/' !in org && '/' !in repo && repo != Wildcard
    requires org + "/" + repo != BountySpecifier
    ensures Plan([org + "/" + repo], api, sinceMs) == [CollectIssues(org, repo, GoodFirstIssues(sinceMs))]
  {
    PlanOne(org + "/" + repo, api, sinceMs);
    ParseFormat(Specifier(org, Named(repo)));
  }

  /** The wildcard line of an organisation that lists just `name` plans one listing of `name`. */
  lemma WildcardSinglePlan(org: string, name: string, api: Api, sinceMs: int)
    requires '/' !in org
    requires api.listRepos(org) == Success([name])
    ensures Plan([org + "/*"], api, sinceMs) == [CollectIssues(org, name, GoodFirstIssues(sinceMs))]
  {
    var wild := org + "/*";
    ParseFormat(Specifier(org, Named(Wildcard)));
    assert Format(Specifier(org, Named(Wildcard))) == wild;
    ParseBountySpecifier();
    assert Parse(wild) != Parse(BountySpecifier);
    PlanOne(wild, api, sinceMs);
    var acts := Resolve(wild, api, sinceMs);
    assert |acts| == 1 && acts[0] == CollectIssues(org, name, GoodFirstIssues(sinceMs));
  }

  /**
   A list ending in a newline has an empty last line; with no slash its
   repository is undefined, so it causes a listing of `undefined` under the
   organisation named by the empty text.
   */
  lemma TrailingNewlineQueriesUndefined(file: string, api: Api, sinceMs: int)
    ensures "" in Specifiers(file + "\n")
    ensures Resolve("", api, sinceMs) == [CollectIssues("", "undefined", GoodFirstIssues(sinceMs))]
  {
    assert file + "\n" == file + ['\n'] + "";
    SplitAppend(file, '\n', "");
    var parts := Split(file + "\n", '\n');
    assert parts[|parts| - 1] == "";
  }

  /** Listing one more repository adds one more request at the end. */
  lemma CollectEachSnoc(org: string, names: seq<string>, j: nat, sinceMs: int)
    requires j < |names|
    ensures CollectEach(org, names[..j + 1], sinceMs) ==
      CollectEach(org, names[..j], sinceMs) + [CollectIssues(org, names[j], GoodFirstIssues(sinceMs))]
  {
    var longer := CollectEach(org, names[..j + 1], sinceMs);
    var shorter := CollectEach(org, names[..j], sinceMs);
    var expected := shorter + [CollectIssues(org, names[j], GoodFirstIssues(sinceMs))];
    assert |longer| == |expected|;
    forall i | 0 <= i < |longer| ensures longer[i] == expected[i] {
      if i < j {
        assert names[..j + 1][i] == names[..j][i];
      }
    }
  }

  /** The loop over an organisation's repositories: each one's listing appended in turn. */
  method AppendEach(buffer: string, org: string, names: seq<string>, api: Api, sinceMs: int)
    returns (result: string)
    ensures result == buffer + Unlines(PerformAll(CollectEach(org, names, sinceMs), api))
  {
    result := buffer;
    var j := 0;
    while j < |names|
      invariant 0 <= j <= |names|
      invariant result == buffer + Unlines(PerformAll(CollectEach(org, names[..j], sinceMs), api))
    {
      ghost var before := PerformAll(CollectEach(org, names[..j], sinceMs), api);
      var a := CollectIssues(org, names[j], GoodFirstIssues(sinceMs));
      CollectEachSnoc(org, names, j, sinceMs);
      PerformAllAppend(CollectEach(org, names[..j], sinceMs), [a], api);
      PerformOne(a, api);
      UnlinesAppend(before, Perform(a, api));
      ghost var prev := result;
      result := AppendCollected(result, org, names[j], api.listIssues(org, names[j], GoodFirstIssues(sinceMs)));
      assert result == prev + Unlines(Perform(a, api));
      ConcatAssoc(buffer, Unlines(before), Unlines(Perform(a, api)));
      j := j + 1;
    }
    assert names[..j] == names;
  }

  /** The standard requests of one parsed specifier, appended as the program does. */
  method AppendExpanded(buffer: string, spec: Specifier, api: Api, sinceMs: int) returns (result: string)
    ensures result == buffer + Unlines(PerformAll(Expand(spec, api, sinceMs), api))
  {
    if IsWildcard(spec) {
      match api.listRepos(spec.org) {
        case Failure =>
          result := buffer + ReposFailedNotice(spec.org) + "\n";
          PerformOne(ReposFailed(spec.org), api);
        case Success(names) =>
          result := AppendEach(buffer, spec.org, names, api, sinceMs);
      }
    } else {
      var repo := RepoText(spec.repo);
      result := AppendCollected(buffer, spec.org, repo, api.listIssues(spec.org, repo, GoodFirstIssues(sinceMs)));
      PerformOne(CollectIssues(spec.org, repo, GoodFirstIssues(sinceMs)), api);
    }
  }

  /** The buffer after the lines of one specifier line are appended, as the program builds it. */
  method AppendSpecifier(buffer: string, line: string, api: Api, sinceMs: int) returns (result: string)
    ensures result == buffer + Unlines(PerformAll(Resolve(line, api, sinceMs), api))
  {
    var spec := Parse(line);
    if line == BountySpecifier {
      var bounty := CollectIssues(BountyOrg, BountyRepo, HelpWanted(sinceMs));
      var mid := AppendCollected(buffer, BountyOrg, BountyRepo, api.listIssues(BountyOrg, BountyRepo, HelpWanted(sinceMs)));
      result := AppendExpanded(mid, spec, api, sinceMs);
      var rest := Expand(spec, api, sinceMs);
      ParseBountySpecifier();
      assert Resolve(line, api, sinceMs) == [bounty] + rest;
      PerformOne(bounty, api);
      PerformAllAppend([bounty], rest, api);
      UnlinesAppend(Perform(bounty, api), PerformAll(rest, api));
      ConcatAssoc(buffer, Unlines(Perform(bounty, api)), Unlines(PerformAll(rest, api)));
    } else {
      result := AppendExpanded(buffer, spec, api, sinceMs);
    }
  }

  /** The loop over the specifier lines: each line's requests appended in turn. */
  method AppendAll(buffer: string, specs: seq<string>, api: Api, sinceMs: int) returns (result: string)
    ensures result == buffer + Unlines(PerformAll(Plan(specs, api, sinceMs), api))
  {
    result := buffer;
    var i := 0;
    while i < |specs|
      invariant 0 <= i <= |specs|
      invariant result == buffer + Unlines(PerformAll(Plan(specs[..i], api, sinceMs), api))
    {
      ghost var before := PerformAll(Plan(specs[..i], api, sinceMs), api);
      ghost var added := PerformAll(Resolve(specs[i], api, sinceMs), api);
      PlanSnoc(specs, i, api, sinceMs);
      PerformAllAppend(Plan(specs[..i], api, sinceMs), Resolve(specs[i], api, sinceMs), api);
      UnlinesAppend(before, added);
      ghost var target := Unlines(PerformAll(Plan(specs[..i + 1], api, sinceMs), api));
      assert target == Unlines(before) + Unlines(added);
      ghost var prev := result;
      result := AppendSpecifier(result, specs[i], api, sinceMs);
      assert result == prev + Unlines(added);
      ConcatAssoc(buffer, Unlines(before), Unlines(added));
      i := i + 1;
    }
    assert specs[..i] == specs;
  }

  /** Planning one more line adds that line's requests at the end. */
  lemma PlanSnoc(specs: seq<string>, i: nat, api: Api, sinceMs: int)
    requires i < |specs|
    ensures Plan(specs[..i + 1], api, sinceMs) == Plan(specs[..i], api, sinceMs) + Resolve(specs[i], api, sinceMs)
  {
    assert specs[..i + 1] == specs[..i] + [specs[i]];
    FlatMapSnoc(specs[..i], specs[i], Resolver(api, sinceMs));
  }

  /**
   The run as the program performs it: split the list, drop repeated lines
   through a set, start the buffer with the header and append each specifier's
   lines in turn.
   */
  method RunPipeline(file: string, now: string, nowMs: int, api: Api) returns (page: string)
    ensures page == Run(file, now, nowMs, api)
  {
    var lines := Split(file, '\n');
    var specs := DedupInOrder(lines);
    page := AppendAll(Header(now), specs, api, SinceMs(nowMs));
  }
}

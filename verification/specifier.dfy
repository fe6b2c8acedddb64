/**
 One line of the repository list, destructured as `let [org, repo] = line.split('/')`
 does: the first segment is the organisation, the second (if any) the repository,
 and any further segments are dropped. A line without `/` leaves `repo` undefined.
 */
module Specifier {
  import opened Text

  /** The repository half of a specifier; `Undefined` is JavaScript's `undefined`. */
  datatype RepoPart = Undefined | Named(name: string)

  datatype Specifier = Specifier(org: string, repo: RepoPart)

  const Wildcard: string := "*"

  /** True iff the specifier asks for every repository of its organisation. */
  predicate IsWildcard(spec: Specifier) {
    spec.repo == Named(Wildcard)
  }

  /** How the repository half reads when interpolated into a template string. */
  function RepoText(repo: RepoPart): string {
    match repo
    case Undefined => "undefined"
    case Named(name) => name
  }

  /**
   `line` begins with `org`, a slash and `repo`, and what follows (if anything)
   starts with another slash.
   */
  predicate LeadingSegments(line: string, org: string, repo: string) {
    var n := |org| + 1 + |repo|;
    && n <= |line|
    && line[..|org|] == org
    && line[|org|] == '/'
    && line[|org| + 1..n] == repo
    && (n == |line| || line[n] == '/')
  }

  /** The organisation and repository named by one line of the list. */
  function Parse(line: string): (spec: Specifier)
    ensures '/' !in spec.org
    ensures spec.repo.Undefined? <==> '/' !in line
    ensures spec.repo.Undefined? ==> spec.org == line
    ensures spec.repo.Named? ==> '/' !in spec.repo.name && LeadingSegments(line, spec.org, spec.repo.name)
  {
    var parts := Split(line, '/');
    if |parts| == 1 then
      Specifier(parts[0], Undefined)
    else
      LeadingParts(parts);
      Specifier(parts[0], Named(parts[1]))
  }

  /** Joining two or more slash-free parts leaves the first two as leading segments. */
  lemma LeadingParts(parts: seq<string>)
    requires |parts| > 1
    ensures LeadingSegments(Join(parts, '/'), parts[0], parts[1])
  {
    FirstSeparator(parts, '/');
    if |parts| > 2 {
      FirstSeparator(parts[1..], '/');
    }
  }

  /** The line that names `spec`: `org/repo`, or just `org` when the repository is undefined. */
  function Format(spec: Specifier): string {
    match spec.repo
    case Undefined => spec.org
    case Named(name) => spec.org + "/" + name
  }

  /**
   Only the first two segments count: a line that starts with `org/repo` and
   continues with another slash (or ends) names `org` and `repo`.
   */
  lemma ParseLeading(org: string, repo: string, rest: string)
    requires '/' !in org && '/' !in repo
    requires rest == [] || rest[0] == '/'
    ensures Parse(org + "/" + repo + rest) == Specifier(org, Named(repo))
  {
    var line := org + "/" + repo + rest;
    LeadingOrg(org, repo, rest);
    var name := Parse(line).repo.name;
    var tail := line[|org| + 1..];
    assert tail == repo + rest;
    assert tail[..|name|] == name;
    SegmentUnique(tail, '/', name, repo);
  }

  /** A line starting with a slash-free `org` and a slash names `org` and some repository. */
  lemma LeadingOrg(org: string, repo: string, rest: string)
    requires '/' !in org
    ensures Parse(org + "/" + repo + rest).repo.Named?
    ensures Parse(org + "/" + repo + rest).org == org
  {
    var line := org + "/" + repo + rest;
    assert line[|org|] == '/';
    assert line[..|org|] == org;
    SegmentUnique(line, '/', Parse(line).org, org);
  }

  /** Parsing recovers any specifier whose halves contain no slash. */
  lemma ParseFormat(spec: Specifier)
    requires '/' !in spec.org
    requires spec.repo.Named? ==> '/' !in spec.repo.name
    ensures Parse(Format(spec)) == spec
  {
    match spec.repo
    case Undefined =>
      SplitJoin([spec.org], '/');
    case Named(name) =>
      var parts := [spec.org, name];
      assert Join(parts, '/') == Format(spec) by {
        assert parts[1..] == [name];
      }
      SplitJoin(parts, '/');
  }
}

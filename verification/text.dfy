/**
 Splitting a text on a separator character, as JavaScript's `String.prototype.split`
 does for a one-character separator, and gluing lines back into a newline-terminated text.
 */
module Text {

  /** True iff no part contains the separator. */
  predicate FreeOf(parts: seq<string>, sep: char) {
    forall k :: 0 <= k < |parts| ==> sep !in parts[k]
  }

  /** The parts glued back together with `sep` between neighbours. */
  function Join(parts: seq<string>, sep: char): string
    requires |parts| > 0
    decreases |parts|
  {
    if |parts| == 1 then parts[0] else parts[0] + [sep] + Join(parts[1..], sep)
  }

  /**
   The maximal separator-free segments of `s`, in order. Like JavaScript's split it
   never returns an empty list: the empty text splits into one empty part, and a
   trailing separator yields a trailing empty part.
   */
  function Split(s: string, sep: char): (parts: seq<string>)
    ensures |parts| > 0
    ensures FreeOf(parts, sep)
    ensures Join(parts, sep) == s
    decreases |s|
  {
    if |s| == 0 then [""]
    else
      var rest := Split(s[1..], sep);
      if s[0] == sep then
        assert s == [sep] + s[1..];
        [""] + rest
      else
        var parts := [[s[0]] + rest[0]] + rest[1..];
        assert |rest| > 1 ==> Join(parts, sep) == [s[0]] + (rest[0] + [sep] + Join(rest[1..], sep)) by {
          if |rest| > 1 {
            assert parts[1..] == rest[1..];
          }
        }
        assert s == [s[0]] + s[1..];
        parts
  }

  /** In a join of several parts, the first part is followed by the separator. */
  lemma FirstSeparator(parts: seq<string>, sep: char)
    requires |parts| > 1
    ensures |parts[0]| < |Join(parts, sep)|
    ensures Join(parts, sep)[..|parts[0]|] == parts[0]
    ensures Join(parts, sep)[|parts[0]|] == sep
    ensures Join(parts, sep)[|parts[0]| + 1..] == Join(parts[1..], sep)
  {
  }

  /** A text is determined by its separator-free parts: joining is injective. */
  lemma {:induction false} JoinInjective(ps: seq<string>, qs: seq<string>, sep: char)
    requires |ps| > 0 && |qs| > 0
    requires FreeOf(ps, sep) && FreeOf(qs, sep)
    requires Join(ps, sep) == Join(qs, sep)
    ensures ps == qs
    decreases |ps|
  {
    var t := Join(ps, sep);
    if |ps| == 1 && |qs| == 1 {
    } else if |ps| == 1 {
      FirstSeparator(qs, sep);
      assert false;
    } else if |qs| == 1 {
      FirstSeparator(ps, sep);
      assert false;
    } else {
      FirstSeparator(ps, sep);
      FirstSeparator(qs, sep);
      var a, b := ps[0], qs[0];
      assert |a| == |b|;
      JoinInjective(ps[1..], qs[1..], sep);
      assert ps == [a] + ps[1..];
      assert qs == [b] + qs[1..];
    }
  }

  /** Splitting undoes joining separator-free parts. */
  lemma SplitJoin(parts: seq<string>, sep: char)
    requires |parts| > 0 && FreeOf(parts, sep)
    ensures Split(Join(parts, sep), sep) == parts
  {
    JoinInjective(Split(Join(parts, sep), sep), parts, sep);
  }

  /** Appending one more part to a joined text appends the separator and the part. */
  lemma {:induction false} JoinAppend(parts: seq<string>, last: string, sep: char)
    requires |parts| > 0
    ensures Join(parts + [last], sep) == Join(parts, sep) + [sep] + last
    decreases |parts|
  {
    if |parts| == 1 {
      assert (parts + [last])[1..] == [last];
    } else {
      assert (parts + [last])[1..] == parts[1..] + [last];
      JoinAppend(parts[1..], last, sep);
    }
  }

  /** Adding a separator and one separator-free segment to a text adds exactly one part. */
  lemma SplitAppend(s: string, sep: char, last: string)
    requires sep !in last
    ensures Split(s + [sep] + last, sep) == Split(s, sep) + [last]
  {
    var parts := Split(s, sep) + [last];
    JoinAppend(Split(s, sep), last, sep);
    assert FreeOf(parts, sep) by {
      forall k | 0 <= k < |parts| ensures sep !in parts[k] {
        if k < |parts| - 1 {
          assert parts[k] == Split(s, sep)[k];
        }
      }
    }
    SplitJoin(parts, sep);
  }

  /**
   A separator-free prefix of `s` that ends at the end of `s` or at a separator
   is the whole segment before the first separator, so there is only one.
   */
  lemma SegmentUnique(s: string, sep: char, a: string, b: string)
    requires a <= s && b <= s
    requires sep !in a && sep !in b
    requires |a| == |s| || s[|a|] == sep
    requires |b| == |s| || s[|b|] == sep
    ensures a == b
  {
    assert |a| == |b|;
  }

  /**
   Concatenation of texts is associative. Stated as a lemma so that loops over
   large buffers can use the fact without the solver proving it in their context.
   */
  lemma ConcatAssoc(a: string, b: string, c: string)
    ensures a + b + c == a + (b + c)
  {
  }

  /** The lines, each followed by a newline, concatenated. */
  function Unlines(lines: seq<string>): (text: string)
    ensures |text| >= |lines|
  {
    if |lines| == 0 then "" else lines[0] + "\n" + Unlines(lines[1..])
  }

  /** Rendering distributes over concatenation of line lists. */
  lemma {:induction false} UnlinesAppend(a: seq<string>, b: seq<string>)
    ensures Unlines(a + b) == Unlines(a) + Unlines(b)
    decreases |a|
  {
    if |a| == 0 {
      assert a + b == b;
    } else {
      assert (a + b)[1..] == a[1..] + b;
      UnlinesAppend(a[1..], b);
    }
  }
}

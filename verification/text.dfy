/**
 * Joining strings with a separator, as `formatTrade` does with its
 * `StringBuilder`, and splitting them again at a separator character.
 */
module Text {

  /** The parts in order, with `sep` between each two consecutive ones. */
  function Join(parts: seq<string>, sep: string): string
    decreases |parts|
  {
    if parts == [] then ""
    else if |parts| == 1 then parts[0]
    else Join(parts[..|parts| - 1], sep) + sep + parts[|parts| - 1]
  }

  /** Position of the last `c` in `s`, or -1 when there is none. */
  function LastIndexOf(s: string, c: char): (k: int)
    ensures -1 <= k < |s|
    decreases |s|
  {
    if s == [] then -1
    else if s[|s| - 1] == c then |s| - 1
    else LastIndexOf(s[..|s| - 1], c)
  }

  /** The pieces of `s` between occurrences of `c`; there is always at least one. */
  function Split(s: string, c: char): (parts: seq<string>)
    ensures |parts| >= 1
    decreases |s|
  {
    var k := LastIndexOf(s, c);
    if k < 0 then [s] else Split(s[..k], c) + [s[k + 1..]]
  }

  lemma {:induction false} LastIndexOfAfterSeparator(a: string, c: char, b: string)
    requires c !in b
    ensures LastIndexOf(a + [c] + b, c) == |a|
    decreases |b|
  {
    var s := a + [c] + b;
    if b != [] {
      assert s[..|s| - 1] == a + [c] + b[..|b| - 1];
      assert s[|s| - 1] == b[|b| - 1];
      LastIndexOfAfterSeparator(a, c, b[..|b| - 1]);
    }
  }

  lemma {:induction false} LastIndexOfAbsent(s: string, c: char)
    requires c !in s
    ensures LastIndexOf(s, c) == -1
    decreases |s|
  {
    if s != [] {
      assert s[|s| - 1] in s;
      LastIndexOfAbsent(s[..|s| - 1], c);
    }
  }

  /** Splitting at `c` undoes joining with `c` when no part contains `c`. */
  lemma {:induction false} SplitJoin(parts: seq<string>, c: char)
    requires |parts| >= 1
    requires forall i :: 0 <= i < |parts| ==> c !in parts[i]
    ensures Split(Join(parts, [c]), c) == parts
    decreases |parts|
  {
    if |parts| == 1 {
      LastIndexOfAbsent(parts[0], c);
    } else {
      var init, last := parts[..|parts| - 1], parts[|parts| - 1];
      var j := Join(init, [c]);
      var s := Join(parts, [c]);
      assert s == j + [c] + last;
      LastIndexOfAfterSeparator(j, c, last);
      assert s[..|j|] == j;
      assert s[|j| + 1..] == last;
      SplitJoin(init, c);
      assert init + [last] == parts;
    }
  }

  /** A character in neither the parts nor the separator is not in their join. */
  lemma {:induction false} JoinAvoids(parts: seq<string>, sep: string, c: char)
    requires c !in sep
    requires forall i :: 0 <= i < |parts| ==> c !in parts[i]
    ensures c !in Join(parts, sep)
    decreases |parts|
  {
    if |parts| > 1 {
      JoinAvoids(parts[..|parts| - 1], sep, c);
    }
  }

  /** Joining one more part appends the separator and the part. */
  lemma JoinSnoc(parts: seq<string>, sep: string, last: string)
    requires |parts| >= 1
    ensures Join(parts + [last], sep) == Join(parts, sep) + sep + last
  {
    assert (parts + [last])[..|parts|] == parts;
  }

  /** A string without `c` splits into itself. */
  lemma SplitNone(s: string, c: char)
    requires c !in s
    ensures Split(s, c) == [s]
  {
    SplitJoin([s], c);
  }

  /** Two pieces around one `c` split back into the two pieces. */
  lemma SplitTwo(a: string, c: char, b: string)
    requires c !in a && c !in b
    ensures Split(a + [c] + b, c) == [a, b]
  {
    JoinTwo(a, [c], b);
    SplitJoin([a, b], c);
  }

  /** Appending a separated piece, regrouped. */
  lemma AppendRegroup(a: string, b: string, sep: string, c: string)
    ensures a + (b + (sep + c)) == a + b + sep + c
  {
  }

  lemma JoinTwo(a: string, sep: string, b: string)
    ensures Join([a, b], sep) == a + sep + b
  {
    assert [a, b][..1] == [a];
  }
}

/**
 * The key the multi-configuration example files a participant's stream
 * under: `p.stream.getTracks().map((t) => t.id).sort().join(':')`. The
 * default `sort` orders strings by their character codes.
 */
module StreamKey {
  import opened Media

  /** `a` sorts before `b`, or equals it: character-code order, a prefix first. */
  predicate Le(a: string, b: string)
    decreases |a|
  {
    a == [] || (b != [] && (a[0] < b[0] || (a[0] == b[0] && Le(a[1..], b[1..]))))
  }

  lemma {:induction false} LeTotal(a: string, b: string)
    ensures Le(a, b) || Le(b, a)
    decreases |a|
  {
    if a != [] && b != [] && a[0] == b[0] {
      LeTotal(a[1..], b[1..]);
    }
  }

  lemma {:induction false} LeAntisymmetric(a: string, b: string)
    requires Le(a, b) && Le(b, a)
    ensures a == b
    decreases |a|
  {
    if a != [] {
      LeAntisymmetric(a[1..], b[1..]);
      assert a == [a[0]] + a[1..] && b == [b[0]] + b[1..];
    }
  }

  lemma {:induction false} LeTransitive(a: string, b: string, c: string)
    requires Le(a, b) && Le(b, c)
    ensures Le(a, c)
    decreases |a|
  {
    if a != [] && a[0] == b[0] && b[0] == c[0] {
      LeTransitive(a[1..], b[1..], c[1..]);
    }
  }

  predicate Sorted(s: seq<string>)
  {
    forall i, j :: 0 <= i < j < |s| ==> Le(s[i], s[j])
  }

  lemma {:induction false} LeReflexive(a: string)
    ensures Le(a, a)
    decreases |a|
  {
    if a != [] {
      LeReflexive(a[1..]);
    }
  }

  /** A string that sorts before every element of a sorted sequence can lead it. */
  lemma Lead(y: string, t: seq<string>)
    requires Sorted(t) && forall k :: 0 <= k < |t| ==> Le(y, t[k])
    ensures Sorted([y] + t)
  {
    forall i, j | 0 <= i < j < |t| + 1 ensures Le(([y] + t)[i], ([y] + t)[j]) {
      assert ([y] + t)[j] == t[j - 1];
      if i > 0 { assert ([y] + t)[i] == t[i - 1]; }
    }
  }

  /** `x` placed in the sorted `s` before the first element it sorts before. */
  function Insert(x: string, s: seq<string>): (r: seq<string>)
    requires Sorted(s)
    ensures Sorted(r) && multiset(r) == multiset(s) + multiset{x}
  {
    if s == [] then [x]
    else if Le(x, s[0]) then
      assert forall k :: 0 <= k < |s| ==> Le(x, s[k]) by {
        forall k | 0 <= k < |s| ensures Le(x, s[k]) {
          if k > 0 { LeTransitive(x, s[0], s[k]); }
        }
      }
      Lead(x, s);
      [x] + s
    else
      var t := Insert(x, s[1..]);
      assert s == [s[0]] + s[1..];
      LeTotal(x, s[0]);
      InsertBound(x, s, t);
      Lead(s[0], t);
      [s[0]] + t
  }

  /** The head of a sorted sequence sorts before what inserting a larger string into its tail gives. */
  lemma InsertBound(x: string, s: seq<string>, t: seq<string>)
    requires Sorted(s) && s != [] && Le(s[0], x)
    requires multiset(t) == multiset(s[1..]) + multiset{x}
    ensures forall k :: 0 <= k < |t| ==> Le(s[0], t[k])
  {
    forall k | 0 <= k < |t| ensures Le(s[0], t[k]) {
      assert t[k] in multiset(t);
      if t[k] != x {
        assert t[k] in s[1..];
        var m :| 0 <= m < |s| - 1 && s[1..][m] == t[k];
        assert s[m + 1] == t[k];
      }
    }
  }

  /** `Array.prototype.sort` on strings: the same strings, in order. */
  function Sort(s: seq<string>): (r: seq<string>)
    ensures Sorted(r) && multiset(r) == multiset(s)
  {
    if s == [] then []
    else
      assert s == [s[0]] + s[1..];
      Insert(s[0], Sort(s[1..]))
  }

  /** Two sorted orderings of the same strings are the same sequence. */
  lemma {:induction false} SortedUnique(a: seq<string>, b: seq<string>)
    requires Sorted(a) && Sorted(b) && multiset(a) == multiset(b)
    ensures a == b
    decreases |a|
  {
    if a != [] {
      assert |b| == |a| by { assert |multiset(b)| == |multiset(a)|; }
      SameHead(a, b);
      SameTails(a, b);
      SortedTail(a);
      SortedTail(b);
      SortedUnique(a[1..], b[1..]);
      assert a == [a[0]] + a[1..] && b == [b[0]] + b[1..];
    }
  }

  /** The least string of two sorted orderings of the same strings comes first in both. */
  lemma SameHead(a: seq<string>, b: seq<string>)
    requires Sorted(a) && Sorted(b) && multiset(a) == multiset(b) && a != [] && b != []
    ensures a[0] == b[0]
  {
    assert b[0] in multiset(a) && a[0] in multiset(b);
    var i :| 0 <= i < |a| && a[i] == b[0];
    var j :| 0 <= j < |b| && b[j] == a[0];
    LeReflexive(a[0]);
    LeReflexive(b[0]);
    assert Le(a[0], b[0]) by { if i > 0 { assert Le(a[0], a[i]); } }
    assert Le(b[0], a[0]) by { if j > 0 { assert Le(b[0], b[j]); } }
    LeAntisymmetric(a[0], b[0]);
  }

  /** Taking the same first string off the same strings leaves the same strings. */
  lemma SameTails(a: seq<string>, b: seq<string>)
    requires a != [] && b != [] && a[0] == b[0] && multiset(a) == multiset(b)
    ensures multiset(a[1..]) == multiset(b[1..])
  {
    assert a == [a[0]] + a[1..] && b == [b[0]] + b[1..];
    assert multiset(a[1..]) == multiset(a) - multiset{a[0]};
    assert multiset(b[1..]) == multiset(b) - multiset{b[0]};
  }

  lemma SortedTail(a: seq<string>)
    requires Sorted(a) && a != []
    ensures Sorted(a[1..])
  {
    forall i, j | 0 <= i < j < |a| - 1 ensures Le(a[1..][i], a[1..][j]) {
      assert a[1..][i] == a[i + 1] && a[1..][j] == a[j + 1];
    }
  }

  /** `ss.join(sep)`. */
  function Join(ss: seq<string>, sep: char): string
  {
    if ss == [] then "" else if |ss| == 1 then ss[0] else ss[0] + [sep] + Join(ss[1..], sep)
  }

  /** `streamId`: the stream's track ids, sorted, joined with `:`. */
  function StreamId(tracks: seq<Track>): string
  {
    Join(Sort(Ids(tracks)), ':')
  }

  /** The key does not depend on the order of the tracks: the same ids give the same key. */
  lemma OrderIndependent(a: seq<Track>, b: seq<Track>)
    requires multiset(Ids(a)) == multiset(Ids(b))
    ensures StreamId(a) == StreamId(b)
  {
    SortedUnique(Sort(Ids(a)), Sort(Ids(b)));
  }

  /** In particular, swapping two groups of tracks keeps the key. */
  lemma SwapIndependent(a: seq<Track>, b: seq<Track>)
    ensures StreamId(a + b) == StreamId(b + a)
  {
    IdsAppend(a, b);
    IdsAppend(b, a);
    OrderIndependent(a + b, b + a);
  }
}

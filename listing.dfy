/** The conversation list of `LoadConversationList`: directory entries
    ordered by modification time, newest first. */
module Listing {
  import opened ChatTypes

  /** Every entry is at least as new as every entry after it. */
  ghost predicate NewestFirstOrder(es: seq<DirEntry>)
  {
    forall p, q :: 0 <= p < q < |es| ==> es[p].mtime >= es[q].mtime
  }

  /** Puts `x` into the newest-first sequence `t`, after every entry that
      is at least as new as `x`. */
  function Insert(x: DirEntry, t: seq<DirEntry>): seq<DirEntry>
    decreases |t|
  {
    if t == [] then [x]
    else if t[|t| - 1].mtime < x.mtime then Insert(x, t[..|t| - 1]) + [t[|t| - 1]]
    else t + [x]
  }

  /** The entries sorted newest first, by insertion. */
  function NewestFirst(es: seq<DirEntry>): seq<DirEntry>
    decreases |es|
  {
    if es == [] then [] else Insert(es[|es| - 1], NewestFirst(es[..|es| - 1]))
  }

  /** The paths of the entries, in order. */
  function Paths(es: seq<DirEntry>): (ps: seq<Path>)
    ensures |ps| == |es|
    ensures forall i :: 0 <= i < |es| ==> ps[i] == es[i].path
  {
    if es == [] then [] else [es[0].path] + Paths(es[1..])
  }

  lemma {:induction false} InsertPermutes(x: DirEntry, t: seq<DirEntry>)
    ensures multiset(Insert(x, t)) == multiset(t) + multiset{x}
    decreases |t|
  {
    if t != [] && t[|t| - 1].mtime < x.mtime {
      InsertPermutes(x, t[..|t| - 1]);
      assert t == t[..|t| - 1] + [t[|t| - 1]];
    }
  }

  /** Inserting into a newest-first sequence keeps it newest first. */
  lemma {:induction false} InsertOrdered(x: DirEntry, t: seq<DirEntry>)
    requires NewestFirstOrder(t)
    ensures NewestFirstOrder(Insert(x, t))
    decreases |t|
  {
    if t != [] && t[|t| - 1].mtime < x.mtime {
      var front := t[..|t| - 1];
      InsertOrdered(x, front);
      InsertPermutes(x, front);
      var r := Insert(x, front);
      forall e | e in r ensures e.mtime >= t[|t| - 1].mtime {
        assert e in multiset(r);
        if e != x {
          assert e in multiset(front);
          var p :| 0 <= p < |front| && front[p] == e;
          assert t[p] == e;
        }
      }
      var r2 := r + [t[|t| - 1]];
      forall p, q | 0 <= p < q < |r2| ensures r2[p].mtime >= r2[q].mtime {
        if q == |r2| - 1 {
          assert r2[p] in r;
        }
      }
    }
  }

  /** The sort is a permutation of the directory entries. */
  lemma {:induction false} NewestFirstPermutes(es: seq<DirEntry>)
    ensures multiset(NewestFirst(es)) == multiset(es)
    decreases |es|
  {
    if es != [] {
      var front, last := es[..|es| - 1], es[|es| - 1];
      var sortedFront := NewestFirst(front);
      assert NewestFirst(es) == Insert(last, sortedFront);
      NewestFirstPermutes(front);
      InsertPermutes(last, sortedFront);
      assert es == front + [last];
    }
  }

  /** The sort orders the entries newest first. */
  lemma {:induction false} NewestFirstSorted(es: seq<DirEntry>)
    ensures NewestFirstOrder(NewestFirst(es))
    decreases |es|
  {
    if es != [] {
      NewestFirstSorted(es[..|es| - 1]);
      InsertOrdered(es[|es| - 1], NewestFirst(es[..|es| - 1]));
    }
  }

  /** Entries with modification times 10:00, 10:05 and 10:02 (as minutes)
      are listed 10:05, 10:02, 10:00. */
  lemma ListingExample()
    ensures NewestFirst([DirEntry("a", 600), DirEntry("b", 605), DirEntry("c", 602)])
         == [DirEntry("b", 605), DirEntry("c", 602), DirEntry("a", 600)]
  {
    var a, b, c := DirEntry("a", 600), DirEntry("b", 605), DirEntry("c", 602);
    assert [a, b, c][..2] == [a, b];
    assert [a, b][..1] == [a];
    assert [a][..0] == [];
    assert NewestFirst([a]) == [a];
    assert Insert(b, [a]) == [b, a] by { assert [a][..0] == []; }
    assert NewestFirst([a, b]) == [b, a];
    assert [b, a][..1] == [b];
    assert Insert(c, [b, a]) == [b, c, a];
  }

  /** `Insert(x, t)` places `x` right after the last entry of `t` that is at
      least as new as `x`. */
  lemma {:induction false} InsertSplit(x: DirEntry, t: seq<DirEntry>, j: nat)
    requires j <= |t|
    requires forall k :: j <= k < |t| ==> t[k].mtime < x.mtime
    requires j == 0 || t[j - 1].mtime >= x.mtime
    ensures Insert(x, t) == t[..j] + [x] + t[j..]
    decreases |t|
  {
    if j < |t| {
      var front := t[..|t| - 1];
      assert front[..j] == t[..j];
      InsertSplit(x, front, j);
      assert t[j..] == front[j..] + [t[|t| - 1]];
    } else {
      assert t[..j] == t && t[j..] == [];
    }
  }

  /** Moves `a[i]` left into the newest-first prefix `a[..i]`, shifting
      older entries one place right. */
  method InsertInPlace(a: array<DirEntry>, i: nat)
    requires i < a.Length
    modifies a
    ensures a[..i + 1] == Insert(old(a[i]), old(a[..i]))
    ensures forall k :: i < k < a.Length ==> a[k] == old(a[k])
  {
    var x := a[i];
    ghost var sorted := a[..i];
    var j := i;
    while j > 0 && a[j - 1].mtime < x.mtime
      invariant 0 <= j <= i
      invariant forall k :: 0 <= k < j ==> a[k] == sorted[k]
      invariant forall k :: j < k <= i ==> a[k] == sorted[k - 1]
      invariant forall k :: i < k < a.Length ==> a[k] == old(a[k])
      invariant forall k :: j <= k < i ==> sorted[k].mtime < x.mtime
    {
      a[j] := a[j - 1];
      j := j - 1;
    }
    a[j] := x;
    InsertSplit(x, sorted, j);
    ghost var result := sorted[..j] + [x] + sorted[j..];
    forall k | 0 <= k <= i ensures a[k] == result[k] {
      if k < j { assert result[k] == sorted[k]; }
      else if k > j { assert result[k] == sorted[k - 1]; }
    }
    assert a[..i + 1] == result;
  }

  /** Sorts the entries in place, newest first; entries with equal times
      keep their relative order. */
  method SortNewestFirst(a: array<DirEntry>)
    modifies a
    ensures a[..] == NewestFirst(old(a[..]))
  {
    ghost var orig := a[..];
    var i := 0;
    while i < a.Length
      invariant 0 <= i <= a.Length
      invariant a[..i] == NewestFirst(orig[..i])
      invariant forall k :: i <= k < a.Length ==> a[k] == orig[k]
    {
      InsertInPlace(a, i);
      assert orig[..i + 1][..i] == orig[..i];
      i := i + 1;
    }
    assert a[..] == a[..a.Length];
    assert orig == orig[..a.Length];
  }
}

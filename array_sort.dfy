/** `Array.prototype.sort()` with no comparator, on an array of strings: it reorders the
    array in place into ascending UTF-16 code-unit order. */
module ArraySort {
  import opened JsStrings

  /** Each element is no greater than its successor. */
  predicate Sorted(s: seq<string>)
  {
    forall i :: 0 < i < |s| ==> LexLe(s[i - 1], s[i])
  }

  /** The first element of a sorted sequence is no greater than any element. */
  lemma {:induction false} SortedHeadIsLeast(s: seq<string>, k: nat)
    requires Sorted(s) && k < |s|
    ensures LexLe(s[0], s[k])
    decreases k
  {
    if k == 0 {
      LexLeReflexive(s[0]);
    } else {
      SortedHeadIsLeast(s, k - 1);
      LexLeTransitive(s[0], s[k - 1], s[k]);
    }
  }

  /** Under a total order there is only one sorted arrangement of a multiset of strings, so
      the outcome of sorting does not depend on the algorithm or on the starting order. */
  lemma {:induction false} SortedIsUnique(a: seq<string>, b: seq<string>)
    requires Sorted(a) && Sorted(b)
    requires multiset(a) == multiset(b)
    ensures a == b
    decreases |a|
  {
    if |a| == 0 {
      assert |multiset(b)| == 0;
    } else {
      assert |b| == |multiset(b)| == |multiset(a)| == |a|;
      assert a[0] in multiset(b);
      var j :| 0 <= j < |b| && b[j] == a[0];
      SortedHeadIsLeast(b, j);
      assert b[0] in multiset(a);
      var i :| 0 <= i < |a| && a[i] == b[0];
      SortedHeadIsLeast(a, i);
      LexLeAntisymmetric(a[0], b[0]);
      assert a == [a[0]] + a[1..];
      assert b == [b[0]] + b[1..];
      assert multiset(a) == multiset{a[0]} + multiset(a[1..]);
      assert multiset(b) == multiset{b[0]} + multiset(b[1..]);
      assert multiset(a[1..]) == multiset(a) - multiset{a[0]};
      assert multiset(b[1..]) == multiset(b) - multiset{b[0]};
      SortedIsUnique(a[1..], b[1..]);
    }
  }

  /** `x` placed into the sorted sequence `s` before its first greater-or-equal element. */
  function Insert(x: string, s: seq<string>): (r: seq<string>)
    requires Sorted(s)
    ensures Sorted(r)
    ensures multiset(r) == multiset(s) + multiset{x}
    ensures |r| > 0 && (r[0] == x || (|s| > 0 && r[0] == s[0]))
  {
    if |s| == 0 then [x]
    else if LexLe(x, s[0]) then [x] + s
    else
      LexLeTotal(x, s[0]);
      assert s == [s[0]] + s[1..];
      [s[0]] + Insert(x, s[1..])
  }

  /** The ascending arrangement of `s`: what the array holds after `sort()`. */
  function SortedCopy(s: seq<string>): (r: seq<string>)
    ensures Sorted(r)
    ensures multiset(r) == multiset(s)
  {
    if |s| == 0 then []
    else
      assert s == s[..|s| - 1] + [s[|s| - 1]];
      Insert(s[|s| - 1], SortedCopy(s[..|s| - 1]))
  }

  /** Sorting forgets the starting order: arrays with the same elements sort alike. */
  lemma SortedCopyOfPermutation(a: seq<string>, b: seq<string>)
    requires multiset(a) == multiset(b)
    ensures SortedCopy(a) == SortedCopy(b)
  {
    SortedIsUnique(SortedCopy(a), SortedCopy(b));
  }

  /** The state of the insertion step while the element that started at `i` moves left: it
      stands at `j`, everything left of it is sorted, the stretch from it to `i` is sorted, and
      its left neighbour is no greater than its right neighbour. */
  predicate Inserting(s: seq<string>, j: nat, i: nat)
  {
    j <= i < |s| &&
    Sorted(s[..j]) && Sorted(s[j..i + 1]) &&
    (0 < j < i ==> LexLe(s[j - 1], s[j + 1]))
  }

  /** One swap of the moving element with its greater left neighbour keeps the step's state. */
  lemma SwapKeepsInserting(s: seq<string>, j: nat, i: nat)
    requires Inserting(s, j, i) && 0 < j
    requires !LexLe(s[j - 1], s[j])
    ensures Inserting(s[j - 1 := s[j]][j := s[j - 1]], j - 1, i)
  {
    LexLeTotal(s[j - 1], s[j]);
    var t := s[j - 1 := s[j]][j := s[j - 1]];
    assert t[..j - 1] == s[..j - 1];
    var u, v := t[j - 1..i + 1], s[j..i + 1];
    forall k | 0 < k < |u|
      ensures LexLe(u[k - 1], u[k])
    {
      if k == 2 {
        assert u[1] == s[j - 1] && u[2] == s[j + 1];
      } else if k > 2 {
        assert u[k - 1] == t[j + k - 2] == s[j + k - 2] == v[k - 2];
        assert u[k] == t[j + k - 1] == s[j + k - 1] == v[k - 1];
      }
    }
    if 1 < j {
      assert LexLe(s[..j][j - 2], s[..j][j - 1]);
    }
  }

  /** Moves the element at `i` left into place, so that the first `i + 1` elements are sorted. */
  method InsertAt(a: array<string>, i: nat)
    requires i < a.Length && Sorted(a[..i])
    modifies a
    ensures Sorted(a[..i + 1])
    ensures multiset(a[..]) == multiset(old(a[..]))
    ensures a[i + 1..] == old(a[i + 1..])
  {
    var j := i;
    assert a[j..i + 1] == [a[i]];
    while j > 0 && !LexLe(a[j - 1], a[j])
      invariant Inserting(a[..], j, i)
      invariant multiset(a[..]) == multiset(old(a[..]))
      invariant a[i + 1..] == old(a[i + 1..])
    {
      SwapKeepsInserting(a[..], j, i);
      a[j - 1], a[j] := a[j], a[j - 1];
      j := j - 1;
    }
    var done, left, right := a[..i + 1], a[..j], a[j..i + 1];
    forall k | 0 < k < |done|
      ensures LexLe(done[k - 1], done[k])
    {
      if k < j {
        assert done[k - 1] == left[k - 1] && done[k] == left[k];
      } else if k > j {
        assert done[k - 1] == right[k - 1 - j] && done[k] == right[k - j];
      }
    }
  }

  /** Sorts `a` in place, as `a.sort()` does: afterwards it is ascending and holds the same
      strings as before. */
  method SortInPlace(a: array<string>)
    modifies a
    ensures Sorted(a[..])
    ensures multiset(a[..]) == multiset(old(a[..]))
    ensures a[..] == SortedCopy(old(a[..]))
  {
    var i := 0;
    while i < a.Length
      invariant 0 <= i <= a.Length
      invariant Sorted(a[..i])
      invariant multiset(a[..]) == multiset(old(a[..]))
    {
      InsertAt(a, i);
      i := i + 1;
    }
    assert a[..] == a[..a.Length];
    SortedIsUnique(a[..], SortedCopy(old(a[..])));
  }
}

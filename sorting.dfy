/** Sorting byte strings ascending. Rust's `Vec::sort` and Go's
    `sort.Strings` both order by bytes; since equal strings are identical,
    a sorted permutation is unique, so a stable and an unstable sort give
    the same sequence. `Sort` is the reference definition, `SortInPlace`
    the in-place algorithm the discovery methods run. */
module Sorting {
  import opened ByteText

  /** Every element sorts before or equal to every later one. */
  predicate Sorted(s: seq<Bytes>) {
    forall i, j :: 0 <= i < j < |s| ==> Le(s[i], s[j])
  }

  /** `x` placed before the first element it sorts before or equal to. */
  function Insert(x: Bytes, s: seq<Bytes>): seq<Bytes> {
    if s == [] then [x]
    else if Le(x, s[0]) then [x] + s
    else [s[0]] + Insert(x, s[1..])
  }

  /** Insertion sort of `s`. */
  function Sort(s: seq<Bytes>): seq<Bytes> {
    if s == [] then [] else Insert(s[0], Sort(s[1..]))
  }

  /** A lower bound of `x` and of all of `s` is a lower bound of all of
      `Insert(x, s)`. */
  lemma {:induction false} InsertBound(b: Bytes, x: Bytes, s: seq<Bytes>)
    requires Le(b, x)
    requires forall k :: 0 <= k < |s| ==> Le(b, s[k])
    ensures forall k :: 0 <= k < |Insert(x, s)| ==> Le(b, Insert(x, s)[k])
  {
    if s != [] && !Le(x, s[0]) {
      InsertBound(b, x, s[1..]);
      assert Insert(x, s) == [s[0]] + Insert(x, s[1..]);
    }
  }

  lemma {:induction false} InsertPermutes(x: Bytes, s: seq<Bytes>)
    ensures multiset(Insert(x, s)) == multiset(s) + multiset{x}
  {
    if s != [] && !Le(x, s[0]) {
      InsertPermutes(x, s[1..]);
      assert s == [s[0]] + s[1..];
    }
  }

  lemma {:induction false} InsertCorrect(x: Bytes, s: seq<Bytes>)
    requires Sorted(s)
    ensures Sorted(Insert(x, s))
    ensures multiset(Insert(x, s)) == multiset(s) + multiset{x}
  {
    InsertPermutes(x, s);
    if s == [] {
    } else if Le(x, s[0]) {
      forall j | 0 <= j < |s| ensures Le(x, s[j]) {
        if j > 0 { LeTransitive(x, s[0], s[j]); }
      }
    } else {
      SortedTail(s);
      InsertCorrect(x, s[1..]);
      LeTotal(x, s[0]);
      forall k | 0 <= k < |s[1..]| ensures Le(s[0], s[1..][k]) {
        assert s[1..][k] == s[k + 1];
      }
      InsertBound(s[0], x, s[1..]);
      var r := Insert(x, s[1..]);
      assert Insert(x, s) == [s[0]] + r;
    }
  }

  /** The reference sort is sorted and a permutation of its input. */
  lemma {:induction false} SortCorrect(s: seq<Bytes>)
    ensures Sorted(Sort(s))
    ensures multiset(Sort(s)) == multiset(s)
  {
    if s != [] {
      SortCorrect(s[1..]);
      InsertCorrect(s[0], Sort(s[1..]));
      assert s == [s[0]] + s[1..];
    }
  }

  /** The first element of a sorted sequence sorts before every element. */
  lemma HeadIsLeast(a: seq<Bytes>, x: Bytes)
    requires Sorted(a) && x in multiset(a)
    ensures Le(a[0], x)
  {
    var i :| 0 <= i < |a| && a[i] == x;
    if i == 0 { LeReflexive(x); }
  }

  lemma SortedTail(a: seq<Bytes>)
    requires Sorted(a) && a != []
    ensures Sorted(a[1..])
  {
    forall i, j | 0 <= i < j < |a[1..]| ensures Le(a[1..][i], a[1..][j]) {
      assert a[1..][i] == a[i + 1] && a[1..][j] == a[j + 1];
    }
  }

  /** Sorting keeps exactly the elements it is given. */
  lemma SortMembers(s: seq<Bytes>, x: Bytes)
    ensures x in Sort(s) <==> x in s
  {
    SortCorrect(s);
    assert x in Sort(s) <==> x in multiset(Sort(s));
    assert x in s <==> x in multiset(s);
  }

  lemma MultisetTail(a: seq<Bytes>)
    requires a != []
    ensures multiset(a[1..]) == multiset(a) - multiset{a[0]}
  {
    assert a == [a[0]] + a[1..];
  }

  /** Two sorted sequences with the same elements are equal. */
  lemma {:induction false} SortedUnique(a: seq<Bytes>, b: seq<Bytes>)
    requires Sorted(a) && Sorted(b)
    requires multiset(a) == multiset(b)
    ensures a == b
  {
    if a == [] {
      assert |multiset(b)| == 0;
    } else {
      assert a[0] in multiset(b);
      HeadIsLeast(b, a[0]);
      HeadIsLeast(a, b[0]);
      LeAntisymmetric(a[0], b[0]);
      MultisetTail(a);
      MultisetTail(b);
      SortedTail(a);
      SortedTail(b);
      SortedUnique(a[1..], b[1..]);
      assert a == [a[0]] + a[1..] && b == [b[0]] + b[1..];
    }
  }

  /** Whatever sorted permutation an algorithm produces is the reference sort. */
  lemma SortedPermutationIsSort(s: seq<Bytes>, r: seq<Bytes>)
    requires Sorted(r) && multiset(r) == multiset(s)
    ensures r == Sort(s)
  {
    SortCorrect(s);
    SortedUnique(r, Sort(s));
  }

  /** The state of the inner loop of `SortInPlace`: `s[..i+1]` is sorted
      except for the element at `j`, which sorts before every later one. */
  predicate Inserting(s: seq<Bytes>, j: int, i: int) {
    0 <= j <= i < |s|
    && (forall p, q :: 0 <= p < q <= i && p != j && q != j ==> Le(s[p], s[q]))
    && (forall q :: j < q <= i ==> Le(s[j], s[q]))
  }

  /** Swapping the element at `j` with its larger left neighbour moves the
      gap one place left. */
  lemma SwapStep(s: seq<Bytes>, j: int, i: int)
    requires Inserting(s, j, i) && j > 0 && !Le(s[j - 1], s[j])
    ensures Inserting(s[j - 1 := s[j]][j := s[j - 1]], j - 1, i)
    ensures multiset(s[j - 1 := s[j]][j := s[j - 1]]) == multiset(s)
  {
    var t := s[j - 1 := s[j]][j := s[j - 1]];
    LeTotal(s[j - 1], s[j]);
    forall q | j - 1 < q <= i ensures Le(t[j - 1], t[q]) {
      if q > j { LeTransitive(s[j], s[j - 1], s[q]); }
    }
  }

  /** When the gap stops, the first `i + 1` elements are sorted. */
  lemma InsertDone(s: seq<Bytes>, j: int, i: int)
    requires Inserting(s, j, i) && (j == 0 || Le(s[j - 1], s[j]))
    ensures forall p, q :: 0 <= p < q <= i ==> Le(s[p], s[q])
  {
    forall p | 0 <= p < j ensures Le(s[p], s[j]) {
      if p < j - 1 { LeTransitive(s[p], s[j - 1], s[j]); }
    }
  }

  /** Insertion sort of an array in place, moving each new element left by
      adjacent swaps until it meets one it does not sort before. */
  method SortInPlace(a: array<Bytes>)
    modifies a
    ensures Sorted(a[..])
    ensures multiset(a[..]) == multiset(old(a[..]))
  {
    var i := 0;
    while i < a.Length
      invariant 0 <= i <= a.Length
      invariant forall p, q :: 0 <= p < q < i ==> Le(a[p], a[q])
      invariant multiset(a[..]) == multiset(old(a[..]))
    {
      var j := i;
      while j > 0 && !Le(a[j - 1], a[j])
        invariant Inserting(a[..], j, i)
        invariant multiset(a[..]) == multiset(old(a[..]))
      {
        SwapStep(a[..], j, i);
        a[j - 1], a[j] := a[j], a[j - 1];
        j := j - 1;
      }
      InsertDone(a[..], j, i);
      i := i + 1;
    }
  }

  /** Copy the names into a buffer, sort the buffer in place and read it back. */
  method SortNames(names: seq<Bytes>) returns (sorted: seq<Bytes>)
    ensures sorted == Sort(names)
  {
    var buffer := new Bytes[|names|](k requires 0 <= k < |names| => names[k]);
    assert buffer[..] == names;
    SortInPlace(buffer);
    sorted := buffer[..];
    SortedPermutationIsSort(names, sorted);
  }
}

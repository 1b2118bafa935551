/** Stable sorting, as the library sorts that the books and itineraries rely on. */
module Ordering {

  ghost predicate TotalPreorder<T(!new)>(le: (T, T) -> bool) {
    && (forall a, b :: le(a, b) || le(b, a))
    && (forall a, b, c :: le(a, b) && le(b, c) ==> le(a, c))
  }

  ghost predicate Sorted<T>(s: seq<T>, le: (T, T) -> bool) {
    forall i, j :: 0 <= i < j < |s| ==> le(s[i], s[j])
  }

  /** Places an element after everything it does not precede. */
  function Insert<T>(s: seq<T>, x: T, le: (T, T) -> bool): (r: seq<T>)
    ensures |r| == |s| + 1
  {
    if s == [] || le(s[|s| - 1], x) then s + [x]
    else
      Insert(s[..|s| - 1], x, le) + [s[|s| - 1]]
  }

  function StableSort<T>(s: seq<T>, le: (T, T) -> bool): (r: seq<T>)
    ensures |r| == |s|
  {
    if s == [] then []
    else
      Insert(StableSort(s[..|s| - 1], le), s[|s| - 1], le)
  }

  lemma {:induction false} InsertPermutes<T>(s: seq<T>, x: T, le: (T, T) -> bool)
    ensures multiset(Insert(s, x, le)) == multiset(s) + multiset{x}
    decreases |s|
  {
    if s != [] && !le(s[|s| - 1], x) {
      assert s == s[..|s| - 1] + [s[|s| - 1]];
      InsertPermutes(s[..|s| - 1], x, le);
    }
  }

  lemma {:induction false} SortPermutes<T>(s: seq<T>, le: (T, T) -> bool)
    ensures multiset(StableSort(s, le)) == multiset(s)
    decreases |s|
  {
    if s != [] {
      assert s == s[..|s| - 1] + [s[|s| - 1]];
      SortPermutes(s[..|s| - 1], le);
      InsertPermutes(StableSort(s[..|s| - 1], le), s[|s| - 1], le);
    }
  }

  /** Where the insertion happens in a sorted sequence. */
  lemma {:induction false} InsertAt<T(!new)>(s: seq<T>, x: T, le: (T, T) -> bool, p: nat)
    requires TotalPreorder(le) && p <= |s|
    requires forall i :: 0 <= i < p ==> le(s[i], x)
    requires forall i :: p <= i < |s| ==> !le(s[i], x)
    ensures Insert(s, x, le) == s[..p] + [x] + s[p..]
    decreases |s|
  {
    if p == |s| {
      assert s[..p] == s && s[p..] == [];
    } else {
      var front := s[..|s| - 1];
      InsertAt(front, x, le, p);
      assert front[..p] == s[..p] && front[p..] + [s[|s| - 1]] == s[p..];
    }
  }

  lemma {:induction false} InsertSorted<T(!new)>(s: seq<T>, x: T, le: (T, T) -> bool)
    requires TotalPreorder(le) && Sorted(s, le)
    ensures Sorted(Insert(s, x, le), le)
    decreases |s|
  {
    if s != [] && !le(s[|s| - 1], x) {
      var front, last := s[..|s| - 1], s[|s| - 1];
      InsertSorted(front, x, le);
      InsertPermutes(front, x, le);
      forall y | y in Insert(front, x, le) ensures le(y, last) {
        assert y in multiset(Insert(front, x, le));
        assert y in front || y == x;
      }
    }
  }

  lemma {:induction false} SortSorted<T(!new)>(s: seq<T>, le: (T, T) -> bool)
    requires TotalPreorder(le)
    ensures Sorted(StableSort(s, le), le)
    decreases |s|
  {
    if s != [] {
      SortSorted(s[..|s| - 1], le);
      InsertSorted(StableSort(s[..|s| - 1], le), s[|s| - 1], le);
    }
  }

  /** The elements that tie with a given one, in order. */
  function Ties<T>(s: seq<T>, x: T, le: (T, T) -> bool): seq<T> {
    if s == [] then []
    else
      var last := s[|s| - 1];
      Ties(s[..|s| - 1], x, le) + if le(last, x) && le(x, last) then [last] else []
  }

  lemma {:induction false} InsertKeepsTies<T(!new)>(s: seq<T>, x: T, y: T, le: (T, T) -> bool)
    requires TotalPreorder(le)
    ensures Ties(Insert(s, x, le), y, le) == Ties(s + [x], y, le)
    decreases |s|
  {
    if s != [] && !le(s[|s| - 1], x) {
      var front, last := s[..|s| - 1], s[|s| - 1];
      var r := Insert(front, x, le);
      InsertKeepsTies(front, x, y, le);
      assert (r + [last])[..|r|] == r;
      assert (s + [x])[..|s|] == s && (front + [x])[..|front|] == front;
    }
  }

  /** Sorting is stable: elements that tie keep their order. */
  lemma {:induction false} SortStable<T(!new)>(s: seq<T>, y: T, le: (T, T) -> bool)
    requires TotalPreorder(le)
    ensures Ties(StableSort(s, le), y, le) == Ties(s, y, le)
    decreases |s|
  {
    if s != [] {
      var front, last := s[..|s| - 1], s[|s| - 1];
      SortStable(front, y, le);
      InsertKeepsTies(StableSort(front, le), last, y, le);
      assert (StableSort(front, le) + [last])[..|front|] == StableSort(front, le);
    }
  }

  lemma {:induction false} SortedIsFixed<T(!new)>(s: seq<T>, le: (T, T) -> bool)
    requires TotalPreorder(le) && Sorted(s, le)
    ensures StableSort(s, le) == s
    decreases |s|
  {
    if s != [] {
      SortedIsFixed(s[..|s| - 1], le);
    }
  }

  lemma {:induction false} TiesMember<T(!new)>(s: seq<T>, x: T, le: (T, T) -> bool)
    requires TotalPreorder(le)
    ensures x in s ==> x in Ties(s, x, le)
    ensures forall y :: y in Ties(s, x, le) ==> y in s && le(y, x) && le(x, y)
    decreases |s|
  {
    if s != [] {
      TiesMember(s[..|s| - 1], x, le);
    }
  }

  /** The greatest element of a sorted sequence is its last, among its ties too. */
  lemma LastTie<T(!new)>(s: seq<T>, x: T, le: (T, T) -> bool)
    requires TotalPreorder(le) && s != [] && le(s[|s| - 1], x) && le(x, s[|s| - 1])
    ensures Ties(s, x, le) != [] && Ties(s, x, le)[|Ties(s, x, le)| - 1] == s[|s| - 1]
  {
  }

  lemma SameMember<T(!new)>(a: seq<T>, b: seq<T>, x: T, le: (T, T) -> bool)
    requires TotalPreorder(le) && x in a && Ties(a, x, le) == Ties(b, x, le)
    ensures x in b
  {
    TiesMember(a, x, le);
    TiesMember(b, x, le);
  }

  lemma LastsTie<T(!new)>(a: seq<T>, b: seq<T>, le: (T, T) -> bool)
    requires TotalPreorder(le) && Sorted(a, le) && Sorted(b, le) && a != [] && b != []
    requires a[|a| - 1] in b && b[|b| - 1] in a
    ensures le(a[|a| - 1], b[|b| - 1]) && le(b[|b| - 1], a[|a| - 1])
  {
    var x, y := a[|a| - 1], b[|b| - 1];
    assert le(x, x) && le(y, y);
    var i :| 0 <= i < |b| && b[i] == x;
    var j :| 0 <= j < |a| && a[j] == y;
    assert i < |b| - 1 ==> le(b[i], b[|b| - 1]);
    assert j < |a| - 1 ==> le(a[j], a[|a| - 1]);
  }

  lemma SameLast<T(!new)>(a: seq<T>, b: seq<T>, le: (T, T) -> bool)
    requires TotalPreorder(le) && Sorted(a, le) && Sorted(b, le) && a != []
    requires forall x :: Ties(a, x, le) == Ties(b, x, le)
    ensures b != [] && a[|a| - 1] == b[|b| - 1]
  {
    var x := a[|a| - 1];
    SameMember(a, b, x, le);
    SameMember(b, a, b[|b| - 1], le);
    LastsTie(a, b, le);
    LastTie(a, x, le);
    LastTie(b, x, le);
  }

  lemma FrontTies<T(!new)>(a: seq<T>, b: seq<T>, z: T, le: (T, T) -> bool)
    requires a != [] && b != [] && a[|a| - 1] == b[|b| - 1] && Ties(a, z, le) == Ties(b, z, le)
    ensures Ties(a[..|a| - 1], z, le) == Ties(b[..|b| - 1], z, le)
  {
    var last := a[|a| - 1];
    var tie := if le(last, z) && le(z, last) then [last] else [];
    var s, t := Ties(a[..|a| - 1], z, le), Ties(b[..|b| - 1], z, le);
    assert s + tie == t + tie;
    assert |s| == |t|;
    assert s == (s + tie)[..|s|] && t == (t + tie)[..|s|];
  }

  /** Sortedness and stability determine the result, so any correct stable sort
      returns this one. */
  lemma {:induction false} StableSortUnique<T(!new)>(a: seq<T>, b: seq<T>, le: (T, T) -> bool)
    requires TotalPreorder(le) && Sorted(a, le) && Sorted(b, le)
    requires forall x :: Ties(a, x, le) == Ties(b, x, le)
    ensures a == b
    decreases |a|
  {
    if a == [] {
      if b != [] {
        TiesMember(b, b[0], le);
      }
    } else {
      SameLast(a, b, le);
      var f, g := a[..|a| - 1], b[..|b| - 1];
      forall z: T ensures Ties(f, z, le) == Ties(g, z, le) {
        assert Ties(a, z, le) == Ties(b, z, le);
        FrontTies(a, b, z, le);
      }
      StableSortUnique(f, g, le);
      assert a == f + [a[|a| - 1]] && b == g + [b[|b| - 1]];
    }
  }
}

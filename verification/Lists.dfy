/** Lists up to order: distinctness, stable sorting in place, and when sorting forgets the order
    of its input. */
module Lists {

  ghost predicate Distinct<T>(s: seq<T>) {
    forall i, j | 0 <= i < j < |s| :: s[i] != s[j]
  }

  ghost predicate SameMembers<T>(s: seq<T>, t: seq<T>) {
    (forall x | x in s :: x in t) && (forall x | x in t :: x in s)
  }

  lemma {:induction false} DistinctCounts<T>(s: seq<T>)
    ensures Distinct(s) <==> forall x | x in s :: multiset(s)[x] == 1
  {
    if s != [] {
      var init, last := s[..|s| - 1], s[|s| - 1];
      assert s == init + [last];
      DistinctCounts(init);
      if Distinct(s) {
        assert last !in init;
      } else if Distinct(init) {
        var i, j :| 0 <= i < j < |s| && s[i] == s[j];
        assert j == |s| - 1 && s[i] in init;
        assert multiset(s)[last] >= 2;
      } else {
        var x :| x in init && multiset(init)[x] != 1;
        assert x in s && multiset(s)[x] != 1;
      }
    }
  }

  /** Distinctness and membership do not depend on order. */
  lemma Rearranged<T>(s: seq<T>, t: seq<T>)
    requires multiset(s) == multiset(t)
    ensures |s| == |t| && SameMembers(s, t) && (Distinct(s) <==> Distinct(t))
  {
    assert |multiset(s)| == |s| && |multiset(t)| == |t|;
    forall x | x in s || x in t ensures x in s && x in t {
      assert x in s <==> x in multiset(s);
      assert x in t <==> x in multiset(t);
    }
    DistinctCounts(s);
    DistinctCounts(t);
  }

  lemma {:induction false} ListCard<T>(list: seq<T>, all: set<T>)
    requires (forall x | x in list :: x in all) && (forall x | x in all :: x in list) && Distinct(list)
    ensures |list| == |all|
  {
    if list == [] {
      assert all == {};
    } else {
      var init, last := list[..|list| - 1], list[|list| - 1];
      forall x | x in init || x in all ensures x in init <==> x in all - {last} {
        if x in init {
          var i :| 0 <= i < |init| && init[i] == x;
          assert list[i] != last;
        }
        if x in all - {last} {
          var i :| 0 <= i < |list| && list[i] == x;
          assert init[i] == x;
        }
      }
      ListCard(init, all - {last});
    }
  }

  lemma RemoveAt<T>(s: seq<T>, i: nat)
    requires i < |s|
    ensures multiset(s[..i] + s[i + 1..]) == multiset(s) - multiset{s[i]}
  {
    assert s == s[..i] + [s[i]] + s[i + 1..];
  }

  // ----- stable sorting

  // before(x, y): x belongs strictly in front of y.
  function Insert<T>(s: seq<T>, x: T, before: (T, T) -> bool): seq<T> {
    if s != [] && before(x, s[|s| - 1]) then Insert(s[..|s| - 1], x, before) + [s[|s| - 1]] else s + [x]
  }

  function Sort<T>(s: seq<T>, before: (T, T) -> bool): seq<T> {
    if s == [] then [] else Insert(Sort(s[..|s| - 1], before), s[|s| - 1], before)
  }

  lemma {:induction false} InsertCounts<T>(s: seq<T>, x: T, before: (T, T) -> bool)
    ensures multiset(Insert(s, x, before)) == multiset(s) + multiset{x}
  {
    if s != [] {
      assert s == s[..|s| - 1] + [s[|s| - 1]];
      InsertCounts(s[..|s| - 1], x, before);
    }
  }

  /** Sorting rearranges. */
  lemma {:induction false} SortCounts<T>(s: seq<T>, before: (T, T) -> bool)
    ensures multiset(Sort(s, before)) == multiset(s)
  {
    if s != [] {
      assert s == s[..|s| - 1] + [s[|s| - 1]];
      SortCounts(s[..|s| - 1], before);
      InsertCounts(Sort(s[..|s| - 1], before), s[|s| - 1], before);
    }
  }

  // Where an element goes: behind the last one it does not belong in front of.
  lemma {:induction false} InsertAt<T>(s: seq<T>, x: T, j: nat, before: (T, T) -> bool)
    requires j <= |s| && (forall k | j <= k < |s| :: before(x, s[k])) && (j > 0 ==> !before(x, s[j - 1]))
    ensures Insert(s, x, before) == s[..j] + [x] + s[j..]
  {
    if j < |s| {
      var init := s[..|s| - 1];
      InsertAt(init, x, j, before);
      assert init[..j] == s[..j] && init[j..] + [s[|s| - 1]] == s[j..];
    }
  }

  // The element at i moves left while it belongs in front.
  method MoveLeft<T>(a: array<T>, i: nat, before: (T, T) -> bool)
    requires i < a.Length
    modifies a
    ensures a[..i + 1] == Insert(old(a[..i]), old(a[i]), before) && a[i + 1..] == old(a[i + 1..])
  {
    ghost var was, x := a[..], a[i];
    var j := i;
    while j > 0 && before(a[j], a[j - 1])
      invariant 0 <= j <= i && a[j] == x
      invariant forall k | 0 <= k < j || i < k < a.Length :: a[k] == was[k]
      invariant forall k | j < k <= i :: a[k] == was[k - 1]
      invariant forall k | j <= k < i :: before(x, was[k])
    {
      assert a[j - 1] == was[j - 1] && before(x, was[j - 1]);
      a[j], a[j - 1] := a[j - 1], a[j];
      j := j - 1;
    }
    InsertAt(was[..i], x, j, before);
    assert a[..i + 1] == was[..i][..j] + [x] + was[..i][j..];
  }

  /** The stable sort, in place. */
  method SortInPlace<T>(a: array<T>, before: (T, T) -> bool)
    modifies a
    ensures a[..] == Sort(old(a[..]), before)
  {
    ghost var was := a[..];
    for i := 0 to a.Length
      invariant a[..i] == Sort(was[..i], before)
      invariant a[i..] == was[i..]
    {
      assert a[i] == a[i..][0] == was[i];
      assert was[..i + 1][..i] == was[..i] && a[i + 1..] == a[i..][1..];
      MoveLeft(a, i, before);
    }
    assert was[..a.Length] == was && a[..a.Length] == a[..];
  }

  // No later element belongs in front of an earlier one.
  ghost predicate Ordered<T>(s: seq<T>, before: (T, T) -> bool) {
    forall i, j | 0 <= i < j < |s| :: !before(s[j], s[i])
  }

  // On the members of s: a strict order in which incomparable elements are interchangeable.
  ghost predicate Weak<T>(s: seq<T>, before: (T, T) -> bool) {
    && (forall x, y | x in s && y in s && before(x, y) :: !before(y, x))
    && (forall x, y, z | x in s && y in s && z in s && before(x, y) :: before(x, z) || before(z, y))
  }

  // On the members of s: a strict total order.
  ghost predicate Total<T>(s: seq<T>, before: (T, T) -> bool) {
    && Weak(s, before)
    && forall x, y | x in s && y in s && x != y :: before(x, y) || before(y, x)
  }

  lemma {:induction false} InsertOrdered<T>(s: seq<T>, x: T, before: (T, T) -> bool)
    requires Ordered(s, before) && Weak(s + [x], before)
    ensures Ordered(Insert(s, x, before), before)
  {
    if s != [] && before(x, s[|s| - 1]) {
      var init, last := s[..|s| - 1], s[|s| - 1];
      assert forall y | y in init + [x] :: y in s + [x];
      InsertOrdered(init, x, before);
      var r := Insert(init, x, before);
      forall i | 0 <= i < |r| ensures !before(last, r[i]) {
        InsertMembers(init, x, before, r[i]);
        if r[i] == x {
          assert x in s + [x] && last in s + [x];
          assert before(x, last);
        }
      }
    } else {
      var r := s + [x];
      if s != [] {
        var last := s[|s| - 1];
        forall i | 0 <= i < |s| ensures !before(x, s[i]) {
          assert s[i] in s + [x] && last in s + [x] && x in s + [x];
        }
      }
    }
  }

  lemma InsertMembers<T>(s: seq<T>, x: T, before: (T, T) -> bool, y: T)
    ensures y in Insert(s, x, before) <==> y in s || y == x
  {
    var r := Insert(s, x, before);
    InsertCounts(s, x, before);
    assert y in r <==> y in multiset(r);
    assert y in s <==> y in multiset(s);
  }

  lemma SortMembers<T>(s: seq<T>, before: (T, T) -> bool, y: T)
    ensures y in Sort(s, before) <==> y in s
  {
    SortCounts(s, before);
    assert y in Sort(s, before) <==> y in multiset(Sort(s, before));
    assert y in s <==> y in multiset(s);
  }

  lemma {:induction false} SortOrdered<T>(s: seq<T>, before: (T, T) -> bool)
    requires Weak(s, before)
    ensures Ordered(Sort(s, before), before)
  {
    if s != [] {
      var init, last := s[..|s| - 1], s[|s| - 1];
      assert s == init + [last];
      SortOrdered(init, before);
      SortCounts(init, before);
      Rearranged(Sort(init, before), init);
      assert Weak(Sort(init, before) + [last], before);
      InsertOrdered(Sort(init, before), last, before);
    }
  }

  lemma SameFirst<T>(s: seq<T>, t: seq<T>, before: (T, T) -> bool)
    requires SameMembers(s, t) && s != [] && t != []
    requires Ordered(s, before) && Ordered(t, before) && Total(s, before)
    ensures s[0] == t[0]
  {
    assert s[0] in s && t[0] in t;
    var i :| 0 <= i < |t| && t[i] == s[0];
    var k :| 0 <= k < |s| && s[k] == t[0];
    assert i > 0 ==> !before(t[i], t[0]);
    assert k > 0 ==> !before(s[k], s[0]);
  }

  lemma Tail<T>(s: seq<T>)
    requires s != []
    ensures multiset(s[1..]) == multiset(s) - multiset{s[0]}
    ensures forall x | x in s[1..] :: x in s
  {
    assert s == [s[0]] + s[1..];
  }

  /** Under a strict total order there is only one way to arrange given elements. */
  lemma {:induction false} OneArrangement<T>(s: seq<T>, t: seq<T>, before: (T, T) -> bool)
    requires multiset(s) == multiset(t) && Ordered(s, before) && Ordered(t, before) && Total(s, before)
    ensures s == t
  {
    hide Ordered, Weak, Total;
    Rearranged(s, t);
    if s == [] {
      assert t == [];
    } else {
      SameFirst(s, t, before);
      Tail(s);
      Tail(t);
      TailOrdered(s, before);
      TailOrdered(t, before);
      TailTotal(s, before);
      OneArrangement(s[1..], t[1..], before);
      assert s == [s[0]] + s[1..] && t == [t[0]] + t[1..];
    }
  }

  lemma TailOrdered<T>(s: seq<T>, before: (T, T) -> bool)
    requires s != [] && Ordered(s, before)
    ensures Ordered(s[1..], before)
  {}

  lemma TailTotal<T>(s: seq<T>, before: (T, T) -> bool)
    requires s != [] && Total(s, before)
    ensures Total(s[1..], before)
  {
    assert forall x | x in s[1..] :: x in s;
  }

  /** Hence sorting forgets the order of its input. */
  lemma SortForgetsOrder<T>(s: seq<T>, t: seq<T>, before: (T, T) -> bool)
    requires multiset(s) == multiset(t) && Total(s, before)
    ensures Sort(s, before) == Sort(t, before)
    ensures Ordered(Sort(s, before), before)
  {
    hide Sort, Ordered, Weak, Total;
    TotalRearranged(s, t, before);
    SortCounts(s, before);
    SortCounts(t, before);
    SortOrdered(s, before);
    SortOrdered(t, before);
    TotalRearranged(s, Sort(s, before), before);
    OneArrangement(Sort(s, before), Sort(t, before), before);
  }

  lemma TotalRearranged<T>(s: seq<T>, t: seq<T>, before: (T, T) -> bool)
    requires multiset(s) == multiset(t) && Total(s, before)
    ensures Weak(s, before) && Weak(t, before) && Total(t, before)
  {
    Rearranged(s, t);
  }

  // ----- sorting and mapping

  function Map<T, U>(f: T -> U, s: seq<T>): seq<U> {
    seq(|s|, i requires 0 <= i < |s| => f(s[i]))
  }

  /** Mapping commutes with rearranging. */
  lemma {:induction false} MapCounts<T, U>(f: T -> U, s: seq<T>, t: seq<T>)
    requires multiset(s) == multiset(t)
    ensures multiset(Map(f, s)) == multiset(Map(f, t))
  {
    Rearranged(s, t);
    if s == [] {
      assert t == [];
    } else {
      assert s[0] in s;
      var i :| 0 <= i < |t| && t[i] == s[0];
      RemoveAt(t, i);
      Tail(s);
      MapCounts(f, s[1..], t[..i] + t[i + 1..]);
      assert Map(f, s[1..]) == Map(f, s)[1..];
      assert Map(f, t[..i] + t[i + 1..]) == Map(f, t)[..i] + Map(f, t)[i + 1..];
      OneMore(Map(f, s), Map(f, t), i);
    }
  }

  lemma OneMore<T>(s: seq<T>, t: seq<T>, i: nat)
    requires s != [] && i < |t| && t[i] == s[0] && multiset(s[1..]) == multiset(t[..i] + t[i + 1..])
    ensures multiset(s) == multiset(t)
  {
    RemoveAt(t, i);
    Tail(s);
    assert multiset(s) == multiset(s[1..]) + multiset{s[0]} by { assert s[0] in s; }
    assert multiset(t) == multiset(s[1..]) + multiset{t[i]} by { assert t[i] in t; }
  }

  // The two orders agree through f on the members of s.
  ghost predicate AgreeThrough<T, U>(s: seq<T>, f: T -> U, before: (T, T) -> bool, before': (U, U) -> bool) {
    forall x, y | x in s && y in s :: before(x, y) <==> before'(f(x), f(y))
  }

  lemma {:induction false} InsertMaps<T, U>(s: seq<T>, x: T, f: T -> U, before: (T, T) -> bool, before': (U, U) -> bool)
    requires forall y | y in s :: before(x, y) <==> before'(f(x), f(y))
    ensures Map(f, Insert(s, x, before)) == Insert(Map(f, s), f(x), before')
  {
    if s != [] {
      var init := s[..|s| - 1];
      assert Map(f, s)[..|s| - 1] == Map(f, init);
      InsertMaps(init, x, f, before, before');
    }
  }

  /** Sorting depends on the compared keys only. */
  lemma {:induction false} SortMaps<T, U>(s: seq<T>, f: T -> U, before: (T, T) -> bool, before': (U, U) -> bool)
    requires AgreeThrough(s, f, before, before')
    ensures Map(f, Sort(s, before)) == Sort(Map(f, s), before')
  {
    if s != [] {
      var init, last := s[..|s| - 1], s[|s| - 1];
      var sorted := Sort(init, before);
      assert AgreeThrough(init, f, before, before');
      SortMaps(init, f, before, before');
      forall y | y in sorted ensures before(last, y) <==> before'(f(last), f(y)) {
        SortMembers(init, before, y);
      }
      InsertMaps(sorted, last, f, before, before');
      assert Map(f, s)[..|s| - 1] == Map(f, init) && Map(f, s)[|s| - 1] == f(last);
    }
  }

  // ----- strings by code point

  function Below(a: string, b: string): bool {
    if b == "" then false
    else if a == "" then true
    else a[0] < b[0] || (a[0] == b[0] && Below(a[1..], b[1..]))
  }

  // The strings agree up to position k, where b goes on and a ends or has a smaller character.
  ghost predicate PartsAt(a: string, b: string, k: nat) {
    k <= |a| && k < |b| && a[..k] == b[..k] && (k == |a| || a[k] < b[k])
  }

  /** The order of strings is that of a dictionary, by code points. */
  lemma {:induction false} BelowMeans(a: string, b: string)
    ensures Below(a, b) <==> exists k: nat :: PartsAt(a, b, k)
  {
    if a == "" || b == "" {
      assert b != "" ==> PartsAt(a, b, 0);
    } else {
      BelowMeans(a[1..], b[1..]);
      if a[0] < b[0] {
        assert PartsAt(a, b, 0);
      } else if a[0] == b[0] {
        if k: nat :| PartsAt(a[1..], b[1..], k) {
          assert a[..k + 1] == [a[0]] + a[1..][..k] && b[..k + 1] == [b[0]] + b[1..][..k];
          assert PartsAt(a, b, k + 1);
        }
        if k: nat :| PartsAt(a, b, k) {
          assert a[1..][..k - 1] == a[..k][1..] && b[1..][..k - 1] == b[..k][1..];
          assert PartsAt(a[1..], b[1..], k - 1);
        }
      } else {
        forall k: nat | 0 < k <= |a| && k <= |b| ensures a[..k] != b[..k] {
          assert a[..k][0] != b[..k][0];
        }
      }
    }
  }

  lemma {:induction false} BelowOrder(a: string, b: string, c: string)
    ensures Below(a, b) ==> !Below(b, a)
    ensures Below(a, b) ==> Below(a, c) || Below(c, b)
    ensures a != b ==> Below(a, b) || Below(b, a)
  {
    if a != "" {
      BelowOrder(a[1..], if b == "" then b else b[1..], if c == "" then c else c[1..]);
      if b != "" && a != b && a[0] == b[0] {
        assert a == [a[0]] + a[1..] && b == [b[0]] + b[1..];
      }
    }
  }

  lemma BelowTotal(s: seq<string>)
    ensures Total(s, Below)
  {
    forall x, y, z: string
      ensures (Below(x, y) ==> !Below(y, x)) && (Below(x, y) ==> Below(x, z) || Below(z, y))
              && (x != y ==> Below(x, y) || Below(y, x))
    {
      BelowOrder(x, y, z);
    }
  }
}

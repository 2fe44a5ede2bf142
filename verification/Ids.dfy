/** Resource names, their order, and the "k smallest of a set" relation that every
    selection and eviction in the controllers comes down to. */
module Ids {
  type Id = string

  datatype Option<+T> = None | Some(value: T)

  /** Go's `<` on strings. Byte order and code-point order agree on UTF-8. */
  predicate Less(a: Id, b: Id)
    decreases |a|
  {
    b != "" && (a == "" || a[0] < b[0] || (a[0] == b[0] && Less(a[1..], b[1..])))
  }

  /** One name comes before another when, after what they share, it ends or goes on with a smaller character. */
  lemma {:induction false} LessIff(a: Id, b: Id)
    ensures Less(a, b) <==>
      exists n :: 0 <= n <= |a| && n < |b| && a[..n] == b[..n] && (n == |a| || a[n] < b[n])
    decreases |a|
  {
    if a != "" && b != "" && a[0] == b[0] {
      LessIff(a[1..], b[1..]);
      if n :| 0 <= n <= |a[1..]| && n < |b[1..]| && a[1..][..n] == b[1..][..n] && (n == |a[1..]| || a[1..][n] < b[1..][n]) {
        assert a[..n + 1] == [a[0]] + a[1..][..n] && b[..n + 1] == [b[0]] + b[1..][..n];
      }
      if n :| 0 < n <= |a| && n < |b| && a[..n] == b[..n] && (n == |a| || a[n] < b[n]) {
        assert a[1..][..n - 1] == a[..n][1..] && b[1..][..n - 1] == b[..n][1..];
      }
    } else if b != "" && (a == "" || a[0] < b[0]) {
      assert a[..0] == b[..0];
    } else {
      assert forall n :: 0 < n <= |a| && n < |b| ==> a[..n][0] == a[0] && b[..n][0] == b[0];
    }
  }

  /** A strict total order, as `sort` demands of its comparison. */
  ghost predicate StrictOrder(less: (Id, Id) -> bool) {
    && (forall a :: !less(a, a))
    && (forall a, b, c :: less(a, b) && less(b, c) ==> less(a, c))
    && (forall a, b :: a == b || less(a, b) || less(b, a))
  }

  lemma {:induction false} LessIrreflexive(a: Id)
    ensures !Less(a, a)
  {
    if a != "" { LessIrreflexive(a[1..]); }
  }

  lemma {:induction false} LessTransitive(a: Id, b: Id, c: Id)
    requires Less(a, b) && Less(b, c)
    ensures Less(a, c)
    decreases |a|
  {
    if a != "" && a[0] == b[0] == c[0] { LessTransitive(a[1..], b[1..], c[1..]); }
  }

  lemma {:induction false} LessTotal(a: Id, b: Id)
    ensures a == b || Less(a, b) || Less(b, a)
    decreases |a|
  {
    if a != "" && b != "" && a[0] == b[0] {
      LessTotal(a[1..], b[1..]);
      if a[1..] == b[1..] { assert a == [a[0]] + a[1..] && b == [b[0]] + b[1..]; }
    }
  }

  lemma LessIsStrictOrder()
    ensures StrictOrder(Less)
  {
    forall a ensures !Less(a, a) { LessIrreflexive(a); }
    forall a, b, c | Less(a, b) && Less(b, c) ensures Less(a, c) { LessTransitive(a, b, c); }
    forall a, b ensures a == b || Less(a, b) || Less(b, a) { LessTotal(a, b); }
  }

  // ── Sequences of distinct names ──────────────────────────────────────────────

  function Elems<T(==)>(s: seq<T>): set<T> {
    if s == [] then {} else Elems(s[..|s| - 1]) + {s[|s| - 1]}
  }

  /** No name occurs twice. */
  ghost predicate Distinct<T>(s: seq<T>) {
    s == [] || (Distinct(s[..|s| - 1]) && s[|s| - 1] !in Elems(s[..|s| - 1]))
  }

  lemma {:induction false} InElems<T>(s: seq<T>)
    ensures forall x :: x in Elems(s) <==> x in s
  {
    if s != [] {
      InElems(s[..|s| - 1]);
      assert s == s[..|s| - 1] + [s[|s| - 1]];
    }
  }

  lemma Snoc<T>(s: seq<T>, x: T)
    ensures Elems(s + [x]) == Elems(s) + {x}
    ensures Distinct(s + [x]) <==> Distinct(s) && x !in Elems(s)
  {
  }

  lemma {:induction false} DistinctAppend<T>(a: seq<T>, b: seq<T>)
    requires Distinct(a) && Distinct(b) && Elems(a) !! Elems(b)
    ensures Distinct(a + b) && Elems(a + b) == Elems(a) + Elems(b)
  {
    if b == [] {
      assert a + b == a;
    } else {
      var front, last := b[..|b| - 1], b[|b| - 1];
      DistinctAppend(a, front);
      assert a + b == (a + front) + [last];
      Snoc(a + front, last);
    }
  }

  lemma {:induction false} DistinctMeans<T>(s: seq<T>)
    ensures Distinct(s) <==> forall i, j :: 0 <= i < j < |s| ==> s[i] != s[j]
  {
    if s != [] {
      DistinctMeans(s[..|s| - 1]);
      InElems(s[..|s| - 1]);
    }
  }

  lemma {:induction false} DistinctSize<T>(s: seq<T>)
    requires Distinct(s)
    ensures |Elems(s)| == |s|
  {
    if s != [] { DistinctSize(s[..|s| - 1]); }
  }

  /** What the next element adds to those before it. */
  lemma {:induction false} ElemsStep<T>(s: seq<T>, i: nat)
    requires i < |s|
    ensures Elems(s[..i + 1]) == Elems(s[..i]) + {s[i]} && s[i] in Elems(s)
    ensures Distinct(s) ==> Distinct(s[..i + 1]) && s[i] !in Elems(s[..i])
    decreases |s| - i
  {
    assert s[..i + 1][..i] == s[..i];
    InElems(s);
    if i + 1 < |s| {
      ElemsStep(s, i + 1);
      assert s[..i + 2][..i + 1] == s[..i + 1];
    } else {
      assert s[..i + 1] == s;
    }
  }

  /** What is left after a prefix of a duplicate-free sequence. */
  lemma {:induction false} Rest<T>(s: seq<T>, n: nat)
    requires n <= |s| && Distinct(s)
    ensures Distinct(s[n..]) && Elems(s[n..]) == Elems(s) - Elems(s[..n])
  {
    if n == |s| {
      assert s[..n] == s;
    } else {
      var front, last := s[..|s| - 1], s[|s| - 1];
      Rest(front, n);
      PrefixWithin(front, n);
      assert front[..n] == s[..n] && s[n..] == front[n..] + [last];
      Snoc(front[n..], last);
    }
  }

  lemma {:induction false} PrefixWithin<T>(s: seq<T>, n: nat)
    requires n <= |s|
    ensures Elems(s[..n]) <= Elems(s)
    decreases |s| - n
  {
    if n == |s| {
      assert s[..n] == s;
    } else {
      ElemsStep(s, n);
      PrefixWithin(s, n + 1);
    }
  }

  // ── The k smallest ───────────────────────────────────────────────────────────

  ghost predicate Below(less: (Id, Id) -> bool, s: set<Id>, y: Id) {
    forall x :: x in s ==> less(x, y)
  }

  /** `t` is the set of the `k` smallest members of `s`. */
  ghost predicate Least(less: (Id, Id) -> bool, t: set<Id>, s: set<Id>, k: int) {
    t <= s && |t| == k && forall y :: y in s && y !in t ==> Below(less, t, y)
  }

  lemma SubsetSize<T>(a: set<T>, b: set<T>)
    requires a <= b
    ensures |a| <= |b|
    ensures |a| == |b| ==> a == b
  {
    assert b == a + (b - a);
  }

  lemma DifferenceSize<T>(a: set<T>, b: set<T>)
    ensures |a - b| >= |a| - |b|
  {
  }

  lemma LeastUnique(less: (Id, Id) -> bool, t: set<Id>, u: set<Id>, s: set<Id>, k: int)
    requires StrictOrder(less) && Least(less, t, s, k) && Least(less, u, s, k)
    ensures t == u
  {
    if t != u {
      var x := MemberOutside(t, u);
      var y := MemberOutside(u, t);
      assert false;
    }
  }

  lemma MemberOutside<T>(a: set<T>, b: set<T>) returns (x: T)
    requires a != b && |a| == |b|
    ensures x in a && x !in b
  {
    if a <= b { SubsetSize(a, b); }
    x :| x in a && x !in b;
  }

  // ── Sorting ──────────────────────────────────────────────────────────────────

  ghost predicate Sorted(less: (Id, Id) -> bool, s: seq<Id>) {
    s == [] || (Sorted(less, s[..|s| - 1]) && Below(less, Elems(s[..|s| - 1]), s[|s| - 1]))
  }

  function Insert(less: (Id, Id) -> bool, s: seq<Id>, x: Id): (r: seq<Id>)
    requires StrictOrder(less) && Sorted(less, s) && x !in Elems(s)
    ensures Sorted(less, r) && Elems(r) == Elems(s) + {x} && |r| == |s| + 1
  {
    if s == [] then
      Snoc(s, x);
      [x]
    else
      var front, last := s[..|s| - 1], s[|s| - 1];
      if less(last, x) then
        Snoc(s, x);
        SortedSnoc(less, s, x);
        s + [x]
      else
        var t := Insert(less, front, x);
        Snoc(t, last);
        SortedSnoc(less, t, last);
        t + [last]
  }

  lemma SortedSnoc(less: (Id, Id) -> bool, s: seq<Id>, x: Id)
    requires Sorted(less, s) && Below(less, Elems(s), x)
    ensures Sorted(less, s + [x])
  {
  }

  /** The library sort, on the distinct names a listing yields. */
  function Sort(less: (Id, Id) -> bool, s: seq<Id>): (r: seq<Id>)
    requires StrictOrder(less) && Distinct(s)
    ensures Sorted(less, r) && Elems(r) == Elems(s) && |r| == |s|
  {
    if s == [] then [] else Insert(less, Sort(less, s[..|s| - 1]), s[|s| - 1])
  }

  lemma {:induction false} SortedIsDistinct(less: (Id, Id) -> bool, s: seq<Id>)
    requires StrictOrder(less) && Sorted(less, s)
    ensures Distinct(s)
  {
    if s != [] { SortedIsDistinct(less, s[..|s| - 1]); }
  }

  /** A prefix of a sorted sequence holds its smallest names. */
  lemma {:induction false} PrefixIsLeast(less: (Id, Id) -> bool, s: seq<Id>, k: nat)
    requires StrictOrder(less) && Sorted(less, s) && k <= |s|
    ensures Least(less, Elems(s[..k]), Elems(s), k) && Sorted(less, s[..k]) && Distinct(s[..k])
  {
    if k == |s| {
      assert s[..k] == s;
      SortedIsDistinct(less, s);
      DistinctSize(s);
    } else {
      var front := s[..|s| - 1];
      PrefixIsLeast(less, front, k);
      assert front[..k] == s[..k];
    }
  }

  function SortNames(s: seq<Id>): (r: seq<Id>)
    requires Distinct(s)
    ensures Sorted(Less, r) && Elems(r) == Elems(s) && |r| == |s|
  {
    LessIsStrictOrder();
    Sort(Less, s)
  }

  lemma FirstNamesAreLeast(s: seq<Id>, k: nat)
    requires Sorted(Less, s) && k <= |s|
    ensures Least(Less, Elems(s[..k]), Elems(s), k) && Sorted(Less, s[..k]) && Distinct(s[..k])
  {
    LessIsStrictOrder();
    PrefixIsLeast(Less, s, k);
  }
}

/** The byte-wise order of texts and what the program sorts by it. */
module Sorting {
  import opened Keys

  /** -1, 0 or 1: the first difference decides, a beginning comes first. */
  function TextOrder(a: Text, b: Text): int {
    if a == [] then (if b == [] then 0 else -1)
    else if b == [] then 1
    else if a[0] != b[0] then (if a[0] < b[0] then -1 else 1)
    else TextOrder(a[1..], b[1..])
  }

  lemma {:induction false} TextTotal(a: Text, b: Text, c: Text)
    ensures TextOrder(a, b) == -TextOrder(b, a)
    ensures TextOrder(a, b) == 0 <==> a == b
    ensures TextOrder(a, b) <= 0 && TextOrder(b, c) <= 0 ==> TextOrder(a, c) <= 0
  {
    if a != [] && b != [] {
      TextTotal(a[1..], b[1..], if c == [] then [] else c[1..]);
      assert a == [a[0]] + a[1..] && b == [b[0]] + b[1..];
    }
  }

  predicate Before(a: Text, b: Text) {
    TextOrder(a, b) < 0
  }

  lemma BeforeTotal(a: Text, b: Text, c: Text)
    ensures a != b ==> Before(a, b) != Before(b, a)
    ensures !Before(a, a)
    ensures Before(a, b) && Before(b, c) ==> Before(a, c)
  {
    TextTotal(a, b, c);
    TextTotal(a, a, a);
    TextTotal(b, c, a);
    TextTotal(c, a, b);
    TextTotal(a, c, b);
  }

  lemma EmptyFirst(a: Text)
    ensures !Before(a, [])
  {
  }

  /** Where a walk in order begins. */
  method Least(s: set<Text>) returns (least: Text)
    requires s != {}
    ensures least in s && forall t <- s | t != least :: Before(least, t)
  {
    hide Before;
    least :| least in s;
    var rest := s - {least};
    while rest != {}
      invariant rest <= s && least in s && least !in rest
      invariant forall t <- s | t != least && t !in rest :: Before(least, t)
      decreases rest
    {
      var t :| t in rest;
      forall x ensures (t != x ==> Before(t, x) != Before(x, t)) && (Before(t, least) && Before(least, x) ==> Before(t, x)) {
        BeforeTotal(t, least, x);
        BeforeTotal(t, x, least);
      }
      BeforeTotal(least, t, t);
      rest := rest - {t};
      if TextOrder(t, least) < 0 {
        IsBefore(t, least);
        least := t;
      } else {
        IsBefore(t, least);
      }
    }
  }

  lemma IsBefore(a: Text, b: Text)
    ensures Before(a, b) <==> TextOrder(a, b) < 0
  {
  }

  /** What a walk in order has left is behind what it has passed. */
  ghost predicate Walked(all: set<Text>, rest: set<Text>) {
    rest <= all && forall s, t | s in all - rest && t in rest :: Before(s, t)
  }

  /** One more step of such a walk. */
  method Next(ghost all: set<Text>, rest: set<Text>) returns (s: Text)
    requires Walked(all, rest) && rest != {}
    ensures s in rest && Walked(all, rest - {s})
    ensures forall t <- all - rest :: Before(t, s)
  {
    hide Before;
    s := Least(rest);
  }

  /** Equal or before. */
  predicate AtMost(a: Text, b: Text) {
    a == b || Before(a, b)
  }

  // ---- sorting ----

  /** Any two can be compared, and comparisons add up; equals may differ. */
  ghost predicate Linear<T(!new)>(le: (T, T) -> bool) {
    && (forall a, b :: le(a, b) || le(b, a))
    && (forall a, b, c :: le(a, b) && le(b, c) ==> le(a, c))
  }

  ghost predicate Sorted<T>(xs: seq<T>, le: (T, T) -> bool) {
    forall i, j | 0 <= i < j < |xs| :: le(xs[i], xs[j])
  }

  /** One element finds its place in a sorted list. */
  method Insert<T(!new)>(xs: seq<T>, x: T, le: (T, T) -> bool) returns (ys: seq<T>)
    requires Linear(le) && Sorted(xs, le)
    ensures Sorted(ys, le) && multiset(ys) == multiset(xs) + multiset{x}
  {
    hide Linear, Sorted;
    var i := |xs|;
    while i > 0 && !le(xs[i - 1], x)
      invariant 0 <= i <= |xs|
      invariant forall j | i <= j < |xs| :: le(x, xs[j])
    {
      Compared(le, xs[i - 1], x, x);
      i := i - 1;
    }
    AllBelow(xs, x, i, le);
    InPlace(xs, x, i, le);
    ys := xs[..i] + [x] + xs[i..];
  }

  lemma AllBelow<T(!new)>(xs: seq<T>, x: T, i: nat, le: (T, T) -> bool)
    requires Linear(le) && Sorted(xs, le) && i <= |xs|
    requires i > 0 ==> le(xs[i - 1], x)
    ensures forall j | 0 <= j < i :: le(xs[j], x)
  {
    hide Linear;
    forall j | 0 <= j < i - 1 ensures le(xs[j], x) {
      Compared(le, xs[j], xs[i - 1], x);
    }
  }

  lemma InPlace<T>(xs: seq<T>, x: T, i: nat, le: (T, T) -> bool)
    requires Sorted(xs, le) && i <= |xs|
    requires forall j | 0 <= j < i :: le(xs[j], x)
    requires forall j | i <= j < |xs| :: le(x, xs[j])
    ensures Sorted(xs[..i] + [x] + xs[i..], le)
    ensures multiset(xs[..i] + [x] + xs[i..]) == multiset(xs) + multiset{x}
  {
    assert xs == xs[..i] + xs[i..];
  }

  lemma Compared<T(!new)>(le: (T, T) -> bool, a: T, b: T, c: T)
    requires Linear(le)
    ensures le(a, b) || le(b, a)
    ensures le(a, b) && le(b, c) ==> le(a, c)
  {
  }

  method SortBy<T(!new)>(xs: seq<T>, le: (T, T) -> bool) returns (ys: seq<T>)
    requires Linear(le)
    ensures Sorted(ys, le) && multiset(ys) == multiset(xs)
  {
    hide Linear, Sorted;
    ys := [];
    NothingSorted(le);
    for i := 0 to |xs|
      invariant Sorted(ys, le) && multiset(ys) == multiset(xs[..i])
    {
      ys := Insert(ys, xs[i], le);
      assert xs[..i + 1] == xs[..i] + [xs[i]];
    }
    assert xs[..|xs|] == xs;
  }

  lemma NothingSorted<T>(le: (T, T) -> bool)
    ensures Sorted([], le)
  {
  }

  /** Picking out elements in their order keeps the order. */
  lemma PickedSorted<T(!new)>(xs: seq<T>, picked: seq<T>, i: nat, le: (T, T) -> bool)
    requires Sorted(xs, le) && Sorted(picked, le) && i < |xs| && forall x <- picked :: x in xs[..i]
    ensures Sorted(picked + [xs[i]], le)
  {
    forall j | 0 <= j < |picked| ensures le(picked[j], xs[i]) {
      assert picked[j] in xs[..i];
    }
  }

  lemma SameMembers<T>(xs: seq<T>, ys: seq<T>)
    requires multiset(ys) == multiset(xs)
    ensures forall x :: x in ys <==> x in xs
    ensures |ys| == |xs|
  {
    assert forall x :: x in multiset(xs) <==> x in xs;
    assert |multiset(xs)| == |xs| && |multiset(ys)| == |ys|;
  }

  /** Sorting keeps what is listed once listed once. */
  lemma DistinctStays<T, U>(xs: seq<T>, ys: seq<T>, f: T -> U)
    requires multiset(ys) == multiset(xs)
    requires forall i, j | 0 <= i < j < |xs| :: f(xs[i]) != f(xs[j])
    ensures forall i, j | 0 <= i < j < |ys| :: f(ys[i]) != f(ys[j])
  {
    SameMembers(xs, ys);
    forall i, j | 0 <= i < j < |ys| ensures f(ys[i]) != f(ys[j]) {
      assert ys[i] in xs && ys[j] in xs;
      var a :| 0 <= a < |xs| && xs[a] == ys[i];
      var b :| 0 <= b < |xs| && xs[b] == ys[j];
      if ys[i] == ys[j] {
        ListedTwice(ys, i, j);
        OnceInDistinct(xs, ys[i], f);
      }
    }
  }

  lemma ListedTwice<T>(ys: seq<T>, i: nat, j: nat)
    requires i < j < |ys| && ys[i] == ys[j]
    ensures multiset(ys)[ys[i]] >= 2
  {
    assert ys == ys[..j] + ys[j..];
    assert ys[i] in ys[..j] && ys[i] in ys[j..];
  }

  lemma {:induction false} OnceInDistinct<T, U>(xs: seq<T>, x: T, f: T -> U)
    requires forall i, j | 0 <= i < j < |xs| :: f(xs[i]) != f(xs[j])
    ensures multiset(xs)[x] <= 1
  {
    if xs != [] {
      var n := |xs| - 1;
      OnceInDistinct(xs[..n], x, f);
      assert xs == xs[..n] + [xs[n]];
      if xs[n] == x {
        assert x !in xs[..n];
        assert multiset(xs[..n])[x] == 0;
      }
    }
  }

  // ---- sizes ----

  lemma SubsetSize<T>(a: set<T>, b: set<T>)
    requires a <= b
    ensures |a| <= |b| && (a != b ==> |a| < |b|)
  {
    assert b == a + (b - a);
    if a != b {
      var x :| x in b - a;
      assert b - a != {};
    }
  }
}

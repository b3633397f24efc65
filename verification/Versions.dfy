/** Version precedence: the order the program computes, and the order that
    section 11 of Semantic Versioning 2.0.0 asks for. */
module Versions {
  import opened Keys
  import opened Sorting

  datatype Version = Version(major: nat, minor: nat, patch: nat, pre: seq<Text>)

  /** Only digits; the empty text counts. */
  predicate Numeric(s: Text) {
    forall i | 0 <= i < |s| :: '0' <= s[i] <= '9'
  }

  /** What every parsed version satisfies: no empty pre-release identifier and no
      number with a leading zero. */
  predicate Parsed(v: Version) {
    forall p <- v.pre :: ProperIdent(p)
  }

  predicate ProperIdent(p: Text) {
    p != [] && (Numeric(p) && |p| > 1 ==> p[0] != '0')
  }

  // ---- the computed order: -1, 0 or 1 ----

  function NatOrder(a: nat, b: nat): int {
    if a < b then -1 else if a > b then 1 else 0
  }

  /** Numbers before words; longer numbers after shorter ones. */
  function IdentOrder(a: Text, b: Text): int {
    if Numeric(a) && Numeric(b) && |a| != |b| then NatOrder(|a|, |b|)
    else if Numeric(a) && !Numeric(b) then -1
    else if !Numeric(a) && Numeric(b) then 1
    else TextOrder(a, b)
  }

  function PreOrder(p: seq<Text>, q: seq<Text>): int {
    if p == [] then (if q == [] then 0 else -1)
    else if q == [] then 1
    else if IdentOrder(p[0], q[0]) != 0 then IdentOrder(p[0], q[0])
    else PreOrder(p[1..], q[1..])
  }

  function Order(v: Version, w: Version): int {
    if v.major != w.major then NatOrder(v.major, w.major)
    else if v.minor != w.minor then NatOrder(v.minor, w.minor)
    else if v.patch != w.patch then NatOrder(v.patch, w.patch)
    else if v.pre == [] && w.pre != [] then 1
    else if v.pre != [] && w.pre == [] then -1
    else PreOrder(v.pre, w.pre)
  }

  method CompareText(a: Text, b: Text) returns (r: int)
    ensures r == TextOrder(a, b)
  {
    var i := 0;
    while i < |a| && i < |b| && a[i] == b[i]
      invariant i <= |a| && i <= |b| && TextOrder(a, b) == TextOrder(a[i..], b[i..])
    {
      i := i + 1;
    }
    if i == |a| {
      return if i == |b| then 0 else -1;
    }
    return if i == |b| then 1 else if a[i] < b[i] then -1 else 1;
  }

  method IsNumeric(s: Text) returns (yes: bool)
    ensures yes <==> Numeric(s)
  {
    for i := 0 to |s|
      invariant forall k | 0 <= k < i :: '0' <= s[k] <= '9'
    {
      if s[i] < '0' || s[i] > '9' {
        return false;
      }
    }
    return true;
  }

  method Compare(v: Version, other: Version) returns (r: int)
    ensures r == Order(v, other)
  {
    var pairs := [(v.major, other.major), (v.minor, other.minor), (v.patch, other.patch)];
    for i := 0 to 3
      invariant forall k | 0 <= k < i :: pairs[k].0 == pairs[k].1
    {
      assert (i > 0 ==> pairs[0].0 == pairs[0].1) && (i > 1 ==> pairs[1].0 == pairs[1].1);
      if pairs[i].0 < pairs[i].1 {
        return -1;
      }
      if pairs[i].0 > pairs[i].1 {
        return 1;
      }
    }
    assert pairs[0].0 == pairs[0].1 && pairs[1].0 == pairs[1].1 && pairs[2].0 == pairs[2].1;
    if |v.pre| == 0 && |other.pre| > 0 {
      return 1;
    }
    if |v.pre| > 0 && |other.pre| == 0 {
      return -1;
    }
    r := ComparePre(v.pre, other.pre);
  }

  method ComparePre(p: seq<Text>, q: seq<Text>) returns (r: int)
    ensures r == PreOrder(p, q)
  {
    var i := 0;
    while i < |p| && i < |q|
      invariant i <= |p| && i <= |q| && PreOrder(p, q) == PreOrder(p[i..], q[i..])
    {
      var a, b := p[i], q[i];
      assert p[i..][1..] == p[i + 1..] && q[i..][1..] == q[i + 1..];
      var an := IsNumeric(a);
      var bn := IsNumeric(b);
      if an && bn {
        if |a| != |b| {
          return if |a| < |b| then -1 else 1;
        }
      } else if an {
        return -1;
      } else if bn {
        return 1;
      }
      var o := CompareText(a, b);
      if o != 0 {
        return o;
      }
      i := i + 1;
    }
    return NatOrder(|p|, |q|);
  }

  // ---- a total order on all versions ----

  lemma IdentTotal(a: Text, b: Text, c: Text)
    ensures IdentOrder(a, b) == -IdentOrder(b, a)
    ensures IdentOrder(a, b) == 0 <==> a == b
    ensures IdentOrder(a, b) <= 0 && IdentOrder(b, c) <= 0 ==> IdentOrder(a, c) <= 0
  {
    TextTotal(a, b, c);
  }

  lemma {:induction false} PreTotal(p: seq<Text>, q: seq<Text>, r: seq<Text>)
    ensures PreOrder(p, q) == -PreOrder(q, p)
    ensures PreOrder(p, q) == 0 <==> p == q
    ensures PreOrder(p, q) <= 0 && PreOrder(q, r) <= 0 ==> PreOrder(p, r) <= 0
  {
    hide IdentOrder;
    if p != [] && q != [] {
      IdentTotal(p[0], q[0], if r == [] then [] else r[0]);
      IdentTotal(q[0], if r == [] then [] else r[0], p[0]);
      IdentTotal(p[0], if r == [] then [] else r[0], q[0]);
      PreTotal(p[1..], q[1..], if r == [] then [] else r[1..]);
      assert p == [p[0]] + p[1..] && q == [q[0]] + q[1..];
    }
  }

  /** Antisymmetric, zero only between equal versions, transitive. */
  lemma CompareTotal(u: Version, v: Version, w: Version)
    ensures Order(u, v) == -Order(v, u)
    ensures Order(u, v) == 0 <==> u == v
    ensures Order(u, v) <= 0 && Order(v, w) <= 0 ==> Order(u, w) <= 0
  {
    PreTotal(u.pre, v.pre, w.pre);
  }

  // ---- what section 11 asks for ----

  function Digit(c: Byte): int {
    c as int - '0' as int
  }

  /** The number a text of digits stands for. */
  function Value(s: Text): int {
    if s == [] then 0 else Value(s[..|s| - 1]) * 10 + Digit(s[|s| - 1])
  }

  /** ASCII sort order: the first difference decides, a beginning is lower. */
  ghost predicate TextLower(a: Text, b: Text) {
    exists k: nat :: TextDiffers(a, b, k)
  }

  ghost predicate TextDiffers(a: Text, b: Text, k: nat) {
    && k <= |a| && k < |b| && (forall i | 0 <= i < k :: a[i] == b[i])
    && (k < |a| ==> a[k] < b[k])
  }

  /** Numbers compare numerically, words in ASCII order, numbers below words. */
  ghost predicate IdentLower(a: Text, b: Text) {
    if Numeric(a) && Numeric(b) then Value(a) < Value(b)
    else if Numeric(a) != Numeric(b) then Numeric(a)
    else TextLower(a, b)
  }

  ghost predicate IdentSame(a: Text, b: Text) {
    !IdentLower(a, b) && !IdentLower(b, a)
  }

  /** The first difference decides; of equal beginnings the longer is higher. */
  ghost predicate PreLower(p: seq<Text>, q: seq<Text>) {
    exists k: nat :: PreDiffers(p, q, k)
  }

  ghost predicate PreDiffers(p: seq<Text>, q: seq<Text>, k: nat) {
    && k <= |p| && k < |q| && (forall i | 0 <= i < k :: IdentSame(p[i], q[i]))
    && (k < |p| ==> IdentLower(p[k], q[k]))
  }

  /** A pre-release comes before its release. */
  ghost predicate Lower(v: Version, w: Version) {
    if v.major != w.major then v.major < w.major
    else if v.minor != w.minor then v.minor < w.minor
    else if v.patch != w.patch then v.patch < w.patch
    else if v.pre == [] || w.pre == [] then v.pre != [] && w.pre == []
    else PreLower(v.pre, w.pre)
  }

  function Pow10(n: nat): nat {
    if n == 0 then 1 else 10 * Pow10(n - 1)
  }

  lemma {:induction false} ValueBounds(s: Text)
    requires Numeric(s)
    ensures 0 <= Value(s) < Pow10(|s|)
    ensures s != [] && s[0] != '0' ==> Value(s) >= Pow10(|s| - 1)
  {
    if s != [] {
      var t := s[..|s| - 1];
      assert '0' <= s[|s| - 1] <= '9';
      ValueBounds(t);
      if |s| > 1 {
        assert t[0] == s[0];
      } else {
        assert t == [];
      }
    }
  }

  lemma {:induction false} PowGrows(a: nat, b: nat)
    requires a <= b
    ensures Pow10(a) <= Pow10(b)
  {
    if a < b {
      PowGrows(a, b - 1);
    }
  }

  lemma TextLowerStep(a: Text, b: Text, c: Byte, d: Byte)
    requires |a| == |b|
    ensures TextOrder(a + [c], b + [d]) == if TextOrder(a, b) != 0 then TextOrder(a, b) else TextOrder([c], [d])
  {
    if a != [] {
      assert (a + [c])[1..] == a[1..] + [c] && (b + [d])[1..] == b[1..] + [d];
      TextLowerStep(a[1..], b[1..], c, d);
    } else {
      assert a + [c] == [c] && b + [d] == [d];
    }
  }

  /** Texts of digits of one length are ordered like their values. */
  lemma {:induction false} SameLengthByValue(a: Text, b: Text)
    requires Numeric(a) && Numeric(b) && |a| == |b|
    ensures TextOrder(a, b) < 0 <==> Value(a) < Value(b)
    ensures TextOrder(a, b) == 0 <==> Value(a) == Value(b)
  {
    if a != [] {
      var s, t, c, d := a[..|a| - 1], b[..|b| - 1], a[|a| - 1], b[|b| - 1];
      assert a == s + [c] && b == t + [d] && '0' <= c <= '9' && '0' <= d <= '9';
      SameLengthByValue(s, t);
      TextLowerStep(s, t, c, d);
      TextTotal(s, t, s);
    }
  }

  /** Comparing by length and then by text compares the numbers themselves. */
  lemma NumbersByValue(a: Text, b: Text)
    requires Numeric(a) && Numeric(b) && ProperIdent(a) && ProperIdent(b)
    ensures IdentOrder(a, b) < 0 <==> Value(a) < Value(b)
    ensures IdentOrder(a, b) == 0 <==> Value(a) == Value(b)
  {
    if |a| == |b| {
      SameLengthByValue(a, b);
    } else {
      ShorterIsSmaller(if |a| < |b| then a else b, if |a| < |b| then b else a);
    }
  }

  lemma ShorterIsSmaller(a: Text, b: Text)
    requires Numeric(a) && Numeric(b) && ProperIdent(b) && 0 < |a| < |b|
    ensures Value(a) < Value(b)
  {
    ValueBounds(a);
    ValueBounds(b);
    PowGrows(|a|, |b| - 1);
  }

  /** That fails for numbers with leading zeros, which parsing refuses. */
  lemma LeadingZeroMisorders()
    ensures var a: Text, b: Text := ['0', '1'], ['2'];
      Numeric(a) && Numeric(b) && Value(a) < Value(b) && IdentOrder(a, b) > 0
  {
    var a: Text := ['0', '1'];
    assert a[..1] == ['0'] && a[..1][..0] == [];
    assert Value(a[..1]) == 0;
  }

  lemma {:induction false} TextOrderIsAscii(a: Text, b: Text)
    ensures TextOrder(a, b) < 0 <==> TextLower(a, b)
  {
    if a != [] && b != [] && a[0] == b[0] {
      TextOrderIsAscii(a[1..], b[1..]);
      if TextLower(a[1..], b[1..]) {
        var k: nat :| TextDiffers(a[1..], b[1..], k);
        assert TextDiffers(a, b, k + 1);
      }
      if TextLower(a, b) {
        var k: nat :| TextDiffers(a, b, k);
        assert TextDiffers(a[1..], b[1..], k - 1);
      }
    } else if TextOrder(a, b) < 0 {
      assert TextDiffers(a, b, 0);
    }
  }

  lemma IdentOrderIsLower(a: Text, b: Text)
    requires ProperIdent(a) && ProperIdent(b)
    ensures IdentOrder(a, b) < 0 <==> IdentLower(a, b)
    ensures IdentOrder(a, b) == 0 <==> IdentSame(a, b)
  {
    IdentTotal(a, b, a);
    TextOrderIsAscii(a, b);
    TextOrderIsAscii(b, a);
    if Numeric(a) && Numeric(b) {
      NumbersByValue(a, b);
      NumbersByValue(b, a);
    }
  }

  lemma {:induction false} PreOrderIsLower(p: seq<Text>, q: seq<Text>)
    requires (forall x <- p :: ProperIdent(x)) && (forall x <- q :: ProperIdent(x))
    ensures PreOrder(p, q) < 0 <==> PreLower(p, q)
  {
    hide IdentOrder, IdentLower, IdentSame, ProperIdent;
    if p != [] && q != [] {
      IdentOrderIsLower(p[0], q[0]);
      SameIsNotLower(p[0], q[0]);
      if IdentOrder(p[0], q[0]) == 0 {
        PreOrderIsLower(p[1..], q[1..]);
        PreLowerTail(p, q);
      } else if IdentOrder(p[0], q[0]) < 0 {
        assert PreDiffers(p, q, 0);
      }
    } else if q != [] {
      assert PreDiffers(p, q, 0);
    }
  }

  lemma SameIsNotLower(a: Text, b: Text)
    ensures IdentSame(a, b) <==> !IdentLower(a, b) && !IdentLower(b, a)
  {
  }

  lemma PreLowerTail(p: seq<Text>, q: seq<Text>)
    requires p != [] && q != [] && IdentSame(p[0], q[0])
    ensures PreLower(p, q) <==> PreLower(p[1..], q[1..])
  {
    SameIsNotLower(p[0], q[0]);
    hide IdentLower, IdentSame;
    if PreLower(p[1..], q[1..]) {
      var k: nat :| PreDiffers(p[1..], q[1..], k);
      forall i | 0 <= i < k + 1 ensures IdentSame(p[i], q[i]) {
        if i > 0 {
          assert IdentSame(p[1..][i - 1], q[1..][i - 1]);
        }
      }
      assert PreDiffers(p, q, k + 1);
    }
    if PreLower(p, q) {
      var k: nat :| PreDiffers(p, q, k);
      assert PreDiffers(p[1..], q[1..], k - 1);
    }
  }

  /** On parsed versions the computed order is the order of section 11. */
  lemma CompareIsSemVer(v: Version, w: Version)
    requires Parsed(v) && Parsed(w)
    ensures Order(v, w) < 0 <==> Lower(v, w)
    ensures Order(v, w) > 0 <==> Lower(w, v)
    ensures Order(v, w) == 0 <==> v == w
  {
    hide IdentOrder, PreLower, ProperIdent;
    CompareTotal(v, w, v);
    PreOrderIsLower(v.pre, w.pre);
    PreOrderIsLower(w.pre, v.pre);
  }
}

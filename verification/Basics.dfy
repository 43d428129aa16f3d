/** Facts about sequences and products that several modules use. */
module Basics {

  // ---------------------------------------------------------------- reversal

  function Rev<T>(s: seq<T>): (r: seq<T>)
    ensures |r| == |s|
  {
    if s == [] then [] else Rev(s[1..]) + [s[0]]
  }

  lemma {:induction false} RevConcat<T>(a: seq<T>, b: seq<T>)
    ensures Rev(a + b) == Rev(b) + Rev(a)
  {
    if a == [] {
      assert a + b == b && Rev(b) + Rev(a) == Rev(b);
    } else {
      assert (a + b)[1..] == a[1..] + b;
      RevConcat(a[1..], b);
    }
  }

  lemma {:induction false} RevRev<T>(s: seq<T>)
    ensures Rev(Rev(s)) == s
  {
    if s != [] {
      RevConcat(Rev(s[1..]), [s[0]]);
      RevRev(s[1..]);
      assert Rev([s[0]]) == [s[0]];
    }
  }

  lemma {:induction false} RevAt<T>(s: seq<T>, i: nat)
    requires i < |s|
    ensures Rev(s)[i] == s[|s| - 1 - i]
  {
    if i < |s| - 1 { RevAt(s[1..], i); }
  }

  lemma RevAll<T>(s: seq<T>)
    ensures forall i :: 0 <= i < |s| ==> Rev(s)[i] == s[|s| - 1 - i]
  {
    forall i | 0 <= i < |s| ensures Rev(s)[i] == s[|s| - 1 - i] { RevAt(s, i); }
  }

  // ---------------------------------------------------------------- sifting

  /** The elements on which `p` is `want`, in order. */
  function Sifted<T>(s: seq<T>, p: T -> bool, want: bool): seq<T> {
    if s == [] then [] else (if p(s[0]) == want then [s[0]] else []) + Sifted(s[1..], p, want)
  }

  lemma SiftedHead<T>(s: seq<T>, p: T -> bool)
    requires s != []
    ensures var yes, no := Sifted(s[1..], p, true), Sifted(s[1..], p, false);
      if p(s[0]) then Sifted(s, p, true) == [s[0]] + yes && Sifted(s, p, false) == no
      else Sifted(s, p, true) == yes && Sifted(s, p, false) == [s[0]] + no
  {
    var yes, no := Sifted(s[1..], p, true), Sifted(s[1..], p, false);
    assert [] + yes == yes && [] + no == no;
  }

  lemma {:induction false} SiftedFrom<T>(s: seq<T>, p: T -> bool, want: bool)
    ensures forall x :: x in Sifted(s, p, want) <==> x in s && p(x) == want
  {
    if s != [] { SiftedFrom(s[1..], p, want); }
  }

  lemma {:induction false} SiftedCounts<T>(s: seq<T>, p: T -> bool)
    ensures |Sifted(s, p, true)| + |Sifted(s, p, false)| == |s|
  {
    if s != [] { SiftedCounts(s[1..], p); }
  }

  lemma Regroup<T>(a: seq<T>, b: seq<T>, c: seq<T>)
    ensures a + (b + c) == a + b + c
  {
  }

  lemma {:induction false} SiftedConcat<T>(a: seq<T>, b: seq<T>, p: T -> bool, want: bool)
    ensures Sifted(a + b, p, want) == Sifted(a, p, want) + Sifted(b, p, want)
  {
    if a == [] {
      assert a + b == b;
    } else {
      assert (a + b)[1..] == a[1..] + b;
      SiftedConcat(a[1..], b, p, want);
      var head := if p(a[0]) == want then [a[0]] else [];
      Regroup(head, Sifted(a[1..], p, want), Sifted(b, p, want));
    }
  }

  /** When nothing is sifted out, everything stays. */
  lemma {:induction false} SiftedAll<T>(s: seq<T>, p: T -> bool, want: bool)
    requires Sifted(s, p, !want) == []
    ensures Sifted(s, p, want) == s
  {
    if s != [] {
      SiftedHead(s, p);
      SiftedAll(s[1..], p, want);
      assert s == [s[0]] + s[1..];
    }
  }

  // ---------------------------------------------------------------- order of products

  lemma NonNegative(a: real, b: real)
    requires a >= 0.0 && b >= 0.0
    ensures a * b >= 0.0
  {
  }

  lemma Distribute(t: real, u: real, v: real)
    ensures t * (u + v) == t * u + t * v
  {
  }

  /** A product with a name: hidden, it keeps a proof that only adds products up from multiplying them out. */
  function Times(a: real, b: real): real {
    a * b
  }

  lemma TimesMinus(u: real, v: real, k: real)
    ensures Times(u - v, k) == Times(u, k) - Times(v, k)
  {
    Distribute(k, u, -v);
  }

  lemma TimesPlus(u: real, v: real, k: real)
    ensures Times(u + v, k) == Times(u, k) + Times(v, k)
  {
    Distribute(k, u, v);
  }

  lemma TimesOrder(w: real, a: real, b: real)
    requires w >= 0.0 && a <= b
    ensures Times(w, a) <= Times(w, b)
  {
    MulOrder(a, b, w);
  }

  /** A common factor of two differences. */
  lemma TimesSplit(w: real, a: real, b: real, c: real)
    ensures Times(w, a - b - c) == Times(w, a) - Times(w, b) - Times(w, c)
  {
    Distribute(w, a, -b);
    Distribute(w, a - b, -c);
  }

  lemma TimesNested(a: real, b: real, c: real)
    ensures Times(a * b, c) == Times(a, Times(b, c))
  {
  }

  lemma QuotientTimes(a: real, s: real)
    requires s > 0.0
    ensures a / s * s == a
  {
  }

  lemma TimesOver(a: real, s: real)
    requires s > 0.0
    ensures a * s / s == a
  {
  }

  lemma MulOrder(a: real, b: real, s: real)
    requires a <= b && s >= 0.0
    ensures a * s <= b * s
  {
  }

  lemma MulStrict(a: real, b: real, s: real)
    requires a < b && s > 0.0
    ensures a * s < b * s
  {
    MulOrder(a, b, s);
    TimesOver(a, s);
    TimesOver(b, s);
  }
}

/** Python's ordering of `str` values: code point by code point, a proper
    prefix before any longer string. Dafny's own `<` on sequences means "proper
    prefix", so the order is spelled out here, together with `min` over a list. */
module LexOrder {

  /** Python's `a <= b` on strings. */
  predicate LexLe(a: string, b: string)
  {
    if |a| == 0 then true
    else if |b| == 0 then false
    else if a[0] != b[0] then a[0] < b[0]
    else LexLe(a[1..], b[1..])
  }

  /** Python's `a < b` on strings. */
  predicate LexLt(a: string, b: string)
  {
    LexLe(a, b) && a != b
  }

  lemma {:induction false} LexLeReflexive(a: string)
    ensures LexLe(a, a)
    decreases |a|
  {
    if |a| > 0 {
      LexLeReflexive(a[1..]);
    }
  }

  lemma {:induction false} LexLeTotal(a: string, b: string)
    ensures LexLe(a, b) || LexLe(b, a)
    decreases |a|
  {
    if |a| > 0 && |b| > 0 && a[0] == b[0] {
      LexLeTotal(a[1..], b[1..]);
    }
  }

  lemma {:induction false} LexLeAntisymmetric(a: string, b: string)
    requires LexLe(a, b) && LexLe(b, a)
    ensures a == b
    decreases |a|
  {
    if |a| > 0 {
      LexLeAntisymmetric(a[1..], b[1..]);
      assert a == [a[0]] + a[1..];
      assert b == [b[0]] + b[1..];
    }
  }

  lemma {:induction false} LexLeTransitive(a: string, b: string, c: string)
    requires LexLe(a, b) && LexLe(b, c)
    ensures LexLe(a, c)
    decreases |a|
  {
    if |a| > 0 && a[0] == b[0] && b[0] == c[0] {
      LexLeTransitive(a[1..], b[1..], c[1..]);
    }
  }

  /** Python's `min` loop: keep the running minimum `cur` and replace it only by
      a strictly smaller item of `rest`, scanning left to right. */
  function MinFrom(cur: string, rest: seq<string>): (r: string)
    ensures r == cur || r in rest
    decreases |rest|
  {
    if |rest| == 0 then cur
    else MinFrom(if LexLt(rest[0], cur) then rest[0] else cur, rest[1..])
  }

  /** Python's `min(xs)` over a non-empty list of strings. */
  function Min(xs: seq<string>): (r: string)
    requires |xs| > 0
    ensures r in xs
  {
    MinFrom(xs[0], xs[1..])
  }

  lemma {:induction false} MinFromIsLeast(cur: string, rest: seq<string>)
    ensures LexLe(MinFrom(cur, rest), cur)
    ensures forall x :: x in rest ==> LexLe(MinFrom(cur, rest), x)
    decreases |rest|
  {
    if |rest| == 0 {
      LexLeReflexive(cur);
    } else {
      var next := if LexLt(rest[0], cur) then rest[0] else cur;
      var r := MinFrom(next, rest[1..]);
      MinFromIsLeast(next, rest[1..]);
      LexLeTotal(rest[0], cur);
      LexLeReflexive(cur);
      LexLeReflexive(rest[0]);
      LexLeTransitive(r, next, cur);
      LexLeTransitive(r, next, rest[0]);
      forall x | x in rest
        ensures LexLe(r, x)
      {
        if x != rest[0] {
          assert x in rest[1..];
        }
      }
    }
  }

  /** The minimum is lexicographically at most every element, and it is the only
      element of the list with that property. */
  lemma MinIsLeast(xs: seq<string>)
    requires |xs| > 0
    ensures forall x :: x in xs ==> LexLe(Min(xs), x)
    ensures forall m :: m in xs && (forall x :: x in xs ==> LexLe(m, x)) ==> m == Min(xs)
  {
    MinFromIsLeast(xs[0], xs[1..]);
    assert xs == [xs[0]] + xs[1..];
    forall m | m in xs && (forall x :: x in xs ==> LexLe(m, x))
      ensures m == Min(xs)
    {
      LexLeAntisymmetric(m, Min(xs));
    }
  }
}

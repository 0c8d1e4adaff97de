/**
 * Sequence helpers: sums and means over reals, an order-preserving filter
 * described by the positions it keeps, and the index, delete and insert
 * operations of `Array.prototype` (`indexOf`, `splice`).
 */
module Seqs {

  /** Sum of a sequence of reals, as `Array.prototype.reduce((a, b) => a + b, 0)`. */
  function Sum(s: seq<real>): real {
    if |s| == 0 then 0.0 else s[0] + Sum(s[1..])
  }

  /** Arithmetic mean of a non-empty sequence. */
  function Mean(s: seq<real>): real
    requires |s| > 0
  {
    Sum(s) / |s| as real
  }

  function Min(s: seq<real>): real
    requires |s| > 0
  {
    if |s| == 1 then s[0]
    else
      var m := Min(s[1..]);
      if s[0] <= m then s[0] else m
  }

  function Max(s: seq<real>): real
    requires |s| > 0
  {
    if |s| == 1 then s[0]
    else
      var m := Max(s[1..]);
      if s[0] >= m then s[0] else m
  }

  lemma {:induction false} SumAppend(a: seq<real>, b: seq<real>)
    ensures Sum(a + b) == Sum(a) + Sum(b)
  {
    if |a| == 0 {
      assert a + b == b;
    } else {
      assert (a + b)[1..] == a[1..] + b;
      SumAppend(a[1..], b);
    }
  }

  /** A sum of non-negative terms is non-negative. */
  lemma {:induction false} SumNonNegative(s: seq<real>)
    requires forall i :: 0 <= i < |s| ==> 0.0 <= s[i]
    ensures 0.0 <= Sum(s)
  {
    if |s| > 0 {
      SumNonNegative(s[1..]);
    }
  }

  lemma MulNonNegative(a: real, b: real)
    requires 0.0 <= a && 0.0 <= b
    ensures 0.0 <= a * b
  {
  }

  /** Scaling by a non-negative factor preserves order. */
  lemma MulMonotone(n: real, a: real, b: real)
    requires 0.0 <= n && a <= b
    ensures n * a <= n * b
  {
    MulNonNegative(n, b - a);
    assert n * (b - a) == n * b - n * a;
  }

  /** The sum lies between |s| times the minimum and |s| times the maximum. */
  lemma SumBounds(s: seq<real>)
    requires |s| > 0
    ensures |s| as real * Min(s) <= Sum(s) <= |s| as real * Max(s)
  {
    SumAtLeast(s);
    SumAtMost(s);
  }

  lemma {:induction false} SumAtLeast(s: seq<real>)
    requires |s| > 0
    ensures |s| as real * Min(s) <= Sum(s)
  {
    if |s| > 1 {
      var t := s[1..];
      SumAtLeast(t);
      assert Min(s) <= Min(t) && Min(s) <= s[0];
      assert Sum(s) == s[0] + Sum(t);
      assert |s| as real == |t| as real + 1.0;
      StepLower(|t| as real, Min(s), Min(t), s[0], Sum(t));
    }
  }

  lemma {:induction false} SumAtMost(s: seq<real>)
    requires |s| > 0
    ensures Sum(s) <= |s| as real * Max(s)
  {
    if |s| > 1 {
      var t := s[1..];
      SumAtMost(t);
      assert Max(t) <= Max(s) && s[0] <= Max(s);
      assert Sum(s) == s[0] + Sum(t);
      assert |s| as real == |t| as real + 1.0;
      StepUpper(|t| as real, Max(s), Max(t), s[0], Sum(t));
    }
  }

  /** One more term at or above a bound keeps a sum at or above the bound's multiple. */
  lemma StepLower(n: real, lo: real, m: real, x: real, rest: real)
    requires 0.0 <= n && lo <= m && lo <= x && n * m <= rest
    ensures (n + 1.0) * lo <= x + rest
  {
    MulMonotone(n, lo, m);
    assert (n + 1.0) * lo == n * lo + lo;
  }

  /** One more term at or below a bound keeps a sum at or below the bound's multiple. */
  lemma StepUpper(n: real, hi: real, m: real, x: real, rest: real)
    requires 0.0 <= n && m <= hi && x <= hi && rest <= n * m
    ensures x + rest <= (n + 1.0) * hi
  {
    MulMonotone(n, m, hi);
    assert (n + 1.0) * hi == n * hi + hi;
  }

  /** Dividing by a positive count preserves a lower and an upper bound. */
  lemma DivideBounds(a: real, n: real, lo: real, hi: real)
    requires 0.0 < n && n * lo <= a <= n * hi
    ensures lo <= a / n <= hi
  {
    var q := a / n;
    assert q * n == a;
    assert (q - lo) * n >= 0.0;
    assert (hi - q) * n >= 0.0;
  }

  /** A mean never leaves the range of the values it averages. */
  lemma MeanBounds(s: seq<real>)
    requires |s| > 0
    ensures Min(s) <= Mean(s) <= Max(s)
  {
    SumBounds(s);
    DivideBounds(Sum(s), |s| as real, Min(s), Max(s));
  }

  /**
   * The indices `i` with `flags[i]`, in increasing order: the positions an
   * order-preserving filter keeps.
   */
  function Positions(flags: seq<bool>): (ps: seq<nat>)
    ensures forall j :: 0 <= j < |ps| ==> ps[j] < |flags| && flags[ps[j]]
    ensures forall j, k :: 0 <= j < k < |ps| ==> ps[j] < ps[k]
    ensures forall i :: 0 <= i < |flags| && flags[i] ==> i in ps
  {
    if |flags| == 0 then []
    else
      var n := |flags| - 1;
      var front := Positions(flags[..n]);
      if flags[n] then front + [n] else front
  }

  /**
   * The elements of `s` whose flag is set, in their original order -- the
   * shape of `Array.prototype.filter` and of a loop that pushes selected
   * elements.
   */
  function Keep<T>(s: seq<T>, flags: seq<bool>): (r: seq<T>)
    requires |s| == |flags|
    ensures |r| == |Positions(flags)|
    ensures forall j :: 0 <= j < |r| ==> r[j] == s[Positions(flags)[j]]
  {
    if |s| == 0 then []
    else
      var n := |s| - 1;
      Keep(s[..n], flags[..n]) + (if flags[n] then [s[n]] else [])
  }

  /** When every flag is set, every position is kept. */
  lemma {:induction false} PositionsAllSet(flags: seq<bool>)
    requires forall i :: 0 <= i < |flags| ==> flags[i]
    ensures |Positions(flags)| == |flags|
    ensures forall j :: 0 <= j < |flags| ==> Positions(flags)[j] == j
  {
    if |flags| > 0 {
      PositionsAllSet(flags[..|flags| - 1]);
    }
  }

  /** When no flag is set, nothing is kept. */
  lemma {:induction false} PositionsNoneSet(flags: seq<bool>)
    requires forall i :: 0 <= i < |flags| ==> !flags[i]
    ensures Positions(flags) == []
  {
    if |flags| > 0 {
      PositionsNoneSet(flags[..|flags| - 1]);
    }
  }

  /** An element survives `Keep` exactly when some flagged position holds it. */
  lemma KeepMembership<T>(s: seq<T>, flags: seq<bool>, x: T)
    requires |s| == |flags|
    ensures x in Keep(s, flags) <==> exists i :: 0 <= i < |s| && flags[i] && s[i] == x
  {
    var r := Keep(s, flags);
    var ps := Positions(flags);
    if x in r {
      var j :| 0 <= j < |r| && r[j] == x;
      assert flags[ps[j]] && s[ps[j]] == x;
    }
    if exists i :: 0 <= i < |s| && flags[i] && s[i] == x {
      var i :| 0 <= i < |s| && flags[i] && s[i] == x;
      assert i in ps;
      var j :| 0 <= j < |ps| && ps[j] == i;
      assert r[j] == x;
    }
  }

  /** With every flag set, the filter is the identity. */
  lemma KeepAll<T>(s: seq<T>, flags: seq<bool>)
    requires |s| == |flags| && forall i :: 0 <= i < |flags| ==> flags[i]
    ensures Keep(s, flags) == s
  {
    PositionsAllSet(flags);
  }

  /** `indexOf`: the first position holding `x`, or `|s|` when there is none. */
  function IndexOf<T(==)>(s: seq<T>, x: T): (i: nat)
    ensures i <= |s|
    ensures i == |s| <==> x !in s
    ensures i < |s| ==> s[i] == x
    ensures forall j :: 0 <= j < i ==> s[j] != x
  {
    if |s| == 0 then 0 else if s[0] == x then 0 else 1 + IndexOf(s[1..], x)
  }

  /** `splice(i, 1)`. */
  function Delete<T>(s: seq<T>, i: nat): (r: seq<T>)
    requires i < |s|
    ensures |r| == |s| - 1
    ensures forall j :: 0 <= j < i ==> r[j] == s[j]
    ensures forall j :: i <= j < |r| ==> r[j] == s[j + 1]
  {
    s[..i] + s[i + 1..]
  }

  /** `splice(i, 0, x)`. */
  function Insert<T>(s: seq<T>, i: nat, x: T): (r: seq<T>)
    requires i <= |s|
    ensures |r| == |s| + 1 && r[i] == x
    ensures forall j :: 0 <= j < i ==> r[j] == s[j]
    ensures forall j :: i < j < |r| ==> r[j] == s[j - 1]
  {
    s[..i] + [x] + s[i..]
  }

  /** Inserting and deleting at one position cancel out. */
  lemma DeleteInsert<T>(s: seq<T>, i: nat, x: T)
    requires i <= |s|
    ensures Delete(Insert(s, i, x), i) == s
  {
  }

  /** Deleting an element and putting it back where it was cancel out. */
  lemma InsertDelete<T>(s: seq<T>, i: nat)
    requires i < |s|
    ensures Insert(Delete(s, i), i, s[i]) == s
  {
  }

  /**
   * Take the element at `from` out and insert it at `to` (both indices of
   * the original sequence): the element ends up at `to`, and the others keep
   * their order.
   */
  function Move<T>(s: seq<T>, from: nat, to: nat): (r: seq<T>)
    requires from < |s| && to < |s|
    ensures |r| == |s| && r[to] == s[from]
    ensures Delete(r, to) == Delete(s, from)
    ensures multiset(r) == multiset(s)
  {
    var r := Insert(Delete(s, from), to, s[from]);
    DeleteInsert(Delete(s, from), to, s[from]);
    calc {
      multiset(r);
      multiset(Delete(s, from)[..to]) + multiset([s[from]]) + multiset(Delete(s, from)[to..]);
      { assert Delete(s, from) == Delete(s, from)[..to] + Delete(s, from)[to..]; }
      multiset(Delete(s, from)) + multiset([s[from]]);
      { assert s == s[..from] + [s[from]] + s[from + 1..]; }
      multiset(s);
    }
    r
  }

  /** Moving an element back to where it came from restores the sequence. */
  lemma {:induction false} MoveInverse<T>(s: seq<T>, from: nat, to: nat)
    requires from < |s| && to < |s|
    ensures Move(Move(s, from, to), to, from) == s
  {
    var m := Move(s, from, to);
    assert Delete(m, to) == Delete(s, from);
    InsertDelete(s, from);
  }

  /** No value occurs twice. */
  predicate Distinct<T(==)>(s: seq<T>) {
    forall i, j :: 0 <= i < j < |s| ==> s[i] != s[j]
  }
}

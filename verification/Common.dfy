/** Shared value types, and sums and counts over sequences. */
module Common {

  datatype Option<+T> = None | Some(value: T)

  datatype Result<+T, +E> = Ok(value: T) | Err(error: E)

  function Tally(b: bool): nat {
    if b then 1 else 0
  }

  function Sum<T>(s: seq<T>, f: T -> nat): nat {
    if s == [] then 0 else Sum(s[..|s| - 1], f) + f(s[|s| - 1])
  }

  function Indicator<T>(p: T -> bool): T -> nat {
    (x: T) => if p(x) then 1 else 0
  }

  function Count<T>(s: seq<T>, p: T -> bool): nat {
    Sum(s, Indicator(p))
  }

  lemma SumAppend<T>(s: seq<T>, x: T, f: T -> nat)
    ensures Sum(s + [x], f) == Sum(s, f) + f(x)
  {
    assert (s + [x])[..|s|] == s;
  }

  lemma {:induction false} SumUpdate<T>(s: seq<T>, i: nat, x: T, f: T -> nat)
    requires i < |s|
    ensures Sum(s[i := x], f) + f(s[i]) == Sum(s, f) + f(x)
  {
    var n := |s| - 1;
    if i == n {
      assert s[i := x][..n] == s[..n];
    } else {
      assert s[i := x][..n] == s[..n][i := x];
      SumUpdate(s[..n], i, x, f);
    }
  }

  /** Pointwise comparison of two sums of equal length. */
  lemma {:induction false} SumMonotone<T>(s: seq<T>, t: seq<T>, f: T -> nat)
    requires |s| == |t|
    requires forall i :: 0 <= i < |s| ==> f(s[i]) <= f(t[i])
    ensures Sum(s, f) <= Sum(t, f)
  {
    if s == [] {
    } else {
      SumMonotone(s[..|s| - 1], t[..|t| - 1], f);
    }
  }

  lemma {:induction false} SumAtLeast<T>(s: seq<T>, i: nat, f: T -> nat)
    requires i < |s|
    ensures f(s[i]) <= Sum(s, f)
  {
    if i == |s| - 1 {
    } else {
      SumAtLeast(s[..|s| - 1], i, f);
    }
  }

  /** A sum is zero exactly when every term is. */
  lemma {:induction false} SumZero<T>(s: seq<T>, f: T -> nat)
    ensures Sum(s, f) == 0 <==> forall i :: 0 <= i < |s| ==> f(s[i]) == 0
  {
    if s == [] {
    } else {
      var n := |s| - 1;
      SumZero(s[..n], f);
      assert forall i :: 0 <= i < n ==> s[..n][i] == s[i];
    }
  }

  lemma CountAppend<T>(s: seq<T>, x: T, p: T -> bool)
    ensures Count(s + [x], p) == Count(s, p) + if p(x) then 1 else 0
  {
    SumAppend(s, x, Indicator(p));
  }

  lemma {:induction false} CountCons<T>(s: seq<T>, p: T -> bool)
    requires s != []
    ensures Count(s, p) == Count(s[1..], p) + if p(s[0]) then 1 else 0
  {
    var n := |s| - 1;
    if n == 0 {
    } else {
      assert s[..n][1..] == s[1..][..n - 1];
      CountCons(s[..n], p);
    }
  }

  lemma CountUpdate<T>(s: seq<T>, i: nat, x: T, p: T -> bool)
    requires i < |s|
    ensures Count(s[i := x], p) + (if p(s[i]) then 1 else 0) == Count(s, p) + if p(x) then 1 else 0
  {
    SumUpdate(s, i, x, Indicator(p));
  }

  /** No two positions satisfy `p` exactly when the count is at most one. */
  lemma {:induction false} CountAtMostOne<T>(s: seq<T>, p: T -> bool)
    requires forall i, j :: 0 <= i < j < |s| ==> !(p(s[i]) && p(s[j]))
    ensures Count(s, p) <= 1
  {
    if s == [] {
    } else {
      var n := |s| - 1;
      CountAtMostOne(s[..n], p);
      SumZero(s[..n], Indicator(p));
      assert forall i :: 0 <= i < n ==> s[..n][i] == s[i];
    }
  }

  lemma CountPositive<T>(s: seq<T>, p: T -> bool)
    ensures Count(s, p) > 0 <==> exists i :: 0 <= i < |s| && p(s[i])
  {
    SumZero(s, Indicator(p));
    assert forall i :: 0 <= i < |s| ==> (Indicator(p)(s[i]) == 0 <==> !p(s[i]));
  }

  lemma {:induction false} NoMoreThan<T>(s: seq<T>, p: T -> bool, q: T -> bool)
    requires forall i :: 0 <= i < |s| && p(s[i]) ==> q(s[i])
    ensures Count(s, p) <= Count(s, q)
  {
    if s == [] {
    } else {
      NoMoreThan(s[..|s| - 1], p, q);
    }
  }

  /** If `p` splits into the disjoint `q` and `r`, so does its count. */
  lemma {:induction false} CountSplit<T>(s: seq<T>, p: T -> bool, q: T -> bool, r: T -> bool)
    requires forall i :: 0 <= i < |s| ==> (p(s[i]) <==> q(s[i]) || r(s[i])) && !(q(s[i]) && r(s[i]))
    ensures Count(s, p) == Count(s, q) + Count(s, r)
  {
    if s == [] {
    } else {
      CountSplit(s[..|s| - 1], p, q, r);
    }
  }
}

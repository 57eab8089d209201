/** Option values and counting over sequences, shared by every module. */
module Prelude {

  datatype Option<+T> = None | Some(value: T) {
    function GetOr(default: T): T { if Some? then value else default }
  }

  function Max(a: int, b: int): int { if a < b then b else a }

  function Min(a: int, b: int): int { if a < b then a else b }

  /** How many elements of s satisfy p. */
  function Count<T>(s: seq<T>, p: T -> bool): nat {
    if s == [] then 0
    else Count(s[..|s| - 1], p) + (if p(s[|s| - 1]) then 1 else 0)
  }

  lemma CountSnoc<T>(s: seq<T>, x: T, p: T -> bool)
    ensures Count(s + [x], p) == Count(s, p) + (if p(x) then 1 else 0)
  {
    assert (s + [x])[..|s|] == s;
  }

  lemma CountNext<T>(s: seq<T>, n: nat, p: T -> bool)
    requires n < |s|
    ensures Count(s[..n + 1], p) == Count(s[..n], p) + (if p(s[n]) then 1 else 0)
  {
    assert s[..n + 1] == s[..n] + [s[n]];
    CountSnoc(s[..n], s[n], p);
  }

  lemma {:induction false} CountAppend<T>(s: seq<T>, t: seq<T>, p: T -> bool)
    ensures Count(s + t, p) == Count(s, p) + Count(t, p)
  {
    if t == [] {
      assert s + t == s;
    } else {
      CountAppend(s, t[..|t| - 1], p);
      CountSnoc(s + t[..|t| - 1], t[|t| - 1], p);
      assert s + t == s + t[..|t| - 1] + [t[|t| - 1]];
    }
  }

  lemma CountPrefix<T>(s: seq<T>, t: seq<T>, p: T -> bool)
    requires s <= t
    ensures Count(s, p) <= Count(t, p)
  {
    CountAppend(s, t[|s|..], p);
    assert s + t[|s|..] == t;
  }

  lemma {:induction false} CountNone<T>(s: seq<T>, p: T -> bool)
    requires forall x | x in s :: !p(x)
    ensures Count(s, p) == 0
  {
    if s != [] {
      CountNone(s[..|s| - 1], p);
    }
  }

  /** What satisfies p satisfies q or r, so p is counted at most as often as both together. */
  lemma {:induction false} CountCovered<T>(s: seq<T>, p: T -> bool, q: T -> bool, r: T -> bool)
    requires forall x | x in s :: p(x) ==> q(x) || r(x)
    ensures Count(s, p) <= Count(s, q) + Count(s, r)
  {
    if s != [] {
      CountCovered(s[..|s| - 1], p, q, r);
    }
  }

  /** The place of the last element that satisfies p. */
  function LastWhere<T>(s: seq<T>, p: T -> bool): (r: Option<nat>)
    ensures match r
            case None => forall i: nat | i < |s| :: !p(s[i])
            case Some(i) => i < |s| && p(s[i]) && forall j: nat | i < j < |s| :: !p(s[j])
  {
    if s == [] then None
    else if p(s[|s| - 1]) then Some(|s| - 1)
    else LastWhere(s[..|s| - 1], p)
  }

  lemma Associates<T>(a: seq<T>, b: seq<T>, c: seq<T>)
    ensures a + (b + c) == (a + b) + c
  {
  }

  /** None of the elements from q to n is x. */
  predicate Absent<T(==)>(s: seq<T>, x: T, q: nat, n: nat)
    requires n <= |s|
  {
    forall k: nat | q <= k < n :: s[k] != x
  }

  lemma AbsentOn<T>(s: seq<T>, y: T, x: T, q: nat, n: nat)
    requires n <= |s|
    ensures Absent(s + [y], x, q, n) <==> Absent(s, x, q, n)
  {
    assert forall k: nat | q <= k < n :: (s + [y])[k] == s[k];
  }

  lemma AbsentNext<T>(s: seq<T>, y: T, x: T, q: nat)
    requires q <= |s|
    ensures Absent(s + [y], x, q, |s| + 1) <==> Absent(s, x, q, |s|) && y != x
  {
    AbsentOn(s, y, x, q, |s|);
    assert (s + [y])[|s|] == y;
  }

  lemma AbsentSplit<T>(s: seq<T>, x: T, q: nat, n: nat)
    requires q <= n <= |s|
    ensures Absent(s, x, 0, n) <==> Absent(s, x, 0, q) && Absent(s, x, q, n)
  {
  }
}

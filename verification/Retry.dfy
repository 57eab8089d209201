/** The delays between the attempts of a channel task. */
module Retry {
  import opened Prelude

  /** A retry policy as the rule schema admits it: both backoffs are at least one second. */
  datatype RawPolicy = RawPolicy(maxRetries: nat, backoff: nat, backoffMax: nat, jitter: bool)

  type Policy = p: RawPolicy | p.backoff >= 1 && p.backoffMax >= 1 witness RawPolicy(5, 2, 60, true)

  function Pow2(n: nat): (r: nat)
    ensures n < r
  {
    if n == 0 then 1 else 2 * Pow2(n - 1)
  }

  /** min(backoff * 2 ** retries, backoff_max). */
  function Base(p: Policy, retries: nat): nat { Min(p.backoff * Pow2(retries), p.backoffMax) }

  /** The largest value random.randint may add. */
  function JitterMax(p: Policy, retries: nat): nat { Max(1, Base(p, retries) / 3) }

  function Delay(p: Policy, retries: nat, draw: nat): nat {
    Max(1, Base(p, retries) + (if p.jitter then draw else 0))
  }

  function TotalBase(p: Policy, n: nat): nat {
    if n == 0 then 0 else TotalBase(p, n - 1) + Base(p, n - 1)
  }

  lemma DelayBounds(p: Policy, retries: nat, draw: nat)
    requires draw <= JitterMax(p, retries)
    ensures 1 <= Base(p, retries) <= Delay(p, retries, draw) <= p.backoffMax + Max(1, p.backoffMax / 3)
    ensures !p.jitter ==> Delay(p, retries, draw) == Base(p, retries)
  {
    BaseIsPositive(p, retries);
  }

  /** The delay begins at the backoff and doubles with every retry until it reaches the maximum. */
  lemma BaseDoubles(p: Policy, r: nat)
    ensures Base(p, 0) == Min(p.backoff, p.backoffMax)
    ensures Base(p, r + 1) == Min(2 * Base(p, r), p.backoffMax)
  {
    assert Pow2(0) == 1 && p.backoff * Pow2(r + 1) == 2 * (p.backoff * Pow2(r));
  }

  /** Jitter adds what is drawn, at most a third of the delay and at least up to one second. */
  lemma JitterAdds(p: Policy, r: nat, draw: nat)
    ensures p.jitter ==> Delay(p, r, draw) == Base(p, r) + draw
    ensures !p.jitter ==> Delay(p, r, draw) == Base(p, r)
    ensures if Base(p, r) < 3 then JitterMax(p, r) == 1 else 3 * JitterMax(p, r) <= Base(p, r) < 3 * JitterMax(p, r) + 3
  {
    BaseIsPositive(p, r);
  }

  lemma BaseIsPositive(p: Policy, retries: nat)
    ensures 1 <= Base(p, retries) <= p.backoffMax
  {
    Times(Pow2(retries), 1, p.backoff);
  }

  lemma {:induction false} Pow2Grows(r: nat, s: nat)
    requires r <= s
    ensures Pow2(r) <= Pow2(s)
  {
    if r < s {
      Pow2Grows(r, s - 1);
    }
  }

  /** Without jitter delays never shrink, reach the maximum exactly when the product does, and reach it
   *  after at most backoff_max retries. */
  lemma DelaysSaturate(p: Policy, r: nat, s: nat)
    requires r <= s
    ensures Base(p, r) <= Base(p, s)
    ensures Base(p, r) == p.backoffMax <==> p.backoff * Pow2(r) >= p.backoffMax
    ensures p.backoffMax <= r ==> Base(p, r) == p.backoffMax
  {
    Pow2Grows(r, s);
    Times(p.backoff, Pow2(r), Pow2(s));
    Times(Pow2(r), 1, p.backoff);
  }

  lemma Times(b: nat, x: nat, y: nat)
    requires x <= y
    ensures b * x <= b * y
  {
  }

  /** One more term keeps a linear and a geometric bound. */
  lemma OneMore(total: nat, term: nat, n: nat, m: nat, b: nat, x: nat)
    requires total <= n * m && total <= b * (x - 1) && term <= m && term <= b * x && x >= 1
    ensures total + term <= (n + 1) * m && total + term <= b * (2 * x - 1)
  {
    assert n * m + m == (n + 1) * m;
    assert b * (x - 1) + b * x == b * (2 * x - 1);
  }

  /** n jitter-free delays together: at most n maxima, and at most the geometric sum. */
  lemma {:induction false} TotalBound(p: Policy, n: nat)
    ensures TotalBase(p, n) <= n * p.backoffMax
    ensures TotalBase(p, n) <= p.backoff * (Pow2(n) - 1)
  {
    if n > 0 {
      TotalBound(p, n - 1);
      BaseIsPositive(p, n - 1);
      OneMore(TotalBase(p, n - 1), Base(p, n - 1), n - 1, p.backoffMax, p.backoff, Pow2(n - 1));
    }
  }

  function Sum(delays: seq<nat>): nat {
    if delays == [] then 0 else Sum(delays[..|delays| - 1]) + delays[|delays| - 1]
  }

  /** The delays a task took, one per retry, each with its own jitter draw. */
  predicate Drawn(p: Policy, delays: seq<nat>, draw: nat -> nat) {
    forall r: nat | r < |delays| :: draw(r) <= JitterMax(p, r) && delays[r] == Delay(p, r, draw(r))
  }

  /** The whole backoff of a task, jitter included, lies between its jitter-free total and n times the
   *  longest possible delay. */
  lemma {:induction false} BackoffTotal(p: Policy, delays: seq<nat>, draw: nat -> nat)
    requires Drawn(p, delays, draw)
    ensures TotalBase(p, |delays|) <= Sum(delays) <= |delays| * (p.backoffMax + Max(1, p.backoffMax / 3))
    ensures !p.jitter ==> Sum(delays) == TotalBase(p, |delays|)
  {
    if delays != [] {
      var n := |delays| - 1;
      BackoffTotal(p, delays[..n], draw);
      DelayBounds(p, n, draw(n));
      var m := p.backoffMax + Max(1, p.backoffMax / 3);
      OneMore(Sum(delays[..n]), delays[n], n, m, Sum(delays[..n]) + delays[n], 2);
    }
  }
}

/** One channel's circuit breaker, with the count of a failure and the opening it calls for as separate steps.
 *
 *  Guards takes both as one event. Here any number of workers run _record_channel_failure at once: each
 *  increments the counter and, when the count it gets back has reached the threshold, sets the open key and
 *  deletes the counter in a later step. Successes and clock ticks fall anywhere in between.
 */
module CircuitProtocol {
  import opened Prelude

  /** tripped: the workers that are about to open the circuit, with the count each got back. */
  datatype State = State(now: nat, failures: nat, openUntil: Option<nat>, tripped: map<nat, nat>)

  datatype Action =
    | Tick(d: nat)
    | Incr(p: nat)
    | Open(p: nat)
    | Success

  const INIT := State(0, 0, None, map[])

  datatype Breaker = Breaker(threshold: int, openMs: nat)

  predicate Enabled(s: State, a: Action) {
    match a
    case Incr(p) => p !in s.tripped
    case Open(p) => p in s.tripped
    case _ => true
  }

  function Step(b: Breaker, s: State, a: Action): State
    requires Enabled(s, a)
  {
    match a
    case Tick(d) => s.(now := s.now + d)
    case Incr(p) =>
      var n := s.failures + 1;
      s.(failures := n, tripped := if n >= b.threshold then s.tripped[p := n] else s.tripped)
    case Open(p) => s.(openUntil := Some(s.now + b.openMs), failures := 0, tripped := s.tripped - {p})
    case Success => s.(failures := 0)
  }

  predicate Run(b: Breaker, actions: seq<Action>)
    decreases |actions|, 0
  {
    actions == [] ||
    var n := |actions| - 1;
    Run(b, actions[..n]) && Enabled(Reached(b, actions[..n]), actions[n])
  }

  function Reached(b: Breaker, actions: seq<Action>): State
    requires Run(b, actions)
    decreases |actions|, 1
  {
    if actions == [] then INIT
    else Step(b, Reached(b, actions[..|actions| - 1]), actions[|actions| - 1])
  }

  /** Whether a send passes the check. */
  predicate Passes(s: State) {
    s.openUntil.None? || s.openUntil.value <= s.now
  }

  // ---------------------------------------------------------------- the history

  predicate Clears(a: Action) { a.Open? || a.Success? }

  /** Failures among the first n actions since the last success or opening. */
  function Streak(actions: seq<Action>, n: nat): nat
    requires n <= |actions|
  {
    if n == 0 || Clears(actions[n - 1]) then 0
    else Streak(actions, n - 1) + (if actions[n - 1].Incr? then 1 else 0)
  }

  /** When, before the n-th action, worker p last counted a failure: the number of actions up to that one. */
  function CountedAt(actions: seq<Action>, p: nat, n: nat): (q: nat)
    requires n <= |actions|
    ensures q <= n
  {
    if n == 0 then 0
    else if actions[n - 1] == Incr(p) then n
    else CountedAt(actions, p, n - 1)
  }

  predicate QuietSince(actions: seq<Action>, q: nat, n: nat)
    requires n <= |actions|
  {
    forall k: nat | q <= k < n :: !Clears(actions[k])
  }

  /** When the circuit was last opened. */
  function LastOpening(b: Breaker, actions: seq<Action>): Option<nat>
    requires Run(b, actions)
  {
    if actions == [] then None
    else
      var n := |actions| - 1;
      if actions[n].Open? then Some(Reached(b, actions[..n]).now) else LastOpening(b, actions[..n])
  }

  lemma {:induction false} StreakOn(actions: seq<Action>, a: Action, n: nat)
    requires n <= |actions|
    ensures Streak(actions + [a], n) == Streak(actions, n)
  {
    if n > 0 {
      StreakOn(actions, a, n - 1);
    }
  }

  lemma {:induction false} CountedOn(actions: seq<Action>, a: Action, p: nat, n: nat)
    requires n <= |actions|
    ensures CountedAt(actions + [a], p, n) == CountedAt(actions, p, n)
  {
    if n > 0 {
      CountedOn(actions, a, p, n - 1);
    }
  }

  // ---------------------------------------------------------------- what survives overlapping workers

  /** The counter is the streak, every worker about to open got a count that reached the threshold, and the
   *  counter is ahead of the threshold by no more than these workers. */
  ghost predicate Kept(b: Breaker, actions: seq<Action>, s: State) {
    && s.failures == Streak(actions, |actions|)
    && s.failures < Max(1, b.threshold) + |s.tripped|
    && (forall p | p in s.tripped :: Counted(b, actions, s, p))
  }

  predicate Counted(b: Breaker, actions: seq<Action>, s: State, p: nat)
    requires p in s.tripped
  {
    b.threshold <= s.tripped[p] == Streak(actions, CountedAt(actions, p, |actions|)) && s.tripped[p] >= 1
  }

  lemma SizeOfTripped(tripped: map<nat, nat>, p: nat, n: nat)
    ensures p !in tripped ==> |tripped[p := n]| == |tripped| + 1
    ensures p in tripped ==> |tripped - {p}| == |tripped| - 1
  {
    if p in tripped {
      assert tripped == (tripped - {p})[p := tripped[p]];
    } else {
      assert tripped[p := n].Keys == tripped.Keys + {p};
      assert |tripped[p := n].Keys| == |tripped.Keys| + 1;
    }
  }

  lemma StepKeeps(b: Breaker, actions: seq<Action>, s: State, a: Action)
    requires Kept(b, actions, s) && Enabled(s, a)
    ensures Kept(b, actions + [a], Step(b, s, a))
  {
    var n := |actions|;
    StreakOn(actions, a, n);
    if a.Incr? {
      SizeOfTripped(s.tripped, a.p, s.failures + 1);
    } else if a.Open? {
      SizeOfTripped(s.tripped, a.p, 0);
    }
    forall p | p in Step(b, s, a).tripped
      ensures Counted(b, actions + [a], Step(b, s, a), p)
    {
      CountedOn(actions, a, p, n);
      StreakOn(actions, a, CountedAt(actions, p, n));
      assert p in s.tripped ==> Counted(b, actions, s, p);
    }
  }

  lemma KeptNext(b: Breaker, front: seq<Action>, a: Action, actions: seq<Action>)
    requires Run(b, front) && Kept(b, front, Reached(b, front)) && Enabled(Reached(b, front), a) &&
             actions == front + [a]
    ensures Run(b, actions) && Kept(b, actions, Reached(b, actions))
  {
    RunSnoc(b, front, a);
    StepKeeps(b, front, Reached(b, front), a);
  }

  lemma {:induction false} RunKeeps(b: Breaker, actions: seq<Action>)
    requires Run(b, actions)
    ensures Kept(b, actions, Reached(b, actions))
  {
    if actions != [] {
      var n := |actions| - 1;
      RunKeeps(b, actions[..n]);
      KeptNext(b, actions[..n], actions[n], actions);
    }
  }

  /** However the workers interleave, the stored counter is the failures since the last success or opening,
   *  and is below the threshold plus the workers that are about to open the circuit. */
  lemma CounterSurvivesOverlap(b: Breaker, actions: seq<Action>)
    requires Run(b, actions)
    ensures var s := Reached(b, actions);
            s.failures == Streak(actions, |actions|) && s.failures < Max(1, b.threshold) + |s.tripped|
  {
    RunKeeps(b, actions);
  }

  /** However the workers interleave, a send passes the check exactly when the last opening is old enough. */
  lemma {:induction false} ChecksSurviveOverlap(b: Breaker, actions: seq<Action>)
    requires Run(b, actions)
    ensures var s := Reached(b, actions);
            && s.openUntil == (match LastOpening(b, actions) case None => None case Some(o) => Some(o + b.openMs))
            && (Passes(s) <==> match LastOpening(b, actions) case None => true case Some(o) => o + b.openMs <= s.now)
  {
    if actions != [] {
      ChecksSurviveOverlap(b, actions[..|actions| - 1]);
    }
  }

  // ---------------------------------------------------------------- what does not

  lemma RunSnoc(b: Breaker, actions: seq<Action>, a: Action)
    requires Run(b, actions) && Enabled(Reached(b, actions), a)
    ensures Run(b, actions + [a]) && Reached(b, actions + [a]) == Step(b, Reached(b, actions), a)
  {
    assert (actions + [a])[..|actions|] == actions;
  }

  function Burst(n: nat): seq<Action> {
    if n == 0 then [] else Burst(n - 1) + [Incr(n - 1)]
  }

  ghost predicate Bursts(b: Breaker, n: nat) {
    && Run(b, Burst(n))
    && var s := Reached(b, Burst(n));
       && s.failures == n && s.now == 0 && s.openUntil == None
       && (forall p: nat :: p in s.tripped <==> p < n && b.threshold <= p + 1)
       && |s.tripped| == if n < Max(1, b.threshold) then 0 else n - Max(1, b.threshold) + 1
  }

  lemma {:induction false} BurstRuns(b: Breaker, n: nat)
    ensures Bursts(b, n)
  {
    if n > 0 {
      BurstRuns(b, n - 1);
      var s := Reached(b, Burst(n - 1));
      RunSnoc(b, Burst(n - 1), Incr(n - 1));
      SizeOfTripped(s.tripped, n - 1, n);
    }
  }

  /** The bound is exact: for any number of workers a run in which the counter is that far ahead. */
  lemma CounterGoesAhead(b: Breaker, workers: nat) returns (actions: seq<Action>)
    ensures Run(b, actions)
    ensures var s := Reached(b, actions); |s.tripped| == workers && s.failures == Max(1, b.threshold) + workers - 1
  {
    actions := Burst(Max(1, b.threshold) + workers - 1);
    BurstRuns(b, Max(1, b.threshold) + workers - 1);
  }

  /** Some worker about to open the circuit counted its failure with no success and no opening since. */
  ghost predicate SomeoneCurrent(b: Breaker, actions: seq<Action>)
    requires Run(b, actions)
  {
    exists r :: r in Reached(b, actions).tripped && Current(actions, r)
  }

  predicate Current(actions: seq<Action>, r: nat) {
    QuietSince(actions, CountedAt(actions, r, |actions|), |actions|)
  }

  lemma {:induction false} StreakGrows(actions: seq<Action>, q: nat, n: nat)
    requires q <= n <= |actions| && QuietSince(actions, q, n)
    ensures Streak(actions, q) <= Streak(actions, n)
    decreases n
  {
    if q < n {
      StreakGrows(actions, q, n - 1);
    }
  }

  /** A worker that is current stays so over an action that clears nothing. */
  lemma CurrentStays(front: seq<Action>, a: Action, r: nat)
    requires Current(front, r) && !Clears(a) && a != Incr(r)
    ensures Current(front + [a], r)
  {
    CountedOn(front, a, r, |front|);
    var q := CountedAt(front, r, |front|);
    forall k: nat | q <= k < |front| + 1 ensures !Clears((front + [a])[k]) {
      assert k < |front| ==> (front + [a])[k] == front[k];
    }
  }

  lemma FullNext(b: Breaker, front: seq<Action>, a: Action, actions: seq<Action>)
    requires Run(b, front) && Enabled(Reached(b, front), a) && actions == front + [a]
    requires Streak(front, |front|) >= Max(1, b.threshold) ==> SomeoneCurrent(b, front)
    requires Kept(b, front, Reached(b, front)) && Run(b, actions)
    requires Streak(actions, |actions|) >= Max(1, b.threshold)
    ensures SomeoneCurrent(b, actions)
  {
    RunSnoc(b, front, a);
    StreakOn(front, a, |front|);
    if a.Incr? {
      assert CountedAt(actions, a.p, |actions|) == |actions|;
      assert a.p in Reached(b, actions).tripped && Current(actions, a.p);
    } else {
      var r :| r in Reached(b, front).tripped && Current(front, r);
      CurrentStays(front, a, r);
      assert r in Reached(b, actions).tripped && Current(actions, r);
    }
  }

  lemma {:induction false} FullHasCurrent(b: Breaker, actions: seq<Action>)
    requires Run(b, actions) && Streak(actions, |actions|) >= Max(1, b.threshold)
    ensures SomeoneCurrent(b, actions)
  {
    var n := |actions| - 1;
    var front := actions[..n];
    assert actions == front + [actions[n]];
    RunKeeps(b, front);
    if Streak(front, |front|) >= Max(1, b.threshold) {
      FullHasCurrent(b, front);
    }
    FullNext(b, front, actions[n], actions);
  }

  /** An opening made now ends a full streak if and only if some worker about to open the circuit counted its
   *  failure with no success and no opening since. Where each opening follows its failure directly, as Guards
   *  has it, the worker itself is one, and every opening ends a full streak. */
  lemma OpensOnFullStreakIff(b: Breaker, actions: seq<Action>)
    requires Run(b, actions)
    ensures Streak(actions, |actions|) >= Max(1, b.threshold) <==> SomeoneCurrent(b, actions)
  {
    if SomeoneCurrent(b, actions) {
      var r :| r in Reached(b, actions).tripped && Current(actions, r);
      RunKeeps(b, actions);
      assert Counted(b, actions, Reached(b, actions), r);
      StreakGrows(actions, CountedAt(actions, r, |actions|), |actions|);
    } else if Streak(actions, |actions|) >= Max(1, b.threshold) {
      FullHasCurrent(b, actions);
    }
  }

  /** Two workers that both reach the threshold open the circuit twice, the second time on a streak of none. */
  lemma OverlapOpensTwice(b: Breaker) returns (actions: seq<Action>, p: nat)
    ensures Run(b, actions) && p in Reached(b, actions).tripped
    ensures LastOpening(b, actions).Some? && Streak(actions, |actions|) == 0
  {
    var n := Max(1, b.threshold) + 1;
    var burst := Burst(n);
    BurstRuns(b, n);
    p := n - 1;
    actions := burst + [Open(n - 2)];
    assert actions[..|actions| - 1] == burst;
  }
}

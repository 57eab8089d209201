/** The token lock around DLQ replay, with its get and its delete as separate steps. */
module ReplayLockProtocol {
  import opened Prelude

  datatype Held = Held(token: nat, expiry: nat)

  datatype Phase =
    | Inside(token: nat, since: nat)
    | Checked(token: nat, since: nat, mine: bool)     // GET is done, DELETE follows when it was ours

  datatype State = State(now: nat, lock: Option<Held>, next: nat, workers: map<nat, Phase>)

  datatype Action =
    | Tick(d: nat)
    | Acquire(p: nat)
    | Get(p: nat)
    | Delete(p: nat)
    | Die(p: nat)           // the time limit kills the worker; nothing is released

  const INIT := State(0, None, 0, map[])

  predicate Live(s: State) { s.lock.Some? && s.now < s.lock.value.expiry }

  predicate Enabled(s: State, a: Action) {
    match a
    case Tick(_) => true
    case Acquire(p) => p !in s.workers
    case Get(p) => p in s.workers && s.workers[p].Inside?
    case Delete(p) => p in s.workers && s.workers[p].Checked?
    case Die(p) => p in s.workers
  }

  function Step(ttl: nat, s: State, a: Action): State
    requires Enabled(s, a)
  {
    match a
    case Tick(d) => s.(now := s.now + d)
    case Acquire(p) =>
      if Live(s) then s.(next := s.next + 1)
      else s.(next := s.next + 1, lock := Some(Held(s.next, s.now + ttl)),
              workers := s.workers[p := Inside(s.next, s.now)])
    case Get(p) =>
      var w := s.workers[p];
      s.(workers := s.workers[p := Checked(w.token, w.since, Live(s) && s.lock.value.token == w.token)])
    case Delete(p) =>
      s.(workers := s.workers - {p}, lock := if s.workers[p].mine then None else s.lock)
    case Die(p) => s.(workers := s.workers - {p})
  }

  /** No worker is still between its acquire and its delete more than d later. */
  predicate Timely(s: State, a: Action, d: nat) {
    a.Tick? ==> forall p | p in s.workers :: s.now + a.d <= s.workers[p].since + d
  }

  predicate Run(ttl: nat, actions: seq<Action>, d: nat)
    decreases |actions|, 0
  {
    actions == [] ||
    var n := |actions| - 1;
    Run(ttl, actions[..n], d) && Enabled(Reached(ttl, actions[..n], d), actions[n]) &&
    Timely(Reached(ttl, actions[..n], d), actions[n], d)
  }

  function Reached(ttl: nat, actions: seq<Action>, d: nat): State
    requires Run(ttl, actions, d)
    decreases |actions|, 1
  {
    if actions == [] then INIT
    else Step(ttl, Reached(ttl, actions[..|actions| - 1], d), actions[|actions| - 1])
  }

  ghost predicate AtMostOneInside(s: State) {
    forall p, q | p in s.workers && q in s.workers :: p == q
  }

  /** The step deletes a live lock that holds another worker's token. */
  predicate Steals(s: State, a: Action)
    requires Enabled(s, a)
  {
    a.Delete? && s.workers[a.p].mine && Live(s) && s.lock.value.token != s.workers[a.p].token
  }

  /** Every worker inside owns the live lock. */
  ghost predicate Inv(ttl: nat, s: State, d: nat) {
    forall p | p in s.workers ::
      s.now <= s.workers[p].since + d &&
      s.lock == Some(Held(s.workers[p].token, s.workers[p].since + ttl)) &&
      AtMostOneInside(s)
  }

  lemma StepKeepsInv(ttl: nat, s: State, a: Action, d: nat)
    requires d < ttl && Inv(ttl, s, d) && Enabled(s, a) && Timely(s, a, d)
    ensures Inv(ttl, Step(ttl, s, a), d)
  {
  }

  lemma {:induction false} RunKeepsInv(ttl: nat, actions: seq<Action>, d: nat)
    requires d < ttl && Run(ttl, actions, d)
    ensures Inv(ttl, Reached(ttl, actions, d), d)
  {
    if actions != [] {
      var n := |actions| - 1;
      RunKeepsInv(ttl, actions[..n], d);
      StepKeepsInv(ttl, Reached(ttl, actions[..n], d), actions[n], d);
    }
  }

  ghost predicate Exclusive(ttl: nat, d: nat) {
    forall actions | Run(ttl, actions, d) :: AtMostOneInside(Reached(ttl, actions, d))
  }

  ghost predicate NeverSteals(ttl: nat, d: nat) {
    forall actions, a | Run(ttl, actions, d) && Enabled(Reached(ttl, actions, d), a) ::
      !Steals(Reached(ttl, actions, d), a)
  }

  lemma RunSnoc(ttl: nat, actions: seq<Action>, a: Action, d: nat)
    requires Run(ttl, actions, d) && Enabled(Reached(ttl, actions, d), a) && Timely(Reached(ttl, actions, d), a, d)
    ensures Run(ttl, actions + [a], d)
    ensures Reached(ttl, actions + [a], d) == Step(ttl, Reached(ttl, actions, d), a)
  {
    assert (actions + [a])[..|actions|] == actions;
  }

  /** A worker that outlives its TTL shares the section, and its delete frees the other's lock. */
  lemma SlowWorkerOverlaps(ttl: nat, d: nat) returns (actions: seq<Action>)
    requires ttl <= d
    ensures Run(ttl, actions, d)
    ensures var s := Reached(ttl, actions, d);
            !AtMostOneInside(s) && Enabled(s, Delete(0)) && (ttl > 0 ==> Steals(s, Delete(0)))
  {
    actions := [];
    RunSnoc(ttl, actions, Acquire(0), d); actions := actions + [Acquire(0)];
    RunSnoc(ttl, actions, Get(0), d); actions := actions + [Get(0)];
    RunSnoc(ttl, actions, Tick(ttl), d); actions := actions + [Tick(ttl)];
    RunSnoc(ttl, actions, Acquire(1), d); actions := actions + [Acquire(1)];
    var s := Reached(ttl, actions, d);
    assert 0 in s.workers && 1 in s.workers;
  }

  /** Replay excludes itself, and never releases another worker's lock, exactly when every holder is
   *  done in less than the lock's TTL. */
  lemma LockSafeIffUnderTtl(ttl: nat, d: nat)
    requires ttl > 0
    ensures Exclusive(ttl, d) <==> d < ttl
    ensures NeverSteals(ttl, d) <==> d < ttl
  {
    if d < ttl {
      forall actions | Run(ttl, actions, d)
        ensures AtMostOneInside(Reached(ttl, actions, d))
        ensures forall a | Enabled(Reached(ttl, actions, d), a) :: !Steals(Reached(ttl, actions, d), a)
      {
        RunKeepsInv(ttl, actions, d);
        var s := Reached(ttl, actions, d);
      }
    } else {
      var actions := SlowWorkerOverlaps(ttl, d);
    }
  }
}

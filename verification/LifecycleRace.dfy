/** Status changes of one incident, with the read that allows a change and its write as separate steps.
 *
 *  The API acknowledges and resolves, and the sweep escalates, without a row lock: each reads the status,
 *  and writes what it decided whatever others have written since. A voice key press and the escalation task
 *  lock the row; theirs are the changes whose read and write nothing falls between.
 */
module LifecycleProtocol {
  import opened Prelude
  import opened Tables = State

  datatype Move = Ack | Escalation | Resolution

  datatype State = State(status: IncidentStatus, readers: map<nat, Move>)

  datatype Action = Read(p: nat, move: Move) | Write(p: nat)

  const INIT := State(OPEN, map[])

  predicate Allowed(status: IncidentStatus, m: Move) {
    if m == Resolution then status == ACKNOWLEDGED || status == ESCALATED else status == OPEN
  }

  function Target(m: Move): IncidentStatus {
    match m
    case Ack => ACKNOWLEDGED
    case Escalation => ESCALATED
    case Resolution => RESOLVED
  }

  predicate Enabled(s: State, a: Action) {
    match a
    case Read(p, _) => p !in s.readers
    case Write(p) => p in s.readers
  }

  function Step(s: State, a: Action): State
    requires Enabled(s, a)
  {
    match a
    case Read(p, m) => if Allowed(s.status, m) then s.(readers := s.readers[p := m]) else s
    case Write(p) => State(Target(s.readers[p]), s.readers - {p})
  }

  predicate Run(actions: seq<Action>)
    decreases |actions|, 0
  {
    actions == [] ||
    var n := |actions| - 1;
    Run(actions[..n]) && Enabled(Reached(actions[..n]), actions[n])
  }

  function Reached(actions: seq<Action>): State
    requires Run(actions)
    decreases |actions|, 1
  {
    if actions == [] then INIT else Step(Reached(actions[..|actions| - 1]), actions[|actions| - 1])
  }

  // ---------------------------------------------------------------- the audits

  function WriteOf(s: State, a: Action): Option<Move>
    requires Enabled(s, a)
  {
    if a.Write? then Some(s.readers[a.p]) else None
  }

  /** For each action of a run, the change it wrote, and with it the audit. */
  function Written(actions: seq<Action>): (moves: seq<Option<Move>>)
    requires Run(actions)
    ensures |moves| == |actions|
  {
    if actions == [] then []
    else
      var n := |actions| - 1;
      Written(actions[..n]) + [WriteOf(Reached(actions[..n]), actions[n])]
  }

  predicate Leaves(x: Option<Move>) { x == Some(Ack) || x == Some(Escalation) }

  /** ACK_RECEIVED and ESCALATED audits among the first n actions. */
  function Departures(moves: seq<Option<Move>>, n: nat): nat
    requires n <= |moves|
  {
    if n == 0 then 0 else Departures(moves, n - 1) + (if Leaves(moves[n - 1]) then 1 else 0)
  }

  function Resolutions(moves: seq<Option<Move>>, n: nat): nat
    requires n <= |moves|
  {
    if n == 0 then 0 else Resolutions(moves, n - 1) + (if moves[n - 1] == Some(Resolution) then 1 else 0)
  }

  /** An incident leaves OPEN at most once and is resolved at most once. */
  predicate Orderly(moves: seq<Option<Move>>, n: nat)
    requires n <= |moves|
  {
    Departures(moves, n) <= 1 && Resolutions(moves, n) <= 1
  }

  /** When, before the n-th action, p last read the status. */
  function ReadAt(actions: seq<Action>, p: nat, n: nat): (q: nat)
    requires n <= |actions|
    ensures q <= n
  {
    if n == 0 then 0
    else if actions[n - 1].Read? && actions[n - 1].p == p then n - 1
    else ReadAt(actions, p, n - 1)
  }

  /** Nothing was written by the actions from q to n. */
  predicate QuietSince(moves: seq<Option<Move>>, q: nat, n: nat)
    requires n <= |moves|
  {
    forall k: nat | q <= k < n :: moves[k].None?
  }

  /** No change was written between the read and the write of another. */
  predicate Undisturbed(actions: seq<Action>, moves: seq<Option<Move>>, n: nat)
    requires n <= |actions| == |moves|
  {
    forall j: nat | j < n && moves[j].Some? :: QuietSince(moves, ReadAt(actions, actions[j].p, j), j)
  }

  // ---------------------------------------------------------------- why

  /** What a reader that may go on knows of the writes before its read. */
  predicate Knows(actions: seq<Action>, moves: seq<Option<Move>>, m: Move, p: nat)
    requires |actions| == |moves|
  {
    var q := ReadAt(actions, p, |actions|);
    if m == Resolution then Departures(moves, q) >= 1 && (Orderly(moves, q) ==> Resolutions(moves, q) == 0)
    else QuietSince(moves, 0, q)
  }

  ghost predicate Kept(actions: seq<Action>, moves: seq<Option<Move>>, s: State)
    requires |actions| == |moves|
  {
    var n := |moves|;
    && (s.status == OPEN <==> QuietSince(moves, 0, n))
    && (Resolutions(moves, n) > 0 ==> Departures(moves, n) > 0)
    && (s.status == ACKNOWLEDGED || s.status == ESCALATED ==> Departures(moves, n) > 0)
    && (Orderly(moves, n) && Resolutions(moves, n) == 1 ==> s.status == RESOLVED)
    && (forall p | p in s.readers :: Knows(actions, moves, s.readers[p], p))
    && (Orderly(moves, n) <==> Undisturbed(actions, moves, n))
  }

  lemma {:induction false} CountsOn(moves: seq<Option<Move>>, x: Option<Move>, n: nat)
    requires n <= |moves|
    ensures Departures(moves + [x], n) == Departures(moves, n) && Resolutions(moves + [x], n) == Resolutions(moves, n)
  {
    if n > 0 {
      CountsOn(moves, x, n - 1);
    }
  }

  lemma CountsNext(moves: seq<Option<Move>>, x: Option<Move>)
    ensures Departures(moves + [x], |moves| + 1) == Departures(moves, |moves|) + (if Leaves(x) then 1 else 0)
    ensures Resolutions(moves + [x], |moves| + 1) ==
            Resolutions(moves, |moves|) + (if x == Some(Resolution) then 1 else 0)
  {
    CountsOn(moves, x, |moves|);
  }

  lemma {:induction false} QuietIffSameCounts(moves: seq<Option<Move>>, q: nat, n: nat)
    requires q <= n <= |moves|
    ensures Departures(moves, q) <= Departures(moves, n) && Resolutions(moves, q) <= Resolutions(moves, n)
    ensures QuietSince(moves, q, n) <==>
            Departures(moves, q) == Departures(moves, n) && Resolutions(moves, q) == Resolutions(moves, n)
    decreases n
  {
    if q < n {
      QuietIffSameCounts(moves, q, n - 1);
      match moves[n - 1] {
        case None =>
        case Some(m) => assert m.Ack? || m.Escalation? || m.Resolution?;
      }
    }
  }

  lemma QuietOn(moves: seq<Option<Move>>, x: Option<Move>, q: nat, n: nat)
    requires n <= |moves|
    ensures QuietSince(moves + [x], q, n) <==> QuietSince(moves, q, n)
  {
    assert forall k: nat | q <= k < n :: (moves + [x])[k] == moves[k];
  }

  lemma {:induction false} ReadOn(actions: seq<Action>, a: Action, p: nat, n: nat)
    requires n <= |actions|
    ensures ReadAt(actions + [a], p, n) == ReadAt(actions, p, n)
  {
    if n > 0 {
      ReadOn(actions, a, p, n - 1);
    }
  }

  lemma UndisturbedOn(actions: seq<Action>, moves: seq<Option<Move>>, a: Action, x: Option<Move>)
    requires |actions| == |moves|
    ensures Undisturbed(actions + [a], moves + [x], |actions|) <==> Undisturbed(actions, moves, |actions|)
  {
    forall j: nat | j < |actions| && moves[j].Some?
      ensures QuietSince(moves + [x], ReadAt(actions + [a], actions[j].p, j), j) <==>
              QuietSince(moves, ReadAt(actions, actions[j].p, j), j)
    {
      ReadOn(actions, a, actions[j].p, j);
      QuietOn(moves, x, ReadAt(actions, actions[j].p, j), j);
    }
    assert forall j: nat | j < |actions| :: (actions + [a])[j] == actions[j] && (moves + [x])[j] == moves[j];
  }

  lemma UndisturbedNext(actions: seq<Action>, moves: seq<Option<Move>>, n: nat)
    requires n < |actions| == |moves|
    ensures Undisturbed(actions, moves, n + 1) <==>
            Undisturbed(actions, moves, n) &&
            (moves[n].Some? ==> QuietSince(moves, ReadAt(actions, actions[n].p, n), n))
  {
  }

  lemma KnowsOn(actions: seq<Action>, moves: seq<Option<Move>>, a: Action, x: Option<Move>, m: Move, p: nat)
    requires |actions| == |moves| && Knows(actions, moves, m, p) && !(a.Read? && a.p == p)
    ensures Knows(actions + [a], moves + [x], m, p)
  {
    var q := ReadAt(actions, p, |actions|);
    ReadOn(actions, a, p, |actions|);
    CountsOn(moves, x, q);
    QuietOn(moves, x, 0, q);
  }

  /** A reader that may go on has just seen the status. */
  lemma ReaderKnows(actions: seq<Action>, moves: seq<Option<Move>>, s: State, a: Action)
    requires |actions| == |moves| && Kept(actions, moves, s) && Enabled(s, a) && a.Read? && Allowed(s.status, a.move)
    ensures Knows(actions + [a], moves + [None], a.move, a.p)
  {
    CountsOn(moves, None, |moves|);
    QuietOn(moves, None, 0, |moves|);
    QuietIffSameCounts(moves, 0, |moves|);
  }

  lemma ReadKeeps(actions: seq<Action>, moves: seq<Option<Move>>, s: State, a: Action)
    requires |actions| == |moves| && Kept(actions, moves, s) && Enabled(s, a) && a.Read?
    ensures Kept(actions + [a], moves + [None], Step(s, a))
  {
    var n := |moves|;
    CountsNext(moves, None);
    QuietOn(moves, None, 0, n);
    assert QuietSince(moves + [None], 0, n + 1) <==> QuietSince(moves + [None], 0, n);
    UndisturbedOn(actions, moves, a, None);
    UndisturbedNext(actions + [a], moves + [None], n);
    forall p | p in Step(s, a).readers ensures Knows(actions + [a], moves + [None], Step(s, a).readers[p], p) {
      if p == a.p {
        ReaderKnows(actions, moves, s, a);
      } else {
        KnowsOn(actions, moves, a, None, s.readers[p], p);
      }
    }
  }

  /** A write keeps the lifecycle in order exactly when nothing was written since its read. */
  lemma WriteOrderly(actions: seq<Action>, moves: seq<Option<Move>>, s: State, a: Action)
    requires |actions| == |moves| && Kept(actions, moves, s) && Enabled(s, a) && a.Write?
    ensures var x := Some(s.readers[a.p]);
            Orderly(moves + [x], |moves| + 1) <==> Undisturbed(actions + [a], moves + [x], |moves| + 1)
  {
    var n, m := |moves|, s.readers[a.p];
    var q := ReadAt(actions, a.p, n);
    assert Knows(actions, moves, m, a.p);
    CountsNext(moves, Some(m));
    UndisturbedOn(actions, moves, a, Some(m));
    UndisturbedNext(actions + [a], moves + [Some(m)], n);
    ReadOn(actions, a, a.p, n);
    QuietOn(moves, Some(m), q, n);
    QuietIffSameCounts(moves, q, n);
    QuietIffSameCounts(moves, 0, q);
  }

  lemma CountsStand(actions: seq<Action>, moves: seq<Option<Move>>, s: State, a: Action)
    requires |actions| == |moves| && Kept(actions, moves, s) && Enabled(s, a) && a.Write?
    ensures var m := s.readers[a.p]; var moves' := moves + [Some(m)];
            && Departures(moves', |moves'|) > 0
            && (Orderly(moves', |moves'|) && Resolutions(moves', |moves'|) == 1 ==> m == Resolution)
  {
    var n, m := |moves|, s.readers[a.p];
    CountsNext(moves, Some(m));
    assert Knows(actions, moves, m, a.p);
    QuietIffSameCounts(moves, ReadAt(actions, a.p, n), n);
  }

  lemma WriteKeeps(actions: seq<Action>, moves: seq<Option<Move>>, s: State, a: Action)
    requires |actions| == |moves| && Kept(actions, moves, s) && Enabled(s, a) && a.Write?
    ensures Kept(actions + [a], moves + [Some(s.readers[a.p])], Step(s, a))
  {
    var n, m := |moves|, s.readers[a.p];
    WriteOrderly(actions, moves, s, a);
    CountsNext(moves, Some(m));
    CountsStand(actions, moves, s, a);
    assert (moves + [Some(m)])[n].Some?;
    forall p | p in Step(s, a).readers ensures Knows(actions + [a], moves + [Some(m)], s.readers[p], p) {
      KnowsOn(actions, moves, a, Some(m), s.readers[p], p);
    }
  }

  lemma RunSnoc(actions: seq<Action>, a: Action)
    requires Run(actions) && Enabled(Reached(actions), a)
    ensures Run(actions + [a]) && Reached(actions + [a]) == Step(Reached(actions), a)
    ensures Written(actions + [a]) == Written(actions) + [WriteOf(Reached(actions), a)]
  {
    assert (actions + [a])[..|actions|] == actions;
  }

  lemma KeptNext(front: seq<Action>, a: Action, actions: seq<Action>)
    requires Run(front) && Kept(front, Written(front), Reached(front)) && Enabled(Reached(front), a)
    requires actions == front + [a]
    ensures Run(actions) && Kept(actions, Written(actions), Reached(actions))
  {
    RunSnoc(front, a);
    if a.Read? {
      ReadKeeps(front, Written(front), Reached(front), a);
    } else {
      WriteKeeps(front, Written(front), Reached(front), a);
    }
  }

  lemma {:induction false} RunKeeps(actions: seq<Action>)
    requires Run(actions)
    ensures Kept(actions, Written(actions), Reached(actions))
  {
    if actions != [] {
      var n := |actions| - 1;
      RunKeeps(actions[..n]);
      KeptNext(actions[..n], actions[n], actions);
    }
  }

  /** Over every interleaving an incident has at most one ACK_RECEIVED or ESCALATED audit and at most one
   *  resolution if and only if no change was written between the read and the write of another. */
  lemma OrderlyIffUndisturbed(actions: seq<Action>)
    requires Run(actions)
    ensures var moves, n := Written(actions), |actions|; Orderly(moves, n) <==> Undisturbed(actions, moves, n)
  {
    RunKeeps(actions);
  }

  lemma Go(actions: seq<Action>, s: State, a: Action) returns (more: seq<Action>)
    requires Run(actions) && s == Reached(actions) && Enabled(s, a)
    ensures Run(more) && |more| == |actions| + 1 && Reached(more) == Step(s, a)
    ensures Written(more) == Written(actions) + [WriteOf(s, a)]
  {
    RunSnoc(actions, a);
    more := actions + [a];
  }

  /** Two that may leave OPEN have read it. */
  lemma TwoRead(m: Move) returns (actions: seq<Action>)
    requires m != Resolution
    ensures Run(actions) && |actions| == 2 && Written(actions) == [None, None]
    ensures Reached(actions) == State(OPEN, map[0 := Ack, 1 := m])
  {
    actions := Go([], INIT, Read(0, Ack));
    actions := Go(actions, State(OPEN, map[0 := Ack]), Read(1, m));
  }

  /** Two acknowledgements that read before either writes are both accepted. */
  lemma TwoReadersAcknowledge() returns (actions: seq<Action>)
    ensures Run(actions) && Departures(Written(actions), |actions|) == 2
  {
    actions := TwoRead(Ack);
    actions := Go(actions, Reached(actions), Write(0));
    actions := Go(actions, State(ACKNOWLEDGED, map[1 := Ack]), Write(1));
    var moves := [None, None, Some(Ack), Some(Ack)];
    assert Written(actions) == moves;
    assert Departures(moves, 1) == 0;
    assert Departures(moves, 2) == 0;
    assert Departures(moves, 3) == 1;
  }

  lemma ResolvedMeanwhile() returns (actions: seq<Action>)
    ensures Run(actions) && |actions| == 5
    ensures Written(actions) == [None, None, Some(Escalation), None, Some(Resolution)]
    ensures Reached(actions) == State(RESOLVED, map[0 := Ack])
  {
    actions := TwoRead(Escalation);
    actions := Go(actions, Reached(actions), Write(1));
    actions := Go(actions, State(ESCALATED, map[0 := Ack]), Read(2, Resolution));
    actions := Go(actions, State(ESCALATED, map[0 := Ack, 2 := Resolution]), Write(2));
  }

  /** A stale acknowledgement even takes an incident out of RESOLVED. */
  lemma StaleReaderReopens() returns (actions: seq<Action>)
    ensures Run(actions) && Resolutions(Written(actions), |actions|) == 1 && Reached(actions).status == ACKNOWLEDGED
  {
    actions := ResolvedMeanwhile();
    actions := Go(actions, State(RESOLVED, map[0 := Ack]), Write(0));
    var moves := [None, None, Some(Escalation), None, Some(Resolution), Some(Ack)];
    assert Written(actions) == moves;
    OneResolution(moves);
  }

  lemma OneResolution(moves: seq<Option<Move>>)
    requires moves == [None, None, Some(Escalation), None, Some(Resolution), Some(Ack)]
    ensures Resolutions(moves, 6) == 1
  {
    assert Resolutions(moves, 1) == 0;
    assert Resolutions(moves, 3) == 0;
    assert Resolutions(moves, 4) == 0;
    assert Resolutions(moves, 5) == 1;
  }
}

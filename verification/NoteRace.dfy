/** Get-or-create of a notification with its query and its insert as separate steps.
 *
 *  The table has no constraint on incident, contact and channel, so a worker that found no row inserts one
 *  whatever others have inserted since.
 */
module NoteProtocol {
  import opened Prelude
  import opened Fanout

  /** finders: the workers that found no row for their key. */
  datatype State = State(rows: seq<NoteKey>, finders: map<nat, NoteKey>)

  datatype Action = Find(p: nat, key: NoteKey) | Insert(p: nat)

  const INIT := State([], map[])

  predicate Enabled(s: State, a: Action) {
    match a
    case Find(p, _) => p !in s.finders
    case Insert(p) => p in s.finders
  }

  function Step(s: State, a: Action): State
    requires Enabled(s, a)
  {
    match a
    case Find(p, key) => if key in s.rows then s else s.(finders := s.finders[p := key])
    case Insert(p) => State(s.rows + [s.finders[p]], s.finders - {p})
  }

  predicate Run(actions: seq<Action>)
    decreases |actions|, 0
  {
    actions == [] ||
    var n := |actions| - 1;
    Run(actions[..n]) && Enabled(Reached(actions[..n]), actions[n])
  }

  function Reached(actions: seq<Action>): State
    requires Run(actions)
    decreases |actions|, 1
  {
    if actions == [] then INIT else Step(Reached(actions[..|actions| - 1]), actions[|actions| - 1])
  }

  predicate UniqueKeys(rows: seq<NoteKey>) {
    forall i: nat, j: nat | i < j < |rows| :: rows[i] != rows[j]
  }

  function InsertOf(s: State, a: Action): Option<NoteKey>
    requires Enabled(s, a)
  {
    if a.Insert? then Some(s.finders[a.p]) else None
  }

  /** For each action of a run, the key it inserted a row for. */
  function Inserted(actions: seq<Action>): (ins: seq<Option<NoteKey>>)
    requires Run(actions)
    ensures |ins| == |actions|
  {
    if actions == [] then []
    else
      var n := |actions| - 1;
      Inserted(actions[..n]) + [InsertOf(Reached(actions[..n]), actions[n])]
  }

  /** When, before the n-th action, worker p last looked for its row. */
  function FoundAt(actions: seq<Action>, p: nat, n: nat): (q: nat)
    requires n <= |actions|
    ensures q <= n
  {
    if n == 0 then 0
    else if actions[n - 1].Find? && actions[n - 1].p == p then n - 1
    else FoundAt(actions, p, n - 1)
  }

  /** No other worker inserted the key of any insert between its find and the insert. */
  predicate Undisturbed(actions: seq<Action>, ins: seq<Option<NoteKey>>, n: nat)
    requires n <= |actions| == |ins|
  {
    forall j: nat | j < n && ins[j].Some? :: Absent(ins, ins[j], FoundAt(actions, actions[j].p, j), j)
  }

  /** The rows are of the keys inserted, and a worker that found none looked before its key was inserted. */
  ghost predicate Kept(actions: seq<Action>, ins: seq<Option<NoteKey>>, s: State)
    requires |actions| == |ins|
  {
    && (forall k :: RowsOf(ins, s.rows, k))
    && (forall p | p in s.finders :: FoundNone(actions, ins, s.finders[p], p))
    && (UniqueKeys(s.rows) <==> Undisturbed(actions, ins, |actions|))
  }

  predicate RowsOf(ins: seq<Option<NoteKey>>, rows: seq<NoteKey>, k: NoteKey) {
    k in rows <==> !Absent(ins, Some(k), 0, |ins|)
  }

  predicate FoundNone(actions: seq<Action>, ins: seq<Option<NoteKey>>, k: NoteKey, p: nat)
    requires |actions| == |ins|
  {
    Absent(ins, Some(k), 0, FoundAt(actions, p, |actions|))
  }

  lemma {:induction false} FoundOn(actions: seq<Action>, a: Action, p: nat, n: nat)
    requires n <= |actions|
    ensures FoundAt(actions + [a], p, n) == FoundAt(actions, p, n)
  {
    if n > 0 {
      FoundOn(actions, a, p, n - 1);
    }
  }

  lemma UndisturbedOn(actions: seq<Action>, ins: seq<Option<NoteKey>>, a: Action, x: Option<NoteKey>)
    requires |actions| == |ins|
    ensures Undisturbed(actions + [a], ins + [x], |actions|) <==> Undisturbed(actions, ins, |actions|)
  {
    forall j: nat | j < |actions| && ins[j].Some?
      ensures Absent(ins + [x], ins[j], FoundAt(actions + [a], actions[j].p, j), j) <==>
              Absent(ins, ins[j], FoundAt(actions, actions[j].p, j), j)
    {
      FoundOn(actions, a, actions[j].p, j);
      AbsentOn(ins, x, ins[j], FoundAt(actions, actions[j].p, j), j);
    }
    assert forall j: nat | j < |actions| :: (actions + [a])[j] == actions[j] && (ins + [x])[j] == ins[j];
  }

  lemma FoundNoneOn(actions: seq<Action>, ins: seq<Option<NoteKey>>, a: Action, x: Option<NoteKey>, k: NoteKey, p: nat)
    requires |actions| == |ins| && FoundNone(actions, ins, k, p) && !(a.Find? && a.p == p)
    ensures FoundNone(actions + [a], ins + [x], k, p)
  {
    FoundOn(actions, a, p, |actions|);
    AbsentOn(ins, x, Some(k), 0, FoundAt(actions, p, |actions|));
  }

  lemma FindStands(actions: seq<Action>, ins: seq<Option<NoteKey>>, s: State, a: Action, p: nat)
    requires |actions| == |ins| && Kept(actions, ins, s) && Enabled(s, a) && a.Find? && p in Step(s, a).finders
    ensures FoundNone(actions + [a], ins + [None], Step(s, a).finders[p], p)
  {
    if p == a.p {
      assert RowsOf(ins, s.rows, a.key);
      AbsentOn(ins, None, Some(a.key), 0, |actions|);
    } else {
      FoundNoneOn(actions, ins, a, None, s.finders[p], p);
    }
  }

  /** A find writes nothing. */
  lemma FindKeeps(actions: seq<Action>, ins: seq<Option<NoteKey>>, s: State, a: Action)
    requires |actions| == |ins| && Kept(actions, ins, s) && Enabled(s, a) && a.Find?
    ensures Kept(actions + [a], ins + [None], Step(s, a))
  {
    UndisturbedOn(actions, ins, a, None);
    QuietUndisturbed(actions + [a], ins + [None], |actions|);
    forall k ensures RowsOf(ins + [None], Step(s, a).rows, k) {
      assert RowsOf(ins, s.rows, k);
      AbsentNext(ins, None, Some(k), 0);
    }
    forall p | p in Step(s, a).finders ensures FoundNone(actions + [a], ins + [None], Step(s, a).finders[p], p) {
      FindStands(actions, ins, s, a, p);
    }
  }

  lemma QuietUndisturbed(actions: seq<Action>, ins: seq<Option<NoteKey>>, n: nat)
    requires n < |actions| == |ins| && ins[n].None?
    ensures Undisturbed(actions, ins, n + 1) <==> Undisturbed(actions, ins, n)
  {
  }

  /** An insert keeps keys unique exactly when its key was not inserted since the find. */
  lemma InsertUnique(actions: seq<Action>, ins: seq<Option<NoteKey>>, s: State, a: Action)
    requires |actions| == |ins| && Kept(actions, ins, s) && Enabled(s, a) && a.Insert?
    ensures var k := s.finders[a.p];
            UniqueKeys(s.rows + [k]) <==> Undisturbed(actions + [a], ins + [Some(k)], |actions| + 1)
  {
    var n, k := |actions|, s.finders[a.p];
    var q := FoundAt(actions, a.p, n);
    UniqueOn(s.rows, k);
    UndisturbedOn(actions, ins, a, Some(k));
    LastDisturbs(actions + [a], ins + [Some(k)], n);
    FoundOn(actions, a, a.p, n);
    AbsentOn(ins, Some(k), Some(k), q, n);
    assert RowsOf(ins, s.rows, k) && FoundNone(actions, ins, k, a.p);
    AbsentSplit(ins, Some(k), q, n);
  }

  lemma InsertKeeps(actions: seq<Action>, ins: seq<Option<NoteKey>>, s: State, a: Action)
    requires |actions| == |ins| && Kept(actions, ins, s) && Enabled(s, a) && a.Insert?
    ensures Kept(actions + [a], ins + [Some(s.finders[a.p])], Step(s, a))
  {
    var k := s.finders[a.p];
    InsertUnique(actions, ins, s, a);
    forall x ensures RowsOf(ins + [Some(k)], s.rows + [k], x) {
      assert RowsOf(ins, s.rows, x);
      AbsentNext(ins, Some(k), Some(x), 0);
    }
    forall p | p in Step(s, a).finders ensures FoundNone(actions + [a], ins + [Some(k)], s.finders[p], p) {
      FoundNoneOn(actions, ins, a, Some(k), s.finders[p], p);
    }
  }

  lemma LastDisturbs(actions: seq<Action>, ins: seq<Option<NoteKey>>, n: nat)
    requires n < |actions| == |ins| && ins[n].Some?
    ensures Undisturbed(actions, ins, n + 1) <==>
            Undisturbed(actions, ins, n) && Absent(ins, ins[n], FoundAt(actions, actions[n].p, n), n)
  {
  }

  lemma UniqueOn(rows: seq<NoteKey>, k: NoteKey)
    ensures UniqueKeys(rows + [k]) <==> UniqueKeys(rows) && k !in rows
  {
    assert forall i: nat | i < |rows| :: (rows + [k])[i] == rows[i];
    assert (rows + [k])[|rows|] == k;
  }

  lemma {:induction false} RunKeeps(actions: seq<Action>)
    requires Run(actions)
    ensures Kept(actions, Inserted(actions), Reached(actions))
  {
    if actions != [] {
      var n := |actions| - 1;
      RunKeeps(actions[..n]);
      KeptNext(actions[..n], actions[n], actions);
    }
  }

  lemma KeptNext(front: seq<Action>, a: Action, actions: seq<Action>)
    requires Run(front) && Kept(front, Inserted(front), Reached(front)) && Enabled(Reached(front), a)
    requires actions == front + [a]
    ensures Run(actions) && Kept(actions, Inserted(actions), Reached(actions))
  {
    RunSnoc(front, a);
    assert Inserted(actions) == Inserted(front) + [InsertOf(Reached(front), a)];
    if a.Find? {
      FindKeeps(front, Inserted(front), Reached(front), a);
    } else {
      InsertKeeps(front, Inserted(front), Reached(front), a);
    }
  }

  /** Over every interleaving there is at most one row per incident, contact and channel if and only if no
   *  insert of a key fell between another worker's find of it and its insert. */
  lemma UniqueIffUndisturbed(actions: seq<Action>)
    requires Run(actions)
    ensures UniqueKeys(Reached(actions).rows) <==> Undisturbed(actions, Inserted(actions), |actions|)
  {
    RunKeeps(actions);
  }

  lemma RunSnoc(actions: seq<Action>, a: Action)
    requires Run(actions) && Enabled(Reached(actions), a)
    ensures Run(actions + [a]) && Reached(actions + [a]) == Step(Reached(actions), a)
  {
    assert (actions + [a])[..|actions|] == actions;
  }

  /** Two dispatchers that look before either inserts leave two rows for any key. */
  lemma TwoFindersInsertTwo(k: NoteKey) returns (actions: seq<Action>)
    ensures Run(actions) && Reached(actions).rows == [k, k]
  {
    actions := [];
    RunSnoc(actions, Find(0, k)); actions := actions + [Find(0, k)];
    RunSnoc(actions, Find(1, k)); actions := actions + [Find(1, k)];
    RunSnoc(actions, Insert(0)); actions := actions + [Insert(0)];
    RunSnoc(actions, Insert(1)); actions := actions + [Insert(1)];
  }
}

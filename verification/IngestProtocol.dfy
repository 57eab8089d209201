/** Two-layer ingest dedupe as an interleaved protocol.
 *
 *  ingest_event queries for an OPEN incident, claims the key in Redis and inserts, as three separate
 *  steps; any number of handlers run them at once, between status changes and clock ticks. A status
 *  change may set any status but OPEN on any row at any time: that covers acknowledgement, escalation,
 *  the sweeper, resolution and every lost update among them.
 */
module IngestProtocol {
  import opened Prelude
  import opened Tables = State
  import Guards

  const TTL: nat := Guards.EVENT_TTL

  datatype Incoming = Incoming(source: string, externalId: string, key: Option<string>)

  datatype Row = Row(event: Incoming, status: IncidentStatus, occurrences: nat, claimedAt: nat, createdAt: nat)

  datatype Phase =
    | Missed(event: Incoming, since: nat)                      // the query at `since` found no OPEN incident
    | Claimed(event: Incoming, since: nat, claimedAt: nat)     // the key was new, the insert is to come
    | Refreshing(id: nat, seen: nat)                           // the query found row id

  datatype State = State(now: nat, gates: map<string, nat>, rows: seq<Row>, handlers: map<nat, Phase>)

  datatype Action =
    | Tick(d: nat)
    | Query(p: nat, event: Incoming)
    | Claim(p: nat)
    | Insert(p: nat)
    | Refresh(p: nat)
    | SetStatus(id: nat, status: IncidentStatus)

  const INIT := State(0, map[], [], map[])

  predicate OpenFor(row: Row, key: string) {
    row.status == OPEN && row.event.key == Some(key)
  }

  predicate Enabled(s: State, a: Action) {
    match a
    case Tick(_) => true
    case Query(p, _) => p !in s.handlers
    case Claim(p) => p in s.handlers && s.handlers[p].Missed?
    case Insert(p) => p in s.handlers && s.handlers[p].Claimed?
    case Refresh(p) => p in s.handlers && s.handlers[p].Refreshing? && s.handlers[p].id < |s.rows|
    case SetStatus(id, status) => id < |s.rows| && status != OPEN
  }

  predicate Conflicts(rows: seq<Row>, e: Incoming) {
    exists i: nat | i < |rows| :: rows[i].event.source == e.source && rows[i].event.externalId == e.externalId
  }

  function Step(s: State, a: Action): State
    requires Enabled(s, a)
  {
    match a
    case Tick(d) => s.(now := s.now + d)
    case Query(p, e) =>
      // the latest OPEN row with the key: rows are in the order of their creation
      var found := if e.key.Some? then LastWhere(s.rows, (r: Row) => OpenFor(r, e.key.value)) else None;
      if found.Some? then s.(handlers := s.handlers[p := Refreshing(found.value, s.rows[found.value].occurrences)])
      else s.(handlers := s.handlers[p := Missed(e, s.now)])
    case Claim(p) =>
      var h := s.handlers[p];
      if h.event.key.None? then s.(handlers := s.handlers[p := Claimed(h.event, h.since, s.now)])
      else
        var key := h.event.key.value;
        if key in s.gates && s.now < s.gates[key] then s.(handlers := s.handlers - {p})
        else s.(gates := s.gates[key := s.now + TTL],
                handlers := s.handlers[p := Claimed(h.event, h.since, s.now)])
    case Insert(p) =>
      var h := s.handlers[p];
      s.(handlers := s.handlers - {p},
         rows := if Conflicts(s.rows, h.event) then s.rows
                 else s.rows + [Row(h.event, OPEN, 1, h.claimedAt, s.now)])
    case Refresh(p) =>
      var h := s.handlers[p];
      s.(handlers := s.handlers - {p},
         rows := s.rows[h.id := s.rows[h.id].(occurrences := h.seen + 1)])
    case SetStatus(id, status) => s.(rows := s.rows[id := s.rows[id].(status := status)])
  }

  /** Every handler that inserts commits within d of its query. */
  predicate Timely(s: State, a: Action, d: nat)
    requires Enabled(s, a)
  {
    a.Insert? ==> s.now <= s.handlers[a.p].since + d
  }

  predicate Run(actions: seq<Action>, d: nat)
    decreases |actions|, 0
  {
    actions == [] ||
    var n := |actions| - 1;
    Run(actions[..n], d) && Enabled(Reached(actions[..n], d), actions[n]) &&
        Timely(Reached(actions[..n], d), actions[n], d)
  }

  function Reached(actions: seq<Action>, d: nat): State
    requires Run(actions, d)
    decreases |actions|, 1
  {
    if actions == [] then INIT
    else Step(Reached(actions[..|actions| - 1], d), actions[|actions| - 1])
  }

  /** At most one OPEN incident per dedupe key. */
  ghost predicate OneOpenPerKey(s: State) {
    forall i: nat, j: nat | i < j < |s.rows| && s.rows[i].status == OPEN && s.rows[j].status == OPEN ::
      s.rows[i].event.key.None? || s.rows[i].event.key != s.rows[j].event.key
  }

  // ---------------------------------------------------------------- why it holds

  predicate Apart(a: nat, b: nat) { a + TTL <= b || b + TTL <= a }

  predicate SameKey(e: Incoming, f: Incoming) { e.key.Some? && e.key == f.key }

  /** The gate of a key outlives every claim on it by TTL, and no claim lies in the future. */
  ghost predicate ClaimsGated(s: State) {
    && (forall p | p in s.handlers && s.handlers[p].Claimed? && s.handlers[p].event.key.Some? ::
          var h := s.handlers[p];
          h.event.key.value in s.gates && h.claimedAt + TTL <= s.gates[h.event.key.value])
    && (forall i: nat | i < |s.rows| && s.rows[i].event.key.Some? ::
          var r := s.rows[i];
          r.event.key.value in s.gates && r.claimedAt + TTL <= s.gates[r.event.key.value])
  }

  ghost predicate TimesOrdered(s: State, d: nat) {
    && (forall p | p in s.handlers && !s.handlers[p].Refreshing? :: s.handlers[p].since <= s.now)
    && (forall p | p in s.handlers && s.handlers[p].Claimed? ::
          s.handlers[p].since <= s.handlers[p].claimedAt <= s.now)
    && (forall i: nat | i < |s.rows| :: s.rows[i].claimedAt <= s.rows[i].createdAt <= s.now &&
                                        s.rows[i].createdAt <= s.rows[i].claimedAt + d)
  }

  /** Claims on one key by different handlers are a full TTL apart. */
  ghost predicate ClaimsApart(s: State) {
    && (forall p, q | p in s.handlers && q in s.handlers && p != q &&
                      s.handlers[p].Claimed? && s.handlers[q].Claimed? &&
                      SameKey(s.handlers[p].event, s.handlers[q].event) ::
          Apart(s.handlers[p].claimedAt, s.handlers[q].claimedAt))
    && (forall p, i: nat | p in s.handlers && i < |s.rows| && s.handlers[p].Claimed? &&
                           SameKey(s.handlers[p].event, s.rows[i].event) ::
          Apart(s.handlers[p].claimedAt, s.rows[i].claimedAt))
  }

  /** An OPEN row the query did not see was inserted after it: no status ever returns to OPEN. */
  ghost predicate UnseenIsLater(s: State) {
    forall p, i: nat | p in s.handlers && i < |s.rows| && !s.handlers[p].Refreshing? &&
                       s.rows[i].status == OPEN && SameKey(s.handlers[p].event, s.rows[i].event) ::
      s.handlers[p].since <= s.rows[i].createdAt
  }

  ghost predicate Inv(s: State, d: nat) {
    ClaimsGated(s) && TimesOrdered(s, d) && ClaimsApart(s) && UnseenIsLater(s) && OneOpenPerKey(s)
  }

  /** The timing argument: a handler that inserts in time finds no OPEN row with its key. */
  lemma InsertFindsNone(s: State, p: nat, i: nat, d: nat)
    requires Inv(s, d) && 2 * d < TTL && p in s.handlers && s.handlers[p].Claimed? && i < |s.rows|
    requires s.now <= s.handlers[p].since + d
    requires SameKey(s.handlers[p].event, s.rows[i].event)
    ensures s.rows[i].status != OPEN
  {
    var h, r := s.handlers[p], s.rows[i];
    assert Apart(h.claimedAt, r.claimedAt);
    assert h.since <= h.claimedAt && r.claimedAt <= r.createdAt <= r.claimedAt + d;
  }

  lemma GatesKept(s: State, a: Action, d: nat)
    requires ClaimsGated(s) && Enabled(s, a) && TimesOrdered(s, d)
    ensures ClaimsGated(Step(s, a))
  {
  }

  lemma TimesKept(s: State, a: Action, d: nat)
    requires TimesOrdered(s, d) && Enabled(s, a) && Timely(s, a, d)
    ensures TimesOrdered(Step(s, a), d)
  {
  }

  lemma ClaimsKept(s: State, a: Action, d: nat)
    requires ClaimsGated(s) && ClaimsApart(s) && Enabled(s, a)
    ensures ClaimsApart(Step(s, a))
  {
  }

  lemma UnseenKept(s: State, a: Action, d: nat)
    requires UnseenIsLater(s) && TimesOrdered(s, d) && Enabled(s, a)
    ensures UnseenIsLater(Step(s, a))
  {
  }

  lemma StepKeepsInv(s: State, a: Action, d: nat)
    requires Inv(s, d) && 2 * d < TTL && Enabled(s, a) && Timely(s, a, d)
    ensures Inv(Step(s, a), d)
  {
    GatesKept(s, a, d);
    TimesKept(s, a, d);
    ClaimsKept(s, a, d);
    UnseenKept(s, a, d);
    assert OneOpenPerKey(Step(s, a)) by {
      if a.Insert? {
        forall i: nat | i < |s.rows| && SameKey(s.handlers[a.p].event, s.rows[i].event)
          ensures s.rows[i].status != OPEN
        {
          InsertFindsNone(s, a.p, i, d);
        }
      }
    }
  }

  lemma {:induction false} RunKeepsInv(actions: seq<Action>, d: nat)
    requires 2 * d < TTL && Run(actions, d)
    ensures Inv(Reached(actions, d), d)
  {
    if actions != [] {
      var n := |actions| - 1;
      RunKeepsInv(actions[..n], d);
      StepKeepsInv(Reached(actions[..n], d), actions[n], d);
    }
  }

  // ---------------------------------------------------------------- what one handler's step does

  /** Row i is the latest OPEN one with the event's key. */
  ghost predicate LatestOpen(rows: seq<Row>, e: Incoming, i: nat) {
    i < |rows| && rows[i].status == OPEN && SameKey(e, rows[i].event) &&
    forall j: nat | i < j < |rows| && SameKey(e, rows[j].event) :: rows[j].status != OPEN
  }

  /** The query finds an incident exactly when one is OPEN with the key, and then the latest. */
  lemma QueryDecides(s: State, p: nat, e: Incoming)
    requires p !in s.handlers
    ensures var h := Step(s, Query(p, e)).handlers[p];
            && (h == Missed(e, s.now) <==>
                  forall i: nat | i < |s.rows| && SameKey(e, s.rows[i].event) :: s.rows[i].status != OPEN)
            && (forall i: nat :: LatestOpen(s.rows, e, i) <==>
                  i < |s.rows| && h == Refreshing(i, s.rows[i].occurrences))
  {
    if e.key.Some? {
      var found := LastWhere(s.rows, (r: Row) => OpenFor(r, e.key.value));
      assert forall i: nat | i < |s.rows| && SameKey(e, s.rows[i].event) :: s.rows[i].event.key == e.key;
      if found.Some? {
        assert OpenFor(s.rows[found.value], e.key.value);
      }
    }
  }

  /** Time at which the latest claim on the key in the run was let through. */
  function LastClaim(actions: seq<Action>, d: nat, key: string): Option<nat>
    requires Run(actions, d)
  {
    if actions == [] then None
    else
      var n := |actions| - 1;
      var s, a := Reached(actions[..n], d), actions[n];
      if a.Claim? && s.handlers[a.p].event.key == Some(key) && a.p in Step(s, a).handlers then Some(s.now)
      else LastClaim(actions[..n], d, key)
  }

  /** A key's gate is the latest claim on it that was let through, and lasts 300 seconds. */
  lemma {:induction false} GateIsLastClaim(actions: seq<Action>, d: nat, key: string)
    requires Run(actions, d)
    ensures match LastClaim(actions, d, key)
            case None => key !in Reached(actions, d).gates
            case Some(t) => key in Reached(actions, d).gates && Reached(actions, d).gates[key] == t + 300 * 1000
  {
    if actions != [] {
      GateIsLastClaim(actions[..|actions| - 1], d, key);
    }
  }

  /** A handler goes on to its insert exactly when its event has no key or the latest claim on the key that was
   *  let through is 300 seconds old; else it is done. */
  lemma ClaimPassesIffExpired(actions: seq<Action>, d: nat, p: nat)
    requires Run(actions, d) && Enabled(Reached(actions, d), Claim(p))
    ensures var s := Reached(actions, d);
            var e, s' := s.handlers[p].event, Step(s, Claim(p));
            && s'.rows == s.rows && (p in s'.handlers ==> s'.handlers[p] == Claimed(e, s.handlers[p].since, s.now))
            && (p in s'.handlers <==>
                  e.key.Some? ==> match LastClaim(actions, d, e.key.value)
                                  case None => true
                                  case Some(t) => t + 300 * 1000 <= s.now)
  {
    var e := Reached(actions, d).handlers[p].event;
    if e.key.Some? {
      GateIsLastClaim(actions, d, e.key.value);
    }
  }

  predicate SameSource(e: Incoming, f: Incoming) { e.source == f.source && e.externalId == f.externalId }

  /** An insert opens an incident exactly when none came from the same source with the same external id. */
  lemma InsertDecides(s: State, p: nat)
    requires Enabled(s, Insert(p))
    ensures var e, s' := s.handlers[p].event, Step(s, Insert(p));
            if forall i: nat | i < |s.rows| :: !SameSource(s.rows[i].event, e)
            then s'.rows == s.rows + [Row(e, OPEN, 1, s.handlers[p].claimedAt, s.now)]
            else s'.rows == s.rows
  {
    var e := s.handlers[p].event;
    assert forall i: nat | i < |s.rows| :: SameSource(s.rows[i].event, e) <==>
             s.rows[i].event.source == e.source && s.rows[i].event.externalId == e.externalId;
  }

  ghost predicate UniqueSources(rows: seq<Row>) {
    forall i: nat, j: nat | i < j < |rows| :: !SameSource(rows[i].event, rows[j].event)
  }

  /** Whatever the handlers' speed, no two incidents come from one source with one external id. */
  lemma {:induction false} SourcesStayUnique(actions: seq<Action>, d: nat)
    requires Run(actions, d)
    ensures UniqueSources(Reached(actions, d).rows)
  {
    if actions != [] {
      var n := |actions| - 1;
      SourcesStayUnique(actions[..n], d);
      if actions[n].Insert? {
        InsertDecides(Reached(actions[..n], d), actions[n].p);
      }
    }
  }

  // ---------------------------------------------------------------- counting under races

  /** The row for which an action accepts an event: one it inserts, or one it refreshes. An insert that
   *  meets its (source, external id) is answered "ignored". */
  function AcceptsFor(s: State, a: Action): Option<nat>
    requires Enabled(s, a)
  {
    match a
    case Insert(p) => if Conflicts(s.rows, s.handlers[p].event) then None else Some(|s.rows|)
    case Refresh(p) => Some(s.handlers[p].id)
    case _ => None
  }

  /** For each action of a run, the row it accepted an event for. */
  function Accepted(actions: seq<Action>, d: nat): (acc: seq<Option<nat>>)
    requires Run(actions, d)
    ensures |acc| == |actions|
  {
    if actions == [] then []
    else
      var n := |actions| - 1;
      Accepted(actions[..n], d) + [AcceptsFor(Reached(actions[..n], d), actions[n])]
  }

  /** How many of the first n actions accepted an event for the row. */
  function Accepts(acc: seq<Option<nat>>, id: nat, n: nat): nat
    requires n <= |acc|
  {
    if n == 0 then 0 else Accepts(acc, id, n - 1) + (if acc[n - 1] == Some(id) then 1 else 0)
  }

  /** When, before the n-th action, handler p last made its query. */
  function QueriedAt(actions: seq<Action>, p: nat, n: nat): (q: nat)
    requires n <= |actions|
    ensures q <= n
  {
    if n == 0 then 0
    else if actions[n - 1].Query? && actions[n - 1].p == p then n - 1
    else QueriedAt(actions, p, n - 1)
  }

  /** No event was accepted for the row by the actions from q to j. */
  predicate QuietSince(acc: seq<Option<nat>>, id: nat, q: nat, j: nat)
    requires j <= |acc|
  {
    Absent(acc, Some(id), q, j)
  }

  /** Among the first n actions, no other event was accepted for the row between the query and the write of
   *  any of its refreshes. */
  predicate Undisturbed(actions: seq<Action>, acc: seq<Option<nat>>, id: nat, n: nat)
    requires n <= |actions| == |acc|
  {
    forall j: nat | j < n && actions[j].Refresh? && acc[j] == Some(id) ::
      QuietSince(acc, id, QueriedAt(actions, actions[j].p, j), j)
  }

  /** A count agrees with the events accepted in the first n actions, or is too low for good. */
  predicate Agrees(actions: seq<Action>, acc: seq<Option<nat>>, id: nat, n: nat, count: nat)
    requires n <= |actions| == |acc|
  {
    count <= Accepts(acc, id, n) && (count == Accepts(acc, id, n) <==> Undisturbed(actions, acc, id, n))
  }

  ghost predicate Tallied(actions: seq<Action>, acc: seq<Option<nat>>, s: State, id: nat)
    requires |actions| == |acc|
  {
    && (if id < |s.rows| then Agrees(actions, acc, id, |actions|, s.rows[id].occurrences)
        else Accepts(acc, id, |actions|) == 0)
    && (forall p | p in s.handlers && s.handlers[p].Refreshing? :: s.handlers[p].id < |s.rows|)
    && (forall p | p in s.handlers && s.handlers[p].Refreshing? && s.handlers[p].id == id ::
          Agrees(actions, acc, id, QueriedAt(actions, p, |actions|), s.handlers[p].seen))
  }

  lemma {:induction false} QuietIffSameCount(acc: seq<Option<nat>>, id: nat, q: nat, j: nat)
    requires q <= j <= |acc|
    ensures Accepts(acc, id, q) <= Accepts(acc, id, j)
    ensures Accepts(acc, id, q) == Accepts(acc, id, j) <==> QuietSince(acc, id, q, j)
    decreases j
  {
    if q < j {
      QuietIffSameCount(acc, id, q, j - 1);
    }
  }

  lemma {:induction false} AcceptsOn(acc: seq<Option<nat>>, x: Option<nat>, id: nat, n: nat)
    requires n <= |acc|
    ensures Accepts(acc + [x], id, n) == Accepts(acc, id, n)
  {
    if n > 0 {
      AcceptsOn(acc, x, id, n - 1);
    }
  }

  lemma {:induction false} QueriedOn(actions: seq<Action>, a: Action, p: nat, n: nat)
    requires n <= |actions|
    ensures QueriedAt(actions + [a], p, n) == QueriedAt(actions, p, n)
  {
    if n > 0 {
      QueriedOn(actions, a, p, n - 1);
    }
  }

  lemma QuietOn(acc: seq<Option<nat>>, x: Option<nat>, id: nat, q: nat, j: nat)
    requires j <= |acc|
    ensures QuietSince(acc + [x], id, q, j) <==> QuietSince(acc, id, q, j)
  {
    assert forall k: nat | q <= k < j :: (acc + [x])[k] == acc[k];
  }

  lemma UndisturbedOn(actions: seq<Action>, acc: seq<Option<nat>>, a: Action, x: Option<nat>, id: nat, n: nat)
    requires n <= |actions| == |acc|
    ensures Undisturbed(actions + [a], acc + [x], id, n) <==> Undisturbed(actions, acc, id, n)
  {
    forall j: nat | j < n && actions[j].Refresh? && acc[j] == Some(id)
      ensures QuietSince(acc + [x], id, QueriedAt(actions + [a], actions[j].p, j), j) <==>
              QuietSince(acc, id, QueriedAt(actions, actions[j].p, j), j)
    {
      QueriedOn(actions, a, actions[j].p, j);
      QuietOn(acc, x, id, QueriedAt(actions, actions[j].p, j), j);
    }
    assert forall j: nat | j < n :: (actions + [a])[j] == actions[j] && (acc + [x])[j] == acc[j];
  }

  /** What is said of the first n actions does not change when another follows. */
  lemma AgreesOn(actions: seq<Action>, acc: seq<Option<nat>>, a: Action, x: Option<nat>, id: nat, n: nat, count: nat)
    requires n <= |actions| == |acc|
    ensures Agrees(actions + [a], acc + [x], id, n, count) <==> Agrees(actions, acc, id, n, count)
  {
    AcceptsOn(acc, x, id, n);
    UndisturbedOn(actions, acc, a, x, id, n);
  }

  lemma QuietUndisturbed(actions: seq<Action>, acc: seq<Option<nat>>, id: nat, q: nat, n: nat)
    requires q <= n <= |actions| == |acc| && QuietSince(acc, id, q, n)
    ensures Undisturbed(actions, acc, id, n) <==> Undisturbed(actions, acc, id, q)
  {
  }

  /** An action that accepts nothing for the row. */
  lemma OthersTally(actions: seq<Action>, acc: seq<Option<nat>>, a: Action, x: Option<nat>, id: nat, count: nat)
    requires |actions| == |acc| && x != Some(id) && Agrees(actions, acc, id, |acc|, count)
    ensures Agrees(actions + [a], acc + [x], id, |acc| + 1, count)
  {
    AgreesOn(actions, acc, a, x, id, |acc|, count);
    QuietUndisturbed(actions + [a], acc + [x], id, |acc|, |acc| + 1);
  }

  lemma RefreshDisturbs(actions: seq<Action>, acc: seq<Option<nat>>, id: nat, n: nat)
    requires n < |actions| == |acc| && actions[n].Refresh? && acc[n] == Some(id)
    ensures Undisturbed(actions, acc, id, n + 1) <==>
            Undisturbed(actions, acc, id, n) && QuietSince(acc, id, QueriedAt(actions, actions[n].p, n), n)
  {
  }

  /** A refresh writes the count its query saw plus one. */
  lemma RefreshTallies(actions: seq<Action>, acc: seq<Option<nat>>, p: nat, id: nat, seen: nat)
    requires |actions| == |acc| && Agrees(actions, acc, id, QueriedAt(actions, p, |acc|), seen)
    ensures Agrees(actions + [Refresh(p)], acc + [Some(id)], id, |acc| + 1, seen + 1)
  {
    var n, q := |acc|, QueriedAt(actions, p, |acc|);
    var actions', acc' := actions + [Refresh(p)], acc + [Some(id)];
    QuietIffSameCount(acc, id, q, n);
    AcceptsOn(acc, Some(id), id, n);
    UndisturbedOn(actions, acc, Refresh(p), Some(id), id, n);
    QueriedOn(actions, Refresh(p), p, n);
    QuietOn(acc, Some(id), id, q, n);
    RefreshDisturbs(actions', acc', id, n);
    if QuietSince(acc, id, q, n) {
      QuietUndisturbed(actions, acc, id, q, n);
    }
  }

  /** An insert starts its row at one. */
  lemma InsertTallies(actions: seq<Action>, acc: seq<Option<nat>>, p: nat, id: nat)
    requires |actions| == |acc| && Accepts(acc, id, |acc|) == 0
    ensures Agrees(actions + [Insert(p)], acc + [Some(id)], id, |acc| + 1, 1)
  {
    QuietIffSameCount(acc, id, 0, |acc|);
    AcceptsOn(acc, Some(id), id, |acc|);
  }

  lemma RowTallies(actions: seq<Action>, acc: seq<Option<nat>>, s: State, a: Action, id: nat)
    requires |actions| == |acc| && Tallied(actions, acc, s, id) && Enabled(s, a)
    ensures var actions', acc', s' := actions + [a], acc + [AcceptsFor(s, a)], Step(s, a);
            if id < |s'.rows| then Agrees(actions', acc', id, |actions'|, s'.rows[id].occurrences)
            else Accepts(acc', id, |actions'|) == 0
  {
    var x := AcceptsFor(s, a);
    AcceptsOn(acc, x, id, |acc|);
    if x == Some(id) {
      if a.Refresh? {
        RefreshTallies(actions, acc, a.p, id, s.handlers[a.p].seen);
      } else {
        InsertTallies(actions, acc, a.p, id);
      }
    } else if id < |s.rows| {
      OthersTally(actions, acc, a, x, id, s.rows[id].occurrences);
    }
  }

  lemma HandlerTallies(actions: seq<Action>, acc: seq<Option<nat>>, s: State, a: Action, id: nat, p: nat)
    requires |actions| == |acc| && Tallied(actions, acc, s, id) && Enabled(s, a)
    requires p in Step(s, a).handlers && Step(s, a).handlers[p].Refreshing?
    ensures var actions', acc', s' := actions + [a], acc + [AcceptsFor(s, a)], Step(s, a);
            && s'.handlers[p].id < |s'.rows|
            && (s'.handlers[p].id == id ==>
                  Agrees(actions', acc', id, QueriedAt(actions', p, |actions'|), s'.handlers[p].seen))
  {
    var n, x, h := |actions|, AcceptsFor(s, a), Step(s, a).handlers[p];
    var q := if a.Query? && a.p == p then n else QueriedAt(actions, p, n);
    QueriedOn(actions, a, p, n);
    if h.id == id {
      AgreesOn(actions, acc, a, x, id, q, h.seen);
    }
  }

  lemma StepTallies(actions: seq<Action>, acc: seq<Option<nat>>, s: State, a: Action, id: nat)
    requires |actions| == |acc| && Tallied(actions, acc, s, id) && Enabled(s, a)
    ensures Tallied(actions + [a], acc + [AcceptsFor(s, a)], Step(s, a), id)
  {
    RowTallies(actions, acc, s, a, id);
    forall p | p in Step(s, a).handlers && Step(s, a).handlers[p].Refreshing?
      ensures var actions', acc', s' := actions + [a], acc + [AcceptsFor(s, a)], Step(s, a);
              && s'.handlers[p].id < |s'.rows|
              && (s'.handlers[p].id == id ==>
                    Agrees(actions', acc', id, QueriedAt(actions', p, |actions'|), s'.handlers[p].seen))
    {
      HandlerTallies(actions, acc, s, a, id, p);
    }
  }

  lemma {:induction false} RunTallies(actions: seq<Action>, d: nat, id: nat)
    requires Run(actions, d)
    ensures Tallied(actions, Accepted(actions, d), Reached(actions, d), id)
  {
    if actions != [] {
      var n := |actions| - 1;
      RunTallies(actions[..n], d, id);
      StepTallies(actions[..n], Accepted(actions[..n], d), Reached(actions[..n], d), actions[n], id);
      assert actions[..n] + [actions[n]] == actions;
    }
  }

  /** An incident's count is the number of events accepted for it if and only if no other event was accepted
   *  for it between the query and the write of any of its refreshes; else it is too low for good. */
  lemma CountsIffUndisturbed(actions: seq<Action>, d: nat, id: nat)
    requires Run(actions, d) && id < |Reached(actions, d).rows|
    ensures var count, acc, n := Reached(actions, d).rows[id].occurrences, Accepted(actions, d), |actions|;
            && count <= Accepts(acc, id, n)
            && (count == Accepts(acc, id, n) <==> Undisturbed(actions, acc, id, n))
  {
    RunTallies(actions, d, id);
  }

  // ---------------------------------------------------------------- and exactly when

  ghost predicate Safe(d: nat) {
    forall actions | Run(actions, d) :: OneOpenPerKey(Reached(actions, d))
  }

  lemma Go(actions: seq<Action>, s: State, a: Action, d: nat) returns (more: seq<Action>)
    requires Run(actions, d) && s == Reached(actions, d) && Enabled(s, a) && Timely(s, a, d)
    ensures Run(more, d) && Reached(more, d) == Step(s, a)
    ensures Accepted(more, d) == Accepted(actions, d) + [AcceptsFor(s, a)]
  {
    more := actions + [a];
    assert more[..|actions|] == actions;
  }

  lemma OneMissed(e: Incoming, d: nat) returns (actions: seq<Action>)
    requires e.key == Some("k")
    ensures Run(actions, d) && Accepted(actions, d) == [None]
    ensures Reached(actions, d) == State(0, map[], [], map[0 := Missed(e, 0)])
  {
    actions := Go([], INIT, Query(0, e), d);
    assert Step(INIT, Query(0, e)).handlers == map[0 := Missed(e, 0)];
  }

  lemma OneInserted(e: Incoming, d: nat, later: nat) returns (actions: seq<Action>)
    requires e.key == Some("k") && later <= d
    ensures Run(actions, d) && Accepted(actions, d) == [None, None, None]
    ensures Reached(actions, d) == State(later, map["k" := TTL], [], map[0 := Claimed(e, 0, 0)])
  {
    actions := OneMissed(e, d);
    var missed := State(0, map[], [], map[0 := Missed(e, 0)]);
    actions := Go(actions, missed, Claim(0), d);
    var claimed := State(0, map["k" := TTL], [], map[0 := Claimed(e, 0, 0)]);
    assert Step(missed, Claim(0)) == claimed;
    actions := Go(actions, claimed, Tick(later), d);
  }

  lemma SlowStart(e: Incoming, f: Incoming, d: nat) returns (actions: seq<Action>)
    requires e.key == Some("k") && f.key == Some("k")
    ensures Run(actions, d)
    ensures Reached(actions, d) == State(d, map["k" := TTL], [Row(e, OPEN, 1, 0, d)], map[1 := Missed(f, d)])
  {
    actions := OneInserted(e, d, d);
    actions := Go(actions, Reached(actions, d), Query(1, f), d);
    actions := Go(actions, Reached(actions, d), Insert(0), d);
  }

  /** A handler that queries just before a slow one commits, and claims once the key has expired,
   *  opens a second incident. */
  lemma SlowHandlersOpenTwo(d: nat) returns (actions: seq<Action>)
    requires TTL <= 2 * d
    ensures Run(actions, d) && !OneOpenPerKey(Reached(actions, d))
  {
    var e, f := Incoming("src", "1", Some("k")), Incoming("src", "2", Some("k"));
    var rows := [Row(e, OPEN, 1, 0, d)];
    actions := SlowStart(e, f, d);
    actions := Go(actions, Reached(actions, d), Tick(d), d);
    var late := State(2 * d, map["k" := TTL], rows, map[1 := Missed(f, d)]);
    assert Reached(actions, d) == late;
    actions := Go(actions, late, Claim(1), d);
    assert !Conflicts(rows, f);
    actions := Go(actions, Step(late, Claim(1)), Insert(1), d);
    var s := Reached(actions, d);
    assert s.rows == rows + [Row(f, OPEN, 1, 2 * d, 2 * d)];
    assert s.rows[0].status == OPEN && s.rows[1].status == OPEN;
  }

  /** Two-layer dedupe keeps one OPEN incident per key exactly when every handler goes from query to
   *  commit in under half the TTL. */
  lemma SafeIffUnderHalfTtl(d: nat)
    ensures Safe(d) <==> 2 * d < 300 * 1000
  {
    if 2 * d < TTL {
      forall actions | Run(actions, d)
        ensures OneOpenPerKey(Reached(actions, d))
      {
        RunKeepsInv(actions, d);
      }
    } else {
      var actions := SlowHandlersOpenTwo(d);
    }
  }

  lemma TwoRefreshing(e: Incoming) returns (actions: seq<Action>)
    requires e.key == Some("k")
    ensures Run(actions, 0) && Accepted(actions, 0) == [None, None, None, Some(0), None, None]
    ensures Reached(actions, 0) ==
            State(0, map["k" := TTL], [Row(e, OPEN, 1, 0, 0)], map[1 := Refreshing(0, 1), 2 := Refreshing(0, 1)])
  {
    var rows, gates := [Row(e, OPEN, 1, 0, 0)], map["k" := TTL];
    actions := OneInserted(e, 0, 0);
    actions := Go(actions, Reached(actions, 0), Insert(0), 0);
    var inserted := State(0, gates, rows, map[]);
    assert Reached(actions, 0) == inserted;
    actions := Go(actions, inserted, Query(1, e), 0);
    var first := State(0, gates, rows, map[1 := Refreshing(0, 1)]);
    assert Reached(actions, 0) == first;
    actions := Go(actions, first, Query(2, e), 0);
  }

  /** Racing repeats can lose a count: three events are accepted for the one incident and it counts two. */
  lemma RacingRefreshesLoseACount() returns (actions: seq<Action>)
    ensures Run(actions, 0) && Accepts(Accepted(actions, 0), 0, |actions|) == 3
    ensures var s := Reached(actions, 0); |s.rows| == 1 && s.rows[0].occurrences == 2 && s.handlers == map[]
  {
    var e := Incoming("src", "1", Some("k"));
    actions := TwoRefreshing(e);
    actions := Go(actions, Reached(actions, 0), Refresh(1), 0);
    var once := State(0, map["k" := TTL], [Row(e, OPEN, 2, 0, 0)], map[2 := Refreshing(0, 1)]);
    assert Reached(actions, 0) == once;
    actions := Go(actions, once, Refresh(2), 0);
    ThreeAccepted(Accepted(actions, 0));
  }

  lemma ThreeAccepted(acc: seq<Option<nat>>)
    requires acc == [None, None, None, Some(0), None, None, Some(0), Some(0)]
    ensures Accepts(acc, 0, 8) == 3
  {
    assert Accepts(acc, 0, 1) == 0;
    assert Accepts(acc, 0, 3) == 0;
    assert Accepts(acc, 0, 5) == 1;
    assert Accepts(acc, 0, 7) == 2;
  }
}

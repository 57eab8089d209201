/** A replay of dead letters as part of a run: what it does with each element of its snapshot, and what follows
 *  whatever other steps fall in between.
 */
module ReplayWalk {
  import opened Prelude
  import opened Guards
  import opened State
  import opened DeadLetters
  import opened System
  import Delivery
  import Incidents

  function WorkerOf(ch: Channel): TaskName {
    match ch
    case VOICE => VoiceWorker
    case TELEGRAM => TelegramWorker
    case EMAIL => EmailWorker
    case _ => OtherTask
  }

  function ChannelOf(task: TaskName): Option<Channel> {
    match task
    case VoiceWorker => Some(VOICE)
    case TelegramWorker => Some(TELEGRAM)
    case EmailWorker => Some(EMAIL)
    case _ => None
  }

  /** The three workers and the channels whose tasks they carry, both ways. */
  lemma WorkersAre(task: TaskName, ch: Channel)
    ensures ChannelOf(task) == Some(ch) <==> Guarded(ch) && task == WorkerOf(ch)
    ensures task == WorkerOf(VOICE) <==> task == VoiceWorker
    ensures task == WorkerOf(TELEGRAM) <==> task == TelegramWorker
    ensures task == WorkerOf(EMAIL) <==> task == EmailWorker
  {
  }

  /** What the entry asked for is done: its notification is terminal, or its incident is no longer OPEN. */
  predicate Settled(w: World, e: Entry) {
    |e.args| >= 2 &&
    match e.task
    case EscalationWorker => e.args[0] < |w.incidents| && w.incidents[e.args[0]].status != OPEN
    case OtherTask => false
    case _ => e.args[0] < |w.notes| && Terminal(w.notes[e.args[0]].status)
  }

  lemma SettledStays(w: World, w': World, e: Entry)
    requires Ages(w, w') && Settled(w, e)
    ensures Settled(w', e)
  {
    if e.task == EscalationWorker {
      assert Incidents.RowAges(w.incidents[e.args[0]], w'.incidents[e.args[0]]);
    } else {
      assert NoteAges(w.notes[e.args[0]], w'.notes[e.args[0]]);
    }
  }

  /** The replay runs the entry: it parses, this is no dry run, and its error is not hopeless. */
  predicate Tried(c: Config, raw: Raw) {
    raw.Payload? && !c.dryRun && !Hopeless(raw.entry.error)
  }

  /** The entry names a channel task and both of its arguments. */
  predicate NamesSend(e: Entry) { |e.args| >= 2 && ChannelOf(e.task).Some? }

  predicate NamesEscalation(e: Entry) { |e.args| >= 2 && e.task == EscalationWorker }

  /** What a replay of an entry that it tries does at step m, and how it rules then: it attempts the send and
   *  looks at the outcome, or escalates the incident if it is OPEN. */
  predicate TriedAt(ws: seq<World>, steps: seq<Step>, e: Entry, env: Delivery.Attempt, v: Ruling, m: nat)
    requires m < |ws| == |steps| + 1
  {
    if NamesSend(e) then
      && m < |steps| && steps[m].Attempt?
      && steps[m].note == e.args[0] && steps[m].ch == ChannelOf(e.task).value && steps[m].env == env
      && v == if steps[m].out.Sent? || steps[m].out.AlreadyTerminal? then Replay else Keep
    else if NamesEscalation(e) && e.args[0] < |ws[m].incidents| then
      v == Replay && (ws[m].incidents[e.args[0]].status == OPEN ==> m < |steps| && steps[m] == Escalate(e.args[0]))
    else v == Keep
  }

  /** The ruling on one element that the replay comes to at world m and is done with at world n. */
  predicate RuledAt(c: Config, ws: seq<World>, steps: seq<Step>, raw: Raw, env: Delivery.Attempt, v: Ruling, m: nat,
                    n: nat) {
    && m <= n < |ws| == |steps| + 1
    && (if Tried(c, raw) then TriedAt(ws, steps, raw.entry, env, v, m)
        else v == if raw.Payload? && !c.dryRun then Discard else Keep)
    && (v != Keep ==> m < n && steps[n - 1] == RemoveDlq(raw, v == Replay))
  }

  /** A replay: the world it takes its snapshot in, and for each element the attempt it is given, the ruling,
   *  and the worlds it comes to the element in and leaves it in. */
  datatype Walk = Walk(from: nat, snapshot: seq<Raw>, env: nat -> Delivery.Attempt,
                       rulings: seq<Ruling>, marks: seq<nat>, ends: seq<nat>)

  predicate Shaped(k: Walk) { |k.snapshot| == |k.rulings| == |k.marks| == |k.ends| }

  /** Where the walk stands before its i-th element. */
  function Before(k: Walk, i: nat): nat
    requires Shaped(k) && i <= |k.ends|
  {
    if i == 0 then k.from else k.ends[i - 1]
  }

  predicate Element(c: Config, ws: seq<World>, steps: seq<Step>, k: Walk, i: nat)
    requires Shaped(k) && i < |k.rulings|
  {
    Before(k, i) <= k.marks[i] && RuledAt(c, ws, steps, k.snapshot[i], k.env(i), k.rulings[i], k.marks[i], k.ends[i])
  }

  /** The walk is part of the run, other steps anywhere in between. */
  ghost predicate Walks(c: Config, ws: seq<World>, steps: seq<Step>, k: Walk) {
    Shaped(k) && k.from < |ws| && forall i: nat | i < |k.rulings| :: Element(c, ws, steps, k, i)
  }

  function Further(k: Walk, raw: Raw, v: Ruling, m: nat, n: nat): Walk {
    k.(snapshot := k.snapshot + [raw], rulings := k.rulings + [v], marks := k.marks + [m], ends := k.ends + [n])
  }

  lemma RuledStill(c: Config, ws: seq<World>, steps: seq<Step>, ws': seq<World>, steps': seq<Step>,
                   raw: Raw, env: Delivery.Attempt, v: Ruling, m: nat, n: nat)
    requires RuledAt(c, ws, steps, raw, env, v, m, n) && ws <= ws' && steps <= steps' && |ws'| == |steps'| + 1
    ensures RuledAt(c, ws', steps', raw, env, v, m, n)
  {
  }

  lemma WalksFurther(c: Config, ws: seq<World>, steps: seq<Step>, ws': seq<World>, steps': seq<Step>, k: Walk,
                     raw: Raw, v: Ruling, m: nat, n: nat)
    requires Walks(c, ws, steps, k) && ws <= ws' && steps <= steps' && |ws'| == |steps'| + 1
    requires Before(k, |k.ends|) <= m && RuledAt(c, ws', steps', raw, k.env(|k.rulings|), v, m, n)
    ensures Walks(c, ws', steps', Further(k, raw, v, m, n))
  {
    var k' := Further(k, raw, v, m, n);
    forall i: nat | i < |k'.rulings| ensures Element(c, ws', steps', k', i) {
      if i < |k.rulings| {
        ElementKept(c, ws, steps, ws', steps', k, raw, v, m, n, i);
      }
    }
  }

  lemma ElementKept(c: Config, ws: seq<World>, steps: seq<Step>, ws': seq<World>, steps': seq<Step>, k: Walk,
                    raw: Raw, v: Ruling, m: nat, n: nat, i: nat)
    requires Walks(c, ws, steps, k) && ws <= ws' && steps <= steps' && |ws'| == |steps'| + 1 && i < |k.rulings|
    ensures Element(c, ws', steps', Further(k, raw, v, m, n), i)
  {
    assert Element(c, ws, steps, k, i);
    assert Before(Further(k, raw, v, m, n), i) == Before(k, i);
    RuledStill(c, ws, steps, ws', steps', k.snapshot[i], k.env(i), k.rulings[i], k.marks[i], k.ends[i]);
  }

  lemma WalksStill(c: Config, ws: seq<World>, steps: seq<Step>, ws': seq<World>, steps': seq<Step>, k: Walk)
    requires Walks(c, ws, steps, k) && ws <= ws' && steps <= steps' && |ws'| == |steps'| + 1
    ensures Walks(c, ws', steps', k)
  {
    forall i: nat | i < |k.rulings| ensures Element(c, ws', steps', k, i) {
      assert Element(c, ws, steps, k, i);
      RuledStill(c, ws, steps, ws', steps', k.snapshot[i], k.env(i), k.rulings[i], k.marks[i], k.ends[i]);
    }
  }

  lemma {:induction false} BeforeGrows(c: Config, ws: seq<World>, steps: seq<Step>, k: Walk, i: nat)
    requires Walks(c, ws, steps, k) && i <= |k.rulings|
    ensures k.from <= Before(k, i) < |ws|
  {
    if i > 0 {
      BeforeGrows(c, ws, steps, k, i - 1);
      assert Element(c, ws, steps, k, i - 1);
    }
  }

  // ---------------------------------------------------------------- soundness

  lemma AttemptSettles(c: Config, ws: seq<World>, steps: seq<Step>, m: nat, e: Entry)
    requires Run(c, ws, steps) && m < |steps| && steps[m].Attempt?
    requires NamesSend(e) && steps[m].note == e.args[0]
    requires var o := steps[m].out;
             o.Sent? || o.AlreadyTerminal? || o.SuppressedDuplicate? || o.SuppressedRateLimit?
    ensures Settled(ws[m + 1], e)
  {
    var s := steps[m];
    assert StepAt(c, ws, steps, m);
    Delivery.SendAccounts(c, ws[m], s.note, s.ch, s.env);
  }

  lemma SettledLater(c: Config, ws: seq<World>, steps: seq<Step>, i: nat, j: nat, e: Entry)
    requires Run(c, ws, steps) && i <= j < |ws| && Settled(ws[i], e)
    ensures Settled(ws[j], e)
  {
    RunAges(c, ws, steps, i, j);
    SettledStays(ws[i], ws[j], e);
  }

  /** Every entry counted as replayed is settled when the replay is done with it, and for good: its
   *  notification is terminal, or its incident no longer OPEN. */
  lemma ReplayedIsSettled(c: Config, ws: seq<World>, steps: seq<Step>, k: Walk, i: nat, j: nat)
    requires Run(c, ws, steps) && Walks(c, ws, steps, k) && i < |k.rulings| && k.rulings[i] == Replay
    requires k.ends[i] <= j < |ws|
    ensures k.snapshot[i].Payload? && Settled(ws[j], k.snapshot[i].entry)
  {
    assert Element(c, ws, steps, k, i);
    var e, m := k.snapshot[i].entry, k.marks[i];
    if NamesSend(e) {
      AttemptSettles(c, ws, steps, m, e);
      SettledLater(c, ws, steps, m + 1, j, e);
    } else if ws[m].incidents[e.args[0]].status == OPEN {
      EscalateSettles(c, ws, steps, m, e);
      SettledLater(c, ws, steps, m + 1, j, e);
    } else {
      SettledLater(c, ws, steps, m, j, e);
    }
  }

  lemma EscalateSettles(c: Config, ws: seq<World>, steps: seq<Step>, m: nat, e: Entry)
    requires Run(c, ws, steps) && m < |steps| && NamesEscalation(e) && steps[m] == Escalate(e.args[0])
    requires e.args[0] < |ws[m].incidents|
    ensures Settled(ws[m + 1], e)
  {
    assert StepAt(c, ws, steps, m);
  }

  /** Whatever is settled when a replay comes to it is replayed, unless it is only listed (dry run) or thrown
   *  away as hopeless first. */
  lemma SettledAreReplayed(c: Config, ws: seq<World>, steps: seq<Step>, k: Walk, i: nat, at: nat)
    requires Run(c, ws, steps) && Walks(c, ws, steps, k) && i < |k.rulings| && at < |ws| && at <= k.marks[i]
    requires k.snapshot[i].Payload? && Settled(ws[at], k.snapshot[i].entry)
    ensures k.rulings[i] == if c.dryRun then Keep else if Hopeless(k.snapshot[i].entry.error) then Discard else Replay
  {
    var e, m := k.snapshot[i].entry, k.marks[i];
    assert Element(c, ws, steps, k, i);
    SettledLater(c, ws, steps, at, m, e);
    if Tried(c, k.snapshot[i]) && NamesSend(e) {
      assert StepAt(c, ws, steps, m);
      Delivery.TerminalAttemptIsInert(c, ws[m], e.args[0], ChannelOf(e.task).value, k.env(i));
    }
  }

  /** The replay tried the i-th element, and the attempt it made was suppressed. */
  predicate Suppressed(c: Config, steps: seq<Step>, k: Walk, i: nat)
    requires Shaped(k) && i < |k.rulings|
  {
    && Tried(c, k.snapshot[i]) && NamesSend(k.snapshot[i].entry)
    && k.marks[i] < |steps| && steps[k.marks[i]].Attempt?
    && (steps[k.marks[i]].out.SuppressedDuplicate? || steps[k.marks[i]].out.SuppressedRateLimit?)
  }

  /** An entry that one replay kept because its attempt was suppressed is replayed, and so removed, by any
   *  later replay that reaches it, whatever happened in between. */
  lemma SuppressedIsReplayedNext(c: Config, ws: seq<World>, steps: seq<Step>, first: Walk, i: nat, next: Walk, j: nat)
    requires Run(c, ws, steps) && Walks(c, ws, steps, first) && Walks(c, ws, steps, next)
    requires i < |first.rulings| && Suppressed(c, steps, first, i)
    requires j < |next.rulings| && first.marks[i] < next.marks[j] && next.snapshot[j] == first.snapshot[i]
    ensures first.rulings[i] == Keep && next.rulings[j] == Replay
    ensures 0 < next.ends[j] <= |steps| && steps[next.ends[j] - 1] == RemoveDlq(first.snapshot[i], true)
  {
    var m, e := first.marks[i], first.snapshot[i].entry;
    assert Element(c, ws, steps, first, i);
    AttemptSettles(c, ws, steps, m, e);
    SettledAreReplayed(c, ws, steps, next, j, m + 1);
    assert Element(c, ws, steps, next, j);
  }

  // ---------------------------------------------------------------- the queue

  /** What the queue gained between two worlds, when nothing was trimmed or removed. */
  function Gained(w: World, w': World): seq<Raw>
    requires |w.dlq.pushed| <= |w'.dlq.pushed|
  {
    w'.dlq.pushed[|w.dlq.pushed|..]
  }

  ghost predicate Appends(w: World, w': World) {
    w.dlq.pushed <= w'.dlq.pushed && w'.dlq.items == w.dlq.items + Gained(w, w')
  }

  /** Between worlds a and b the queue only grew. */
  ghost predicate Grew(ws: seq<World>, a: nat, b: nat)
    requires b < |ws|
  {
    forall j: nat | a <= j < b :: Appends(ws[j], ws[j + 1])
  }

  lemma {:induction false} GrewTogether(ws: seq<World>, a: nat, b: nat)
    requires a <= b < |ws| && Grew(ws, a, b)
    ensures Appends(ws[a], ws[b])
    decreases b
  {
    if a == b {
      assert Gained(ws[a], ws[a]) == [];
    } else {
      GrewTogether(ws, a, b - 1);
      assert Appends(ws[b - 1], ws[b]);
      assert Gained(ws[a], ws[b]) == Gained(ws[a], ws[b - 1]) + Gained(ws[b - 1], ws[b]);
    }
  }

  /** While the replay was at its i-th element the queue only grew, but for the removal it may end with. */
  ghost predicate GrewAt(ws: seq<World>, k: Walk, i: nat)
    requires Shaped(k) && i < |k.rulings| && k.ends[i] < |ws|
  {
    Grew(ws, Before(k, i), if k.rulings[i] != Keep && k.ends[i] > 0 then k.ends[i] - 1 else k.ends[i])
  }

  lemma {:induction false} RemoveInFront(front: seq<Raw>, back: seq<Raw>, x: Raw)
    requires x in front
    ensures RemoveFirst(front + back, x) == RemoveFirst(front, x) + back
  {
    if front[0] == x {
      assert (front + back)[1..] == front[1..] + back;
    } else {
      RemoveInFront(front[1..], back, x);
      assert (front + back)[1..] == front[1..] + back;
      assert front == [front[0]] + front[1..];
    }
  }

  /** Before the i-th element: what the rulings so far leave of the list, then what was pushed since. */
  ghost predicate Stands(ws: seq<World>, k: Walk, i: nat)
    requires Shaped(k) && i <= |k.rulings| && k.from < |ws| && Before(k, i) < |ws|
  {
    var w, w' := ws[k.from], ws[Before(k, i)];
    w.dlq.pushed <= w'.dlq.pushed &&
    w'.dlq.items == Drain(w.dlq.items, k.snapshot[..i], k.rulings[..i]) + Gained(w, w')
  }

  lemma RemovalAt(c: Config, ws: seq<World>, steps: seq<Step>, n: nat, raw: Raw, replayed: bool)
    requires Run(c, ws, steps) && n < |steps| && steps[n] == RemoveDlq(raw, replayed)
    ensures ws[n + 1].dlq.pushed == ws[n].dlq.pushed && ws[n + 1].dlq.items == RemoveFirst(ws[n].dlq.items, raw)
  {
    assert StepAt(c, ws, steps, n);
    RunKeepsInv(c, ws, steps, n);
  }

  lemma GainedTogether(u: World, v: World, w: World)
    requires u.dlq.pushed <= v.dlq.pushed <= w.dlq.pushed
    ensures Gained(u, w) == Gained(u, v) + Gained(v, w)
  {
  }

  /** The queue grows in front of the walk: what it stands on stays. */
  lemma GrowsBehind(ws: seq<World>, from: nat, a: nat, b: nat, live: seq<Raw>)
    requires from < |ws| && a <= b < |ws| && Grew(ws, a, b) && ws[from].dlq.pushed <= ws[a].dlq.pushed
    requires ws[a].dlq.items == live + Gained(ws[from], ws[a])
    ensures ws[from].dlq.pushed <= ws[b].dlq.pushed && ws[b].dlq.items == live + Gained(ws[from], ws[b])
  {
    GrewTogether(ws, a, b);
    GainedTogether(ws[from], ws[a], ws[b]);
    Associates(live, Gained(ws[from], ws[a]), Gained(ws[a], ws[b]));
  }

  /** The removal an element may end with takes its value out of what the walk stands on. */
  lemma RemovesLive(c: Config, ws: seq<World>, steps: seq<Step>, from: nat, b: nat, live: seq<Raw>, x: Raw,
                    replayed: bool)
    requires Run(c, ws, steps) && from < |ws| && b < |steps| && steps[b] == RemoveDlq(x, replayed) && x in live
    requires ws[from].dlq.pushed <= ws[b].dlq.pushed && ws[b].dlq.items == live + Gained(ws[from], ws[b])
    ensures ws[from].dlq.pushed <= ws[b + 1].dlq.pushed
    ensures ws[b + 1].dlq.items == RemoveFirst(live, x) + Gained(ws[from], ws[b + 1])
  {
    RemovalAt(c, ws, steps, b, x, replayed);
    RemoveInFront(live, Gained(ws[from], ws[b]), x);
  }

  /** The world up to which an element removes nothing. */
  lemma RemovesAtEnd(c: Config, ws: seq<World>, steps: seq<Step>, k: Walk, i: nat) returns (b: nat)
    requires Walks(c, ws, steps, k) && i < |k.rulings|
    ensures Before(k, i) <= b < |ws| == |steps| + 1
    ensures if k.rulings[i] == Keep then k.ends[i] == b
            else k.ends[i] == b + 1 <= |steps| && steps[b] == RemoveDlq(k.snapshot[i], k.rulings[i] == Replay)
  {
    assert Element(c, ws, steps, k, i);
    b := if k.rulings[i] == Keep then k.ends[i] else k.ends[i] - 1;
  }

  lemma DrainNext(items: seq<Raw>, snapshot: seq<Raw>, vs: seq<Ruling>, i: nat)
    requires i < |snapshot| == |vs|
    ensures var live := Drain(items, snapshot[..i], vs[..i]);
            Drain(items, snapshot[..i + 1], vs[..i + 1]) ==
            if vs[i] == Keep then live else RemoveFirst(live, snapshot[i])
  {
    assert snapshot[..i + 1] == snapshot[..i] + [snapshot[i]] && vs[..i + 1] == vs[..i] + [vs[i]];
    DrainSnoc(items, snapshot[..i], vs[..i], snapshot[i], vs[i]);
  }

  lemma StandsNext(c: Config, ws: seq<World>, steps: seq<Step>, k: Walk, i: nat)
    requires Run(c, ws, steps) && Walks(c, ws, steps, k) && i < |k.rulings| && k.snapshot <= ws[k.from].dlq.items
    requires Before(k, i) < |ws| && Stands(ws, k, i) && k.ends[i] < |ws| && GrewAt(ws, k, i)
    ensures Stands(ws, k, i + 1)
  {
    var items := ws[k.from].dlq.items;
    var live := Drain(items, k.snapshot[..i], k.rulings[..i]);
    var b := RemovesAtEnd(c, ws, steps, k, i);
    DrainNext(items, k.snapshot, k.rulings, i);
    NextIsStanding(items, k.snapshot, k.rulings, i);
    StandsFrom(c, ws, steps, k.from, Before(k, i), b, live, k.snapshot[i], k.rulings[i]);
  }

  lemma NextIsStanding(items: seq<Raw>, snapshot: seq<Raw>, vs: seq<Ruling>, i: nat)
    requires i < |snapshot| == |vs| && snapshot <= items
    ensures snapshot[i] in Drain(items, snapshot[..i], vs[..i])
  {
    assert snapshot[..i] == items[..i];
    NextIsLive(items, vs[..i]);
  }

  lemma StandsFrom(c: Config, ws: seq<World>, steps: seq<Step>, from: nat, a: nat, b: nat, live: seq<Raw>, x: Raw,
                   v: Ruling)
    requires Run(c, ws, steps) && from < |ws| && a <= b < |ws| && Grew(ws, a, b)
    requires ws[from].dlq.pushed <= ws[a].dlq.pushed && ws[a].dlq.items == live + Gained(ws[from], ws[a])
    requires v != Keep ==> x in live && b < |steps| && steps[b] == RemoveDlq(x, v == Replay)
    ensures var e := if v == Keep then b else b + 1;
            && ws[from].dlq.pushed <= ws[e].dlq.pushed
            && ws[e].dlq.items == (if v == Keep then live else RemoveFirst(live, x)) + Gained(ws[from], ws[e])
  {
    GrowsBehind(ws, from, a, b, live);
    if v != Keep {
      RemovesLive(c, ws, steps, from, b, live, x, v == Replay);
    }
  }

  /** A replay among other steps that push but do not trim leaves what its rulings leave of the list it began
   *  with, then everything pushed since. */
  lemma {:induction false} QueueAfterWalk(c: Config, ws: seq<World>, steps: seq<Step>, k: Walk, i: nat)
    requires Run(c, ws, steps) && Walks(c, ws, steps, k) && i <= |k.rulings| && k.snapshot <= ws[k.from].dlq.items
    requires forall j: nat | j < i :: k.ends[j] < |ws| && GrewAt(ws, k, j)
    ensures Before(k, i) < |ws| && Stands(ws, k, i)
  {
    BeforeGrows(c, ws, steps, k, i);
    if i == 0 {
      assert Gained(ws[k.from], ws[k.from]) == [];
    } else {
      QueueAfterWalk(c, ws, steps, k, i - 1);
      StandsNext(c, ws, steps, k, i - 1);
    }
  }

  /** So nothing is lost to a replay, and with equal entries of its batch side by side, as with distinct ones,
   *  the queue ends as the kept entries, the untouched tail and the new pushes, in this order. */
  lemma ReplayKeepsQueue(c: Config, ws: seq<World>, steps: seq<Step>, k: Walk)
    requires Run(c, ws, steps) && Walks(c, ws, steps, k) && k.snapshot <= ws[k.from].dlq.items
    requires forall j: nat | j < |k.rulings| :: k.ends[j] < |ws| && GrewAt(ws, k, j)
    ensures var n := |k.rulings|; var w := ws[k.from];
            Before(k, n) < |ws| && var w' := ws[Before(k, n)];
            && w.dlq.pushed <= w'.dlq.pushed
            && |w.dlq.items| + |Gained(w, w')| ==
               |w'.dlq.items| + Count(k.rulings, Is(Replay)) + Count(k.rulings, Is(Discard))
            && (Adjacent(k.snapshot) ==>
                  w'.dlq.items == Kept(k.snapshot, k.rulings) + w.dlq.items[n..] + Gained(w, w'))
  {
    var n := |k.rulings|;
    var items := ws[k.from].dlq.items;
    QueueAfterWalk(c, ws, steps, k, n);
    assert k.snapshot[..n] == k.snapshot == items[..n] && k.rulings[..n] == k.rulings;
    DrainKeepsMultiset(items, k.rulings);
    if Adjacent(k.snapshot) {
      DrainKeepsOrder(items, k.rulings);
    }
  }

  /** What an undisturbed replay makes of the queue q: what its rulings leave, each push with its fate, nothing
   *  lost, and in order when equal entries of the batch are side by side. */
  ghost predicate Leaves(k: Walk, q: Dlq, q': Dlq, replayed: nat) {
    && Shaped(k) && k.snapshot <= q.items
    && q'.items == Drain(q.items, k.snapshot, k.rulings) && Ledgered(q.fates, q'.fates, k.rulings)
    && replayed == Count(k.rulings, Is(Replay)) <= |k.snapshot|
    && |q.items| == |q'.items| + replayed + Count(k.rulings, Is(Discard))
    && (Adjacent(k.snapshot) ==> q'.items == Kept(k.snapshot, k.rulings) + q.items[|k.rulings|..])
  }

  lemma WalkLeaves(k: Walk, q: Dlq, q': Dlq)
    requires Shaped(k) && k.snapshot <= q.items
    requires q'.items == Drain(q.items, k.snapshot, k.rulings) && Ledgered(q.fates, q'.fates, k.rulings)
    requires Count(k.rulings, Is(Replay)) <= |k.snapshot|
    ensures Leaves(k, q, q', Count(k.rulings, Is(Replay)))
  {
    assert k.snapshot == q.items[..|k.rulings|];
    DrainKeepsMultiset(q.items, k.rulings);
    if Adjacent(k.snapshot) {
      DrainKeepsOrder(q.items, k.rulings);
    }
  }

  /** Pushes that differ make every batch one of distinct entries, and so keep the order of every replay. */
  lemma BatchIsDistinct(c: Config, ws: seq<World>, steps: seq<Step>, k: Walk)
    requires Run(c, ws, steps) && Walks(c, ws, steps, k) && k.snapshot <= ws[k.from].dlq.items
    requires Distinct(Pushes(steps))
    ensures Distinct(k.snapshot) && Adjacent(k.snapshot)
  {
    QueueIsDistinct(c, ws, steps, k.from);
  }

  // ---------------------------------------------------------------- among trims

  predicate IsSuffix(s: seq<Raw>, t: seq<Raw>) {
    |s| <= |t| && t[|t| - |s|..] == s
  }

  lemma SuffixTogether(r: seq<Raw>, s: seq<Raw>, t: seq<Raw>, more: seq<Raw>)
    requires IsSuffix(s, t) && IsSuffix(r, s + more)
    ensures IsSuffix(r, t + more)
  {
    assert (t + more)[|t| - |s|..] == s + more;
    assert (t + more)[|t| - |s|..][|s + more| - |r|..] == (t + more)[|t + more| - |r|..];
  }

  lemma SuffixOfRest(s: seq<Raw>, t: seq<Raw>)
    requires IsSuffix(s, t) && |s| < |t|
    ensures IsSuffix(s, t[1..])
  {
    assert t[1..][|t| - 1 - |s|..] == t[|t| - |s|..];
  }

  lemma NotInRest(s: seq<Raw>, t: seq<Raw>)
    requires Distinct(t) && IsSuffix(s, t) && |s| < |t|
    ensures t[0] !in s
  {
    forall i: nat | i < |s| ensures s[i] != t[0] {
      assert s[i] == t[|t| - |s| + i];
    }
  }

  /** In a list of distinct entries, what is left of a suffix is a suffix of what is left. */
  lemma {:induction false} SuffixRemove(s: seq<Raw>, t: seq<Raw>, x: Raw)
    requires Distinct(t) && IsSuffix(s, t)
    ensures IsSuffix(RemoveFirst(s, x), RemoveFirst(t, x))
  {
    if |s| < |t| {
      SuffixOfRest(s, t);
      if t[0] == x {
        NotInRest(s, t);
        RemoveAbsent(s, x);
      } else {
        SuffixRemove(s, t[1..], x);
        ConsSuffix(t[0], RemoveFirst(s, x), RemoveFirst(t[1..], x));
      }
    } else {
      assert s == t;
    }
  }

  lemma ConsSuffix(y: Raw, s: seq<Raw>, t: seq<Raw>)
    requires IsSuffix(s, t)
    ensures IsSuffix(s, [y] + t)
  {
  }

  lemma {:induction false} RemoveKeepsDistinct(t: seq<Raw>, x: Raw)
    requires Distinct(t)
    ensures Distinct(RemoveFirst(t, x)) && forall y | y in RemoveFirst(t, x) :: y in t
  {
    if t != [] {
      RestDistinct(t);
      if t[0] != x {
        RemoveKeepsDistinct(t[1..], x);
        ConsDistinct(t[0], RemoveFirst(t[1..], x));
      }
    }
  }

  lemma RestDistinct(t: seq<Raw>)
    requires t != [] && Distinct(t)
    ensures Distinct(t[1..]) && t[0] !in t[1..] && forall y | y in t[1..] :: y in t
  {
    forall y | y in t[1..] ensures y in t && y != t[0] {
      var j :| 0 <= j < |t[1..]| && t[1..][j] == y;
      assert t[j + 1] == y;
    }
  }

  lemma ConsDistinct(y: Raw, s: seq<Raw>)
    requires Distinct(s) && y !in s
    ensures Distinct([y] + s)
  {
    assert forall j: nat | j < |s| :: s[j] in s;
  }

  /** A step that removes nothing leaves a suffix of the queue and what it pushed. */
  lemma NoRemovalTrims(c: Config, ws: seq<World>, steps: seq<Step>, j: nat)
    requires Run(c, ws, steps) && j < |steps| && !steps[j].RemoveDlq?
    ensures ws[j].dlq.pushed <= ws[j + 1].dlq.pushed
    ensures IsSuffix(ws[j + 1].dlq.items, ws[j].dlq.items + Gained(ws[j], ws[j + 1]))
  {
    assert StepAt(c, ws, steps, j);
    StepPushes(c, ws[j], steps[j]);
    OthersLeaveQueue(c, ws[j], steps[j]);
  }

  lemma OthersLeaveQueue(c: Config, w: World, s: Step)
    requires !s.RemoveDlq?
    ensures var w' := Apply(c, w, s);
            match s
            case PushDlq(raw) => IsSuffix(w'.dlq.items, w.dlq.items + [raw])
            case TrimDlq(_) => IsSuffix(w'.dlq.items, w.dlq.items)
            case _ => w'.dlq.items == w.dlq.items
  {
    match s
    case Ingest(e) => Incidents.IngestRows(c, w, e);
    case Attempt(n, ch, env, _) => Delivery.SendAccounts(c, w, n, ch, env);
    case PushDlq(raw) => assert Apply(c, w, s).dlq == PushEntry(w.dlq, raw, c.dlqMaxItems);
    case TrimDlq(limit) => assert Apply(c, w, s).dlq == Trim(w.dlq, BoundDlqMaxItems(limit));
    case _ =>
  }

  ghost predicate NoRemovals(steps: seq<Step>, a: nat, b: nat)
    requires b <= |steps|
  {
    forall j: nat | a <= j < b :: !steps[j].RemoveDlq?
  }

  lemma {:induction false} TrimsTogether(c: Config, ws: seq<World>, steps: seq<Step>, a: nat, b: nat)
    requires Run(c, ws, steps) && a <= b <= |steps| && NoRemovals(steps, a, b)
    ensures ws[a].dlq.pushed <= ws[b].dlq.pushed
    ensures IsSuffix(ws[b].dlq.items, ws[a].dlq.items + Gained(ws[a], ws[b]))
    decreases b
  {
    if a == b {
      assert Gained(ws[a], ws[a]) == [];
    } else {
      TrimsTogether(c, ws, steps, a, b - 1);
      NoRemovalTrims(c, ws, steps, b - 1);
      SuffixTogether(ws[b].dlq.items, ws[b - 1].dlq.items, ws[a].dlq.items + Gained(ws[a], ws[b - 1]),
                     Gained(ws[b - 1], ws[b]));
      GainedTogether(ws[a], ws[b - 1], ws[b]);
      Associates(ws[a].dlq.items, Gained(ws[a], ws[b - 1]), Gained(ws[b - 1], ws[b]));
    }
  }

  /** While the replay was at its i-th element nothing was removed, but by the removal it may end with. */
  ghost predicate RemovesAlone(steps: seq<Step>, k: Walk, i: nat)
    requires Shaped(k) && i < |k.rulings| && k.ends[i] <= |steps|
  {
    NoRemovals(steps, Before(k, i), if k.rulings[i] != Keep && k.ends[i] > 0 then k.ends[i] - 1 else k.ends[i])
  }

  /** Before the i-th element: a suffix of what the rulings so far leave of the list and what was pushed since. */
  ghost predicate Ends(ws: seq<World>, k: Walk, i: nat)
    requires Shaped(k) && i <= |k.rulings| && k.from < |ws| && Before(k, i) < |ws|
  {
    var w, w' := ws[k.from], ws[Before(k, i)];
    w.dlq.pushed <= w'.dlq.pushed &&
    IsSuffix(w'.dlq.items, Drain(w.dlq.items, k.snapshot[..i], k.rulings[..i]) + Gained(w, w'))
  }

  /** The queue and the later pushes of a run whose pushes differ have nothing in common. */
  lemma DistinctAhead(c: Config, ws: seq<World>, steps: seq<Step>, a: nat, b: nat)
    requires Run(c, ws, steps) && Distinct(Pushes(steps)) && a <= b < |ws|
    ensures ws[a].dlq.pushed <= ws[b].dlq.pushed && Distinct(ws[a].dlq.items + Gained(ws[a], ws[b]))
  {
    var items, pushed, later := ws[a].dlq.items, ws[a].dlq.pushed, ws[b].dlq.pushed;
    QueueIsDistinct(c, ws, steps, a);
    QueueIsDistinct(c, ws, steps, b);
    RunExtendsDlq(c, ws, steps, a, b);
    RunKeepsInv(c, ws, steps, a);
    QueuedWerePushed(pushed, ws[a].dlq.fates);
    DistinctTogether(items, pushed, later);
  }

  lemma DistinctTogether(items: seq<Raw>, pushed: seq<Raw>, later: seq<Raw>)
    requires Distinct(items) && Distinct(later) && pushed <= later && forall x | x in items :: x in pushed
    ensures Distinct(items + later[|pushed|..])
  {
    var both := items + later[|pushed|..];
    forall i: nat, j: nat | i < j < |both| ensures both[i] != both[j] {
      if i < |items| <= j {
        assert both[i] in items;
        assert both[j] == later[|pushed| + j - |items|];
      } else if |items| <= i {
        assert both[i] == later[|pushed| + i - |items|] && both[j] == later[|pushed| + j - |items|];
      }
    }
  }

  lemma {:induction false} DrainAheadDistinct(items: seq<Raw>, snapshot: seq<Raw>, vs: seq<Ruling>, more: seq<Raw>,
                                              i: nat)
    requires |snapshot| == |vs| && i <= |vs| && snapshot <= items && Distinct(items + more)
    ensures Distinct(Drain(items, snapshot[..i], vs[..i]) + more)
  {
    if i > 0 {
      DrainAheadDistinct(items, snapshot, vs, more, i - 1);
      DrainNext(items, snapshot, vs, i - 1);
      var live := Drain(items, snapshot[..i - 1], vs[..i - 1]);
      assert snapshot[..i - 1] == items[..i - 1];
      NextIsLive(items, vs[..i - 1]);
      RemoveInFront(live, more, snapshot[i - 1]);
      RemoveKeepsDistinct(live + more, snapshot[i - 1]);
    }
  }

  lemma TrimsBehind(c: Config, ws: seq<World>, steps: seq<Step>, from: nat, a: nat, b: nat, live: seq<Raw>)
    requires Run(c, ws, steps) && from < |ws| && a <= b <= |steps| && NoRemovals(steps, a, b)
    requires ws[from].dlq.pushed <= ws[a].dlq.pushed && IsSuffix(ws[a].dlq.items, live + Gained(ws[from], ws[a]))
    ensures ws[from].dlq.pushed <= ws[b].dlq.pushed && IsSuffix(ws[b].dlq.items, live + Gained(ws[from], ws[b]))
  {
    TrimsTogether(c, ws, steps, a, b);
    SuffixTogether(ws[b].dlq.items, ws[a].dlq.items, live + Gained(ws[from], ws[a]), Gained(ws[a], ws[b]));
    GainedTogether(ws[from], ws[a], ws[b]);
    Associates(live, Gained(ws[from], ws[a]), Gained(ws[a], ws[b]));
  }

  lemma RemovesBehind(c: Config, ws: seq<World>, steps: seq<Step>, from: nat, b: nat, live: seq<Raw>, x: Raw,
                      replayed: bool)
    requires Run(c, ws, steps) && from < |ws| && b < |steps| && steps[b] == RemoveDlq(x, replayed) && x in live
    requires ws[from].dlq.pushed <= ws[b].dlq.pushed && IsSuffix(ws[b].dlq.items, live + Gained(ws[from], ws[b]))
    requires Distinct(live + Gained(ws[from], ws[b]))
    ensures ws[from].dlq.pushed <= ws[b + 1].dlq.pushed
    ensures IsSuffix(ws[b + 1].dlq.items, RemoveFirst(live, x) + Gained(ws[from], ws[b + 1]))
  {
    RemovalAt(c, ws, steps, b, x, replayed);
    SuffixRemove(ws[b].dlq.items, live + Gained(ws[from], ws[b]), x);
    RemoveInFront(live, Gained(ws[from], ws[b]), x);
  }

  lemma EndsNext(c: Config, ws: seq<World>, steps: seq<Step>, k: Walk, i: nat)
    requires Run(c, ws, steps) && Walks(c, ws, steps, k) && i < |k.rulings| && k.snapshot <= ws[k.from].dlq.items
    requires Distinct(Pushes(steps)) && k.from <= Before(k, i) < |ws| && Ends(ws, k, i)
    requires k.ends[i] <= |steps| && RemovesAlone(steps, k, i)
    ensures Ends(ws, k, i + 1)
  {
    var items, x, v := ws[k.from].dlq.items, k.snapshot[i], k.rulings[i];
    var live := Drain(items, k.snapshot[..i], k.rulings[..i]);
    var b := RemovesAtEnd(c, ws, steps, k, i);
    DrainNext(items, k.snapshot, k.rulings, i);
    TrimsBehind(c, ws, steps, k.from, Before(k, i), b, live);
    if v != Keep {
      LiveAhead(c, ws, steps, k, i, b);
      RemovesBehind(c, ws, steps, k.from, b, live, x, v == Replay);
    }
  }

  lemma LiveAhead(c: Config, ws: seq<World>, steps: seq<Step>, k: Walk, i: nat, b: nat)
    requires Run(c, ws, steps) && Shaped(k) && i < |k.rulings| && k.from <= b < |ws| && Distinct(Pushes(steps))
    requires k.snapshot <= ws[k.from].dlq.items
    ensures var live := Drain(ws[k.from].dlq.items, k.snapshot[..i], k.rulings[..i]);
            && k.snapshot[i] in live && ws[k.from].dlq.pushed <= ws[b].dlq.pushed
            && Distinct(live + Gained(ws[k.from], ws[b]))
  {
    var items := ws[k.from].dlq.items;
    NextIsStanding(items, k.snapshot, k.rulings, i);
    DistinctAhead(c, ws, steps, k.from, b);
    DrainAheadDistinct(items, k.snapshot, k.rulings, Gained(ws[k.from], ws[b]), i);
  }

  lemma EndsAtFirst(ws: seq<World>, k: Walk)
    requires Shaped(k) && k.from < |ws|
    ensures Ends(ws, k, 0)
  {
    var items := ws[k.from].dlq.items;
    assert Gained(ws[k.from], ws[k.from]) == [] && items + [] == items;
  }

  lemma {:induction false} EndsAfter(c: Config, ws: seq<World>, steps: seq<Step>, k: Walk, i: nat)
    requires Run(c, ws, steps) && Walks(c, ws, steps, k) && i <= |k.rulings| && k.snapshot <= ws[k.from].dlq.items
    requires Distinct(Pushes(steps)) && forall j: nat | j < i :: k.ends[j] <= |steps| && RemovesAlone(steps, k, j)
    ensures Before(k, i) < |ws| && Ends(ws, k, i)
  {
    BeforeGrows(c, ws, steps, k, i);
    if i == 0 {
      EndsAtFirst(ws, k);
    } else {
      EndsAfter(c, ws, steps, k, i - 1);
      BeforeGrows(c, ws, steps, k, i - 1);
      EndsNext(c, ws, steps, k, i - 1);
    }
  }

  /** However others push, trim and prune during a replay: when pushes differ the queue ends as a suffix of the
   *  kept entries, the tail and the new pushes. What is missing of it in front was trimmed. */
  lemma ReplayAmongTrims(c: Config, ws: seq<World>, steps: seq<Step>, k: Walk)
    requires Run(c, ws, steps) && Walks(c, ws, steps, k) && k.snapshot <= ws[k.from].dlq.items
    requires Distinct(Pushes(steps))
    requires forall j: nat | j < |k.rulings| :: k.ends[j] <= |steps| && RemovesAlone(steps, k, j)
    ensures var n := |k.rulings|; var w := ws[k.from];
            Before(k, n) < |ws| && var w' := ws[Before(k, n)];
            && w.dlq.pushed <= w'.dlq.pushed
            && IsSuffix(w'.dlq.items, Kept(k.snapshot, k.rulings) + w.dlq.items[n..] + Gained(w, w'))
  {
    var n, items := |k.rulings|, ws[k.from].dlq.items;
    EndsAfter(c, ws, steps, k, n);
    assert k.snapshot[..n] == k.snapshot == items[..n] && k.rulings[..n] == k.rulings;
    BatchIsDistinct(c, ws, steps, k);
    DrainKeepsOrder(items, k.rulings);
  }

  lemma {:induction false} StillQueuedAt(pushed: seq<Raw>, fates: seq<Fate>, x: Raw) returns (p: nat)
    requires |pushed| == |fates| && x in StillQueued(pushed, fates)
    ensures p < |pushed| && pushed[p] == x && fates[p] == Queued
  {
    if fates[0] == Queued && pushed[0] == x {
      p := 0;
    } else {
      p := StillQueuedAt(pushed[1..], fates[1..], x);
      p := p + 1;
    }
  }

  lemma {:induction false} RemovedIsGoneFrom(items: seq<Raw>, x: Raw)
    requires Distinct(items)
    ensures x !in RemoveFirst(items, x)
  {
    if items != [] && items[0] != x {
      RemovedIsGoneFrom(items[1..], x);
    }
  }

  /** When pushes differ, as their stamps make them, an entry that was replayed or discarded is never in the
   *  queue again, whatever else happens. */
  lemma {:induction false} RemovedIsGone(c: Config, ws: seq<World>, steps: seq<Step>, n: nat, raw: Raw,
                                         replayed: bool, j: nat)
    requires Run(c, ws, steps) && Distinct(Pushes(steps)) && n < j < |ws| && steps[n] == RemoveDlq(raw, replayed)
    requires raw in ws[n].dlq.pushed
    ensures raw !in ws[j].dlq.items
    decreases j
  {
    RemovalAt(c, ws, steps, n, raw, replayed);
    QueueIsDistinct(c, ws, steps, n);
    RemovedIsGoneFrom(ws[n].dlq.items, raw);
    if raw in ws[j].dlq.items {
      QueuedEarlier(c, ws, steps, n + 1, j, raw);
    }
  }

  /** With differing pushes, what is queued and was pushed by an earlier moment was queued at that moment. */
  lemma QueuedEarlier(c: Config, ws: seq<World>, steps: seq<Step>, i: nat, j: nat, x: Raw)
    requires Run(c, ws, steps) && Distinct(Pushes(steps)) && i <= j < |ws|
    requires x in ws[i].dlq.pushed && x in ws[j].dlq.items
    ensures x in ws[i].dlq.items
  {
    RunKeepsInv(c, ws, steps, i);
    RunKeepsInv(c, ws, steps, j);
    RunExtendsDlq(c, ws, steps, i, j);
    QueueIsDistinct(c, ws, steps, j);
    var p := StillQueuedAt(ws[j].dlq.pushed, ws[j].dlq.fates, x);
    var q: nat :| q < |ws[i].dlq.pushed| && ws[i].dlq.pushed[q] == x;
    assert ws[j].dlq.pushed[q] == x;
    assert p == q;
    QueuedIsThere(ws[i].dlq.pushed, ws[i].dlq.fates, q);
  }

  lemma {:induction false} QueuedIsThere(pushed: seq<Raw>, fates: seq<Fate>, p: nat)
    requires |pushed| == |fates| && p < |pushed| && fates[p] == Queued
    ensures pushed[p] in StillQueued(pushed, fates)
  {
    if p > 0 {
      QueuedIsThere(pushed[1..], fates[1..], p - 1);
    }
  }
}

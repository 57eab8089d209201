/** The dead letter queue: a Redis list that tasks push to, trims cut and replays remove from by value. */
module DeadLetters {
  import opened Prelude

  datatype TaskName = VoiceWorker | TelegramWorker | EmailWorker | EscalationWorker | OtherTask

  /** args are the notification or incident id and the trace; the stamp is fresh for each push. */
  datatype Entry = Entry(task: TaskName, args: seq<nat>, error: string, stamp: nat)

  /** A list element: JSON of an entry, or text that does not parse. */
  datatype Raw = Payload(entry: Entry) | Garbage(text: string)

  datatype Fate = Queued | Replayed | Discarded | Trimmed

  /** The list, and the history of everything ever pushed with what became of it. */
  datatype Dlq = Dlq(items: seq<Raw>, pushed: seq<Raw>, fates: seq<Fate>)

  const EMPTY := Dlq([], [], [])

  function BoundDlqMaxItems(requested: int): nat { Max(1, requested) }

  /** LTRIM -limit -1. */
  function LastItems(items: seq<Raw>, limit: nat): seq<Raw> {
    if |items| <= limit then items else items[|items| - limit..]
  }

  /** LREM 1 value. */
  function RemoveFirst(items: seq<Raw>, x: Raw): seq<Raw> {
    if items == [] then []
    else if items[0] == x then items[1..]
    else [items[0]] + RemoveFirst(items[1..], x)
  }

  /** What is still queued of the pushes, in push order. */
  function StillQueued(pushed: seq<Raw>, fates: seq<Fate>): seq<Raw>
    requires |pushed| == |fates|
  {
    if pushed == [] then []
    else (if fates[0] == Queued then [pushed[0]] else []) + StillQueued(pushed[1..], fates[1..])
  }

  /** The oldest n queued pushes are trimmed. */
  function MarkOldest(fates: seq<Fate>, n: nat): (r: seq<Fate>)
    ensures |r| == |fates|
  {
    if fates == [] || n == 0 then fates
    else if fates[0] == Queued then [Trimmed] + MarkOldest(fates[1..], n - 1)
    else [fates[0]] + MarkOldest(fates[1..], n)
  }

  /** The oldest queued push of x gets the fate. */
  function MarkFirst(pushed: seq<Raw>, fates: seq<Fate>, x: Raw, fate: Fate): (r: seq<Fate>)
    requires |pushed| == |fates|
    ensures |r| == |fates|
  {
    if pushed == [] then []
    else if fates[0] == Queued && pushed[0] == x then [fate] + fates[1..]
    else [fates[0]] + MarkFirst(pushed[1..], fates[1..], x, fate)
  }

  /** The queue is exactly what was pushed and has met no other fate, in push order. */
  predicate Accounted(q: Dlq) {
    |q.pushed| == |q.fates| && q.items == StillQueued(q.pushed, q.fates)
  }

  function Push(q: Dlq, raw: Raw): Dlq {
    Dlq(q.items + [raw], q.pushed + [raw], q.fates + [Queued])
  }

  function Trim(q: Dlq, limit: nat): Dlq {
    q.(items := LastItems(q.items, limit),
       fates := if |q.items| <= limit then q.fates else MarkOldest(q.fates, |q.items| - limit))
  }

  function Remove(q: Dlq, x: Raw, fate: Fate): Dlq
    requires |q.pushed| == |q.fates|
  {
    q.(items := RemoveFirst(q.items, x), fates := MarkFirst(q.pushed, q.fates, x, fate))
  }

  /** RPUSH, then trim to the configured maximum. */
  function PushEntry(q: Dlq, raw: Raw, maxItems: int): Dlq {
    Trim(Push(q, raw), BoundDlqMaxItems(maxItems))
  }

  /** A fate once met is final. */
  ghost predicate Extends(q: Dlq, r: Dlq) {
    q.pushed <= r.pushed && Final(q.fates, r.fates)
  }

  lemma {:induction false} StillQueuedSnoc(pushed: seq<Raw>, fates: seq<Fate>, raw: Raw)
    requires |pushed| == |fates|
    ensures StillQueued(pushed + [raw], fates + [Queued]) == StillQueued(pushed, fates) + [raw]
  {
    if pushed != [] {
      StillQueuedSnoc(pushed[1..], fates[1..], raw);
      assert (pushed + [raw])[1..] == pushed[1..] + [raw];
      assert (fates + [Queued])[1..] == fates[1..] + [Queued];
    }
  }

  lemma PushAccounted(q: Dlq, raw: Raw)
    requires Accounted(q)
    ensures Accounted(Push(q, raw)) && Extends(q, Push(q, raw))
  {
    StillQueuedSnoc(q.pushed, q.fates, raw);
  }

  /** Marking leaves every fate already met as it is. */
  ghost predicate Final(fates: seq<Fate>, later: seq<Fate>) {
    |fates| <= |later| && forall i | 0 <= i < |fates| && fates[i] != Queued :: later[i] == fates[i]
  }

  lemma StillQueuedCons(x: Raw, pushed: seq<Raw>, f: Fate, fates: seq<Fate>)
    requires |pushed| == |fates|
    ensures StillQueued([x] + pushed, [f] + fates) == (if f == Queued then [x] else []) + StillQueued(pushed, fates)
  {
    assert ([x] + pushed)[1..] == pushed && ([f] + fates)[1..] == fates;
  }

  ghost predicate MarksOldest(pushed: seq<Raw>, fates: seq<Fate>, n: nat)
    requires |pushed| == |fates|
  {
    n <= |StillQueued(pushed, fates)| &&
    StillQueued(pushed, MarkOldest(fates, n)) == StillQueued(pushed, fates)[n..] &&
    Final(fates, MarkOldest(fates, n))
  }

  lemma OldestMarkedCons(x: Raw, pushed: seq<Raw>, f: Fate, fates: seq<Fate>, n: nat)
    requires |pushed| == |fates| && n > 0 && MarksOldest(pushed, fates, if f == Queued then n - 1 else n)
    ensures MarksOldest([x] + pushed, [f] + fates, n)
  {
    assert ([f] + fates)[1..] == fates;
    StillQueuedCons(x, pushed, f, fates);
    var rest := StillQueued(pushed, fates);
    if f == Queued {
      StillQueuedCons(x, pushed, Trimmed, MarkOldest(fates, n - 1));
      assert ([x] + rest)[n..] == rest[n - 1..];
    } else {
      StillQueuedCons(x, pushed, f, MarkOldest(fates, n));
      assert ([] + rest)[n..] == rest[n..];
    }
  }

  lemma {:induction false} OldestMarked(pushed: seq<Raw>, fates: seq<Fate>, n: nat)
    requires |pushed| == |fates| && n <= |StillQueued(pushed, fates)|
    ensures MarksOldest(pushed, fates, n)
  {
    if pushed != [] && n > 0 {
      OldestMarked(pushed[1..], fates[1..], if fates[0] == Queued then n - 1 else n);
      OldestMarkedCons(pushed[0], pushed[1..], fates[0], fates[1..], n);
      assert [pushed[0]] + pushed[1..] == pushed && [fates[0]] + fates[1..] == fates;
    }
  }

  lemma TrimAccounted(q: Dlq, limit: nat)
    requires Accounted(q)
    ensures Accounted(Trim(q, limit)) && Extends(q, Trim(q, limit)) && |Trim(q, limit).items| <= limit
  {
    if limit < |q.items| {
      var n := |q.items| - limit;
      var fates := MarkOldest(q.fates, n);
      OldestMarked(q.pushed, q.fates, n);
      assert Trim(q, limit) == Dlq(q.items[n..], q.pushed, fates);
      assert StillQueued(q.pushed, fates) == q.items[n..];
    }
  }

  lemma {:induction false} FirstMarked(pushed: seq<Raw>, fates: seq<Fate>, x: Raw, fate: Fate)
    requires |pushed| == |fates| && fate != Queued
    ensures StillQueued(pushed, MarkFirst(pushed, fates, x, fate)) == RemoveFirst(StillQueued(pushed, fates), x)
    ensures Final(fates, MarkFirst(pushed, fates, x, fate))
  {
    if pushed != [] {
      var rest, later := StillQueued(pushed[1..], fates[1..]), MarkFirst(pushed[1..], fates[1..], x, fate);
      FirstMarked(pushed[1..], fates[1..], x, fate);
      assert pushed == [pushed[0]] + pushed[1..];
      if fates[0] == Queued {
        assert ([pushed[0]] + rest)[1..] == rest;
        if pushed[0] == x {
          StillQueuedCons(pushed[0], pushed[1..], fate, fates[1..]);
        } else {
          StillQueuedCons(pushed[0], pushed[1..], Queued, later);
        }
      } else {
        StillQueuedCons(pushed[0], pushed[1..], fates[0], later);
        assert [] + rest == rest;
      }
    }
  }

  lemma RemoveAccounted(q: Dlq, x: Raw, fate: Fate)
    requires Accounted(q) && fate != Queued
    ensures Accounted(Remove(q, x, fate)) && Extends(q, Remove(q, x, fate))
  {
    FirstMarked(q.pushed, q.fates, x, fate);
  }

  function HasFate(fate: Fate): Fate -> bool { (f: Fate) => f == fate }

  /** Exactly one push met the fate. */
  ghost predicate MetOnce(fates: seq<Fate>, later: seq<Fate>, fate: Fate) {
    && Count(later, HasFate(Replayed)) == Count(fates, HasFate(Replayed)) + (if fate == Replayed then 1 else 0)
    && Count(later, HasFate(Discarded)) == Count(fates, HasFate(Discarded)) + (if fate == Discarded then 1 else 0)
    && Count(later, HasFate(Trimmed)) == Count(fates, HasFate(Trimmed)) + (if fate == Trimmed then 1 else 0)
  }

  lemma FateCons(f: Fate, fates: seq<Fate>, h: Fate)
    ensures Count([f] + fates, HasFate(h)) == (if f == h then 1 else 0) + Count(fates, HasFate(h))
  {
    CountAppend([f], fates, HasFate(h));
    assert [f][..0] == [];
  }

  lemma FatesCons(f: Fate, fates: seq<Fate>)
    ensures forall h :: Count([f] + fates, HasFate(h)) == (if f == h then 1 else 0) + Count(fates, HasFate(h))
  {
    forall h ensures Count([f] + fates, HasFate(h)) == (if f == h then 1 else 0) + Count(fates, HasFate(h)) {
      FateCons(f, fates, h);
    }
  }

  /** Removing a queued value marks one push and no other. */
  lemma {:induction false} FirstMarkedOnce(pushed: seq<Raw>, fates: seq<Fate>, x: Raw, fate: Fate)
    requires |pushed| == |fates| && fate != Queued && x in StillQueued(pushed, fates)
    ensures MetOnce(fates, MarkFirst(pushed, fates, x, fate), fate)
  {
    var rest := fates[1..];
    assert fates == [fates[0]] + rest;
    FatesCons(fates[0], rest);
    if fates[0] == Queued && pushed[0] == x {
      FatesCons(fate, rest);
    } else {
      FirstMarkedOnce(pushed[1..], rest, x, fate);
      FatesCons(fates[0], MarkFirst(pushed[1..], rest, x, fate));
    }
  }

  lemma {:induction false} QueuedCount(pushed: seq<Raw>, fates: seq<Fate>)
    requires |pushed| == |fates|
    ensures |StillQueued(pushed, fates)| == Count(fates, HasFate(Queued))
    ensures |fates| == Count(fates, HasFate(Queued)) + Count(fates, HasFate(Replayed)) +
                       Count(fates, HasFate(Discarded)) + Count(fates, HasFate(Trimmed))
  {
    if pushed != [] {
      QueuedCount(pushed[..|pushed| - 1], fates[..|fates| - 1]);
      StillQueuedLast(pushed, fates);
    }
  }

  lemma {:induction false} StillQueuedLast(pushed: seq<Raw>, fates: seq<Fate>)
    requires |pushed| == |fates| > 0
    ensures var n := |pushed| - 1;
            StillQueued(pushed, fates) ==
            StillQueued(pushed[..n], fates[..n]) + (if fates[n] == Queued then [pushed[n]] else [])
  {
    var n := |pushed| - 1;
    if n > 0 {
      StillQueuedLast(pushed[1..], fates[1..]);
      assert pushed[1..][..n - 1] == pushed[..n][1..] && fates[1..][..n - 1] == fates[..n][1..];
    }
  }

  /** Nothing is lost silently: every push is queued, replayed, discarded or trimmed, and only one. */
  lemma DlqConservation(q: Dlq)
    requires Accounted(q)
    ensures |q.pushed| == |q.items| + Count(q.fates, HasFate(Replayed)) +
                          Count(q.fates, HasFate(Discarded)) + Count(q.fates, HasFate(Trimmed))
  {
    QueuedCount(q.pushed, q.fates);
  }

  function PushAll(raws: seq<Raw>, maxItems: int): Dlq {
    if raws == [] then EMPTY else PushEntry(PushAll(raws[..|raws| - 1], maxItems), raws[|raws| - 1], maxItems)
  }

  lemma LastItemsSnoc(items: seq<Raw>, x: Raw, limit: nat)
    requires limit >= 1
    ensures LastItems(LastItems(items, limit) + [x], limit) == LastItems(items + [x], limit)
  {
  }

  /** Without replays, trimming at every push keeps the last N of the whole history. */
  lemma {:induction false} PushesKeepLast(raws: seq<Raw>, maxItems: int)
    ensures var n := if maxItems < 1 then 1 else maxItems;
            PushAll(raws, maxItems).items == if |raws| <= n then raws else raws[|raws| - n..]
  {
    PushesTrimmed(raws, maxItems);
  }

  lemma {:induction false} PushesTrimmed(raws: seq<Raw>, maxItems: int)
    ensures PushAll(raws, maxItems).items == LastItems(raws, BoundDlqMaxItems(maxItems))
  {
    if raws != [] {
      var n := |raws| - 1;
      PushesTrimmed(raws[..n], maxItems);
      LastItemsSnoc(raws[..n], raws[n], BoundDlqMaxItems(maxItems));
      assert raws[..n] + [raws[n]] == raws;
    }
  }

  // ---------------------------------------------------------------- the replay loop

  /** What one snapshot entry met: kept in the list, replayed, or dropped by the error filter. */
  datatype Ruling = Keep | Replay | Discard

  /** The list after walking a snapshot: each entry not kept is removed by value from the live list. */
  function Drain(items: seq<Raw>, snapshot: seq<Raw>, vs: seq<Ruling>): seq<Raw>
    requires |snapshot| == |vs|
  {
    if vs == [] then items
    else
      var n := |vs| - 1;
      var live := Drain(items, snapshot[..n], vs[..n]);
      if vs[n] == Keep then live else RemoveFirst(live, snapshot[n])
  }

  function Kept(snapshot: seq<Raw>, vs: seq<Ruling>): seq<Raw>
    requires |snapshot| == |vs|
  {
    if vs == [] then []
    else
      var n := |vs| - 1;
      Kept(snapshot[..n], vs[..n]) + (if vs[n] == Keep then [snapshot[n]] else [])
  }

  lemma DrainSnoc(items: seq<Raw>, snapshot: seq<Raw>, vs: seq<Ruling>, x: Raw, v: Ruling)
    requires |snapshot| == |vs|
    ensures var live := Drain(items, snapshot, vs);
            Drain(items, snapshot + [x], vs + [v]) == if v == Keep then live else RemoveFirst(live, x)
  {
    assert (snapshot + [x])[..|vs|] == snapshot && (vs + [v])[..|vs|] == vs;
  }

  function Is(v: Ruling): Ruling -> bool { (x: Ruling) => x == v }

  /** Since fates0 the walk gave each ruling's fate to one push, and no other fate to any. */
  ghost predicate Ledgered(fates0: seq<Fate>, fates: seq<Fate>, vs: seq<Ruling>) {
    && Count(fates, HasFate(Replayed)) == Count(fates0, HasFate(Replayed)) + Count(vs, Is(Replay))
    && Count(fates, HasFate(Discarded)) == Count(fates0, HasFate(Discarded)) + Count(vs, Is(Discard))
    && Count(fates, HasFate(Trimmed)) == Count(fates0, HasFate(Trimmed))
  }

  lemma LedgerOn(fates0: seq<Fate>, fates: seq<Fate>, later: seq<Fate>, vs: seq<Ruling>, v: Ruling)
    requires Ledgered(fates0, fates, vs)
    requires if v == Keep then later == fates else MetOnce(fates, later, if v == Replay then Replayed else Discarded)
    ensures Ledgered(fates0, later, vs + [v])
  {
    CountSnoc(vs, v, Is(Replay));
    CountSnoc(vs, v, Is(Discard));
  }

  /** The element the walk comes to next is still in the live list. */
  lemma NextIsLive(items: seq<Raw>, vs: seq<Ruling>)
    requires |vs| < |items|
    ensures items[|vs|] in Drain(items, items[..|vs|], vs)
  {
    DrainKeepsMultiset(items, vs);
    assert items[|vs|] in items[|vs|..];
    assert items[|vs|] in multiset(Drain(items, items[..|vs|], vs));
  }

  lemma {:induction false} RemoveFirstCounts(items: seq<Raw>, x: Raw)
    requires x in items
    ensures multiset(RemoveFirst(items, x)) == multiset(items) - multiset{x}
  {
    assert items == [items[0]] + items[1..];
    if items[0] != x {
      RemoveFirstCounts(items[1..], x);
    }
  }

  lemma {:induction false} RemoveFirstAt(before: seq<Raw>, x: Raw, after: seq<Raw>)
    requires x !in before
    ensures RemoveFirst(before + [x] + after, x) == before + after
  {
    var items := before + [x] + after;
    if before != [] {
      RemoveFirstAt(before[1..], x, after);
      assert items[1..] == before[1..] + [x] + after;
    } else {
      assert items[1..] == after;
    }
  }

  lemma {:induction false} RemoveAbsent(items: seq<Raw>, x: Raw)
    requires x !in items
    ensures RemoveFirst(items, x) == items
  {
    if items != [] {
      RemoveAbsent(items[1..], x);
    }
  }

  lemma {:induction false} KeptComeFromSnapshot(snapshot: seq<Raw>, vs: seq<Ruling>)
    requires |snapshot| == |vs|
    ensures forall x | x in Kept(snapshot, vs) :: x in snapshot
    ensures |snapshot| == |Kept(snapshot, vs)| + Count(vs, Is(Replay)) + Count(vs, Is(Discard))
  {
    if vs != [] {
      KeptComeFromSnapshot(snapshot[..|vs| - 1], vs[..|vs| - 1]);
    }
  }

  /** The live list is the kept entries and the tail, and the list the loop began with is the live
   *  list and what was replayed or discarded. */
  ghost predicate Balanced(begun: nat, live: seq<Raw>, kept: seq<Raw>, tail: seq<Raw>, vs: seq<Ruling>) {
    multiset(live) == multiset(kept) + multiset(tail) &&
    begun == |live| + Count(vs, Is(Replay)) + Count(vs, Is(Discard))
  }

  lemma BalanceKept(begun: nat, live: seq<Raw>, kept: seq<Raw>, x: Raw, tail: seq<Raw>, vs: seq<Ruling>, v: Ruling)
    requires Balanced(begun, live, kept, [x] + tail, vs)
    ensures if v == Keep then Balanced(begun, live, kept + [x], tail, vs + [v])
            else Balanced(begun, RemoveFirst(live, x), kept, tail, vs + [v])
  {
    assert x in multiset(live);
    RemoveFirstCounts(live, x);
    assert |multiset(RemoveFirst(live, x))| == |multiset(live)| - 1;
    CountSnoc(vs, v, Is(Replay));
    CountSnoc(vs, v, Is(Discard));
  }

  /** As a multiset the list ends as the kept entries of the batch and the untouched tail; and no entry
   *  is lost: what was there is what remains, was replayed, or was discarded. */
  lemma {:induction false} DrainKeepsMultiset(items: seq<Raw>, vs: seq<Ruling>)
    requires |vs| <= |items|
    ensures Balanced(|items|, Drain(items, items[..|vs|], vs), Kept(items[..|vs|], vs), items[|vs|..], vs)
  {
    if vs == [] {
      assert items[0..] == items;
    } else {
      var n := |vs| - 1;
      DrainKeepsMultiset(items, vs[..n]);
      assert items[..|vs|][..n] == items[..n] && vs == vs[..n] + [vs[n]];
      assert items[n..] == [items[n]] + items[|vs|..];
      var kept := Kept(items[..n], vs[..n]);
      BalanceKept(|items|, Drain(items, items[..n], vs[..n]), kept, items[n], items[|vs|..], vs[..n], vs[n]);
      assert kept + [] == kept;
    }
  }

  // ---------------------------------------------------------------- order

  /** Equal elements stand side by side. */
  predicate Adjacent(s: seq<Raw>) {
    forall i: nat, k: nat, j: nat | i < k < j < |s| && s[i] == s[j] :: s[k] == s[i]
  }

  /** From the first x on, s has nothing but x. */
  predicate EndsIn(s: seq<Raw>, x: Raw) {
    forall i: nat, j: nat | i < j < |s| && s[i] == x :: s[j] == x
  }

  lemma {:induction false} KeptEndsIn(snapshot: seq<Raw>, vs: seq<Ruling>, x: Raw)
    requires |snapshot| == |vs| && EndsIn(snapshot, x)
    ensures EndsIn(Kept(snapshot, vs), x)
  {
    if vs != [] {
      var n := |vs| - 1;
      KeptEndsIn(snapshot[..n], vs[..n], x);
      KeptComeFromSnapshot(snapshot[..n], vs[..n]);
      var kept := Kept(snapshot[..n], vs[..n]);
      forall i: nat | i < |kept| && kept[i] == x ensures snapshot[n] == x {
        assert kept[i] in snapshot[..n];
      }
    }
  }

  /** Where x first occurs. */
  function IndexOf(s: seq<Raw>, x: Raw): (f: nat)
    requires x in s
    ensures f < |s| && s[f] == x && x !in s[..f]
  {
    if s[0] == x then 0
    else
      assert s == [s[0]] + s[1..];
      var f := IndexOf(s[1..], x);
      assert s[..f + 1] == [s[0]] + s[1..][..f];
      f + 1
  }

  lemma {:induction false} IndexOfIsFirst(s: seq<Raw>, x: Raw, i: nat)
    requires i < |s| && s[i] == x
    ensures IndexOf(s, x) <= i
  {
    if s[0] != x {
      IndexOfIsFirst(s[1..], x, i - 1);
    }
  }

  lemma {:induction false} RemoveFirstIs(s: seq<Raw>, x: Raw)
    requires x in s
    ensures var f := IndexOf(s, x); RemoveFirst(s, x) == s[..f] + s[f + 1..]
  {
    var f := IndexOf(s, x);
    RemoveFirstAt(s[..f], x, s[f + 1..]);
    assert s == s[..f] + [x] + s[f + 1..];
  }

  /** When the kept entries end in x, removing the first x leaves what removing the next one would. */
  lemma RemoveNext(kept: seq<Raw>, x: Raw, tail: seq<Raw>)
    requires EndsIn(kept, x)
    ensures RemoveFirst(kept + ([x] + tail), x) == kept + tail
  {
    var live := kept + ([x] + tail);
    assert live[|kept|] == x;
    RemoveFirstIs(live, x);
    var f := IndexOf(live, x);
    IndexOfIsFirst(live, x, |kept|);
    assert forall m | f <= m < |kept| :: kept[m] == x;
    assert forall m | f < m <= |kept| :: live[m] == x;
  }

  lemma BatchEndsIn(items: seq<Raw>, n: nat)
    requires n < |items| && Adjacent(items[..n + 1])
    ensures Adjacent(items[..n]) && EndsIn(items[..n], items[n])
  {
    var batch := items[..n + 1];
    forall i: nat, j: nat | i < j < n && items[..n][i] == items[n] ensures items[..n][j] == items[n] {
      assert batch[i] == batch[n] && batch[j] == items[j];
    }
    forall i: nat, k: nat, j: nat | i < k < j < n && items[..n][i] == items[..n][j]
      ensures items[..n][k] == items[..n][i]
    {
      assert batch[i] == batch[j] && batch[k] == items[k];
    }
  }

  /** When equal entries of the batch stand side by side the order is kept: the kept entries of the batch,
   *  then the tail, whatever the tail repeats. */
  lemma {:induction false} DrainKeepsOrder(items: seq<Raw>, vs: seq<Ruling>)
    requires |vs| <= |items| && Adjacent(items[..|vs|])
    ensures Drain(items, items[..|vs|], vs) == Kept(items[..|vs|], vs) + items[|vs|..]
  {
    if vs == [] {
      assert items[0..] == items;
    } else {
      var n := |vs| - 1;
      BatchEndsIn(items, n);
      DrainKeepsOrder(items, vs[..n]);
      assert items[..|vs|][..n] == items[..n];
      assert items[n..] == [items[n]] + items[|vs|..];
      KeptEndsIn(items[..n], vs[..n], items[n]);
      OrderKept(Drain(items, items[..n], vs[..n]), Kept(items[..n], vs[..n]), items[n], items[|vs|..], vs[n]);
    }
  }

  lemma OrderKept(live: seq<Raw>, kept: seq<Raw>, x: Raw, tail: seq<Raw>, v: Ruling)
    requires EndsIn(kept, x) && live == kept + ([x] + tail)
    ensures (if v == Keep then live else RemoveFirst(live, x)) == kept + (if v == Keep then [x] else []) + tail
  {
    RemoveNext(kept, x, tail);
    assert live == kept + [x] + tail && kept + [] + tail == kept + tail;
  }

  /** Everything kept but the j-th entry. */
  function AllBut(n: nat, j: nat): (vs: seq<Ruling>)
    ensures |vs| == n
  {
    seq(n, i => if i == j then Replay else Keep)
  }

  ghost predicate DrainedAllBut(items: seq<Raw>, j: nat, m: nat)
    requires j < |items| && m <= |items|
  {
    && Drain(items, items[..m], AllBut(m, j)) == (if m <= j then items else RemoveFirst(items, items[j]))
    && Kept(items[..m], AllBut(m, j)) == (if m <= j then items[..m] else items[..j] + items[j + 1..m])
  }

  lemma {:induction false} DrainAllBut(items: seq<Raw>, j: nat, m: nat)
    requires j < |items| && m <= |items|
    ensures DrainedAllBut(items, j, m)
  {
    if m > 0 {
      DrainAllBut(items, j, m - 1);
      assert items[..m][..m - 1] == items[..m - 1] && AllBut(m, j)[..m - 1] == AllBut(m - 1, j);
      assert items[..m][m - 1] == items[m - 1] && AllBut(m, j)[m - 1] == if m - 1 == j then Replay else Keep;
      if m - 1 == j {
        assert items[..j] + [] == items[..j] + items[j + 1..m];
      } else if m - 1 < j {
        assert items[..m - 1] + [items[m - 1]] == items[..m];
      } else {
        assert items[..j] + items[j + 1..m - 1] + [items[m - 1]] == items[..j] + items[j + 1..m];
      }
    }
  }

  /** Taking out the first and taking out a later occurrence differ unless all between are equal. */
  lemma {:induction false} SameBetween(items: seq<Raw>, f: nat, j: nat, m: nat)
    requires f <= m <= j < |items| && items[..f] + items[f + 1..] == items[..j] + items[j + 1..]
    ensures items[m] == items[f]
    decreases m
  {
    if f < m {
      SameBetween(items, f, j, m - 1);
      assert (items[..f] + items[f + 1..])[m - 1] == items[m];
      assert (items[..j] + items[j + 1..])[m - 1] == items[m - 1];
    }
  }

  lemma {:induction false} RemovalsDiffer(items: seq<Raw>, f: nat, k: nat, j: nat)
    requires f <= k < j < |items| && items[k] != items[f]
    ensures items[..f] + items[f + 1..] != items[..j] + items[j + 1..]
  {
    if items[..f] + items[f + 1..] == items[..j] + items[j + 1..] {
      SameBetween(items, f, j, k);
    }
  }

  /** What the loop leaves, and what it should, when all but the j-th entry are kept and f is its first equal. */
  lemma {:induction false} AllButIs(items: seq<Raw>, n: nat, j: nat)
    requires j < n <= |items|
    ensures var f := IndexOf(items, items[j]); Drain(items, items[..n], AllBut(n, j)) == items[..f] + items[f + 1..]
    ensures Kept(items[..n], AllBut(n, j)) + items[n..] == items[..j] + items[j + 1..]
  {
    DrainAllBut(items, j, n);
    RemoveFirstIs(items, items[j]);
    WithoutAt(items, n, j);
  }

  lemma WithoutAt(items: seq<Raw>, n: nat, j: nat)
    requires j < n <= |items|
    ensures items[..j] + items[j + 1..n] + items[n..] == items[..j] + items[j + 1..]
  {
  }

  /** Removal by value loses the order as soon as equal entries of the batch stand apart: keeping all but the
   *  later one takes the earlier one out of the list. */
  lemma {:induction false} RepeatedEntriesLoseOrder(items: seq<Raw>, n: nat, i: nat, k: nat, j: nat)
    requires i < k < j < n <= |items| && items[i] == items[j] && items[k] != items[i]
    ensures Drain(items, items[..n], AllBut(n, j)) != Kept(items[..n], AllBut(n, j)) + items[n..]
  {
    AllButIs(items, n, j);
    IndexOfIsFirst(items, items[j], i);
    RemovalsDiffer(items, IndexOf(items, items[j]), k, j);
  }

  /** The replay loop keeps the order under all rulings exactly when equal entries of its batch are adjacent. */
  lemma OrderKeptIffAdjacent(items: seq<Raw>, n: nat)
    requires n <= |items|
    ensures (forall vs | |vs| == n :: Drain(items, items[..n], vs) == Kept(items[..n], vs) + items[n..]) <==>
            Adjacent(items[..n])
  {
    if Adjacent(items[..n]) {
      forall vs | |vs| == n ensures Drain(items, items[..n], vs) == Kept(items[..n], vs) + items[n..] {
        DrainKeepsOrder(items, vs);
      }
    } else {
      var batch := items[..n];
      var i: nat, k: nat, j: nat :| i < k < j < |batch| && batch[i] == batch[j] && batch[k] != batch[i];
      RepeatedEntriesLoseOrder(items, n, i, k, j);
      assert |AllBut(n, j)| == n;
    }
  }

  predicate Distinct(s: seq<Raw>) {
    forall i: nat, j: nat | i < j < |s| :: s[i] != s[j]
  }

  lemma {:induction false} QueuedWerePushed(pushed: seq<Raw>, fates: seq<Fate>)
    requires |pushed| == |fates|
    ensures forall x | x in StillQueued(pushed, fates) :: x in pushed
  {
    if pushed != [] {
      QueuedWerePushed(pushed[1..], fates[1..]);
      assert pushed == [pushed[0]] + pushed[1..];
    }
  }

  /** Pushes that all differ, as their stamps make them, leave a queue whose entries all differ. */
  lemma {:induction false} DistinctPushes(pushed: seq<Raw>, fates: seq<Fate>)
    requires |pushed| == |fates| && Distinct(pushed)
    ensures Distinct(StillQueued(pushed, fates))
  {
    if pushed != [] {
      var rest := StillQueued(pushed[1..], fates[1..]);
      DistinctPushes(pushed[1..], fates[1..]);
      QueuedWerePushed(pushed[1..], fates[1..]);
      forall x | x in rest ensures x != pushed[0] {
        var j :| 0 <= j < |pushed[1..]| && pushed[1..][j] == x;
        assert pushed[j + 1] == x;
      }
      assert forall j: nat | j < |rest| :: rest[j] in rest;
    }
  }

  /** A batch is what was asked for, but at least one entry and at most the operators' maximum. */
  function BoundReplayLimit(requested: int, opsMax: int): (r: nat)
    ensures 1 <= r && (opsMax >= 1 ==> r <= opsMax) && (opsMax < 1 ==> r == 1)
    ensures 1 <= requested <= opsMax ==> r == requested
    ensures requested < 1 ==> r == 1
    ensures requested > opsMax >= 1 ==> r == opsMax
  {
    Max(1, Min(requested, opsMax))
  }

  // ---------------------------------------------------------------- the error filter

  function Lower(s: string): string {
    if s == "" then "" else [if 'A' <= s[0] <= 'Z' then s[0] + ' ' else s[0]] + Lower(s[1..])
  }

  predicate OccursAt(s: string, part: string, i: nat) {
    i + |part| <= |s| && s[i..i + |part|] == part
  }

  predicate Contains(s: string, part: string) {
    exists i: nat | i <= |s| :: OccursAt(s, part, i)
  }

  /** Errors a replay can never mend. */
  predicate Hopeless(error: string) {
    var s := Lower(error);
    Contains(s, "validationerror") || Contains(s, "bad request") || Contains(s, "400")
  }

  /** The phrase, in small letters, stands in s from i on, in small or capital letters. */
  predicate SpelledAt(s: string, phrase: string, i: nat) {
    i + |phrase| <= |s| &&
    forall k: nat | k < |phrase| :: s[i + k] == phrase[k] ||
      ('A' <= s[i + k] <= 'Z' && phrase[k] as int == s[i + k] as int + 32)
  }

  predicate Spelled(s: string, phrase: string) {
    exists i: nat | i <= |s| :: SpelledAt(s, phrase, i)
  }

  predicate Small(x: char) { !('A' <= x <= 'Z') }

  lemma {:induction false} LowerAt(s: string)
    ensures |Lower(s)| == |s|
    ensures forall k: nat | k < |s| ::
              Lower(s)[k] as int == if 'A' <= s[k] <= 'Z' then s[k] as int + 32 else s[k] as int
  {
    if s != "" {
      LowerAt(s[1..]);
    }
  }

  lemma ContainsIffSpelled(s: string, phrase: string)
    requires forall x | x in phrase :: Small(x)
    ensures Contains(Lower(s), phrase) <==> Spelled(s, phrase)
  {
    LowerAt(s);
    forall i: nat | i <= |s| ensures OccursAt(Lower(s), phrase, i) <==> SpelledAt(s, phrase, i) {
      if i + |phrase| <= |s| {
        var part := Lower(s)[i..i + |phrase|];
        assert forall k: nat | k < |phrase| :: part[k] == Lower(s)[i + k] && Small(phrase[k]);
      }
    }
  }

  /** The filter discards exactly the errors in which one of the three phrases is spelled somewhere, whatever
   *  the letter case. */
  lemma HopelessIff(error: string)
    ensures Hopeless(error) <==>
            Spelled(error, "validationerror") || Spelled(error, "bad request") || Spelled(error, "400")
  {
    ContainsIffSpelled(error, "validationerror");
    ContainsIffSpelled(error, "bad request");
    ContainsIffSpelled(error, "400");
  }
}

/** Which notifications an incident has: get-or-create over the members of a group and a rule's channels. */
module Fanout {
  import opened Prelude
  import opened Guards
  import opened State

  datatype NoteKey = NoteKey(incident: nat, contact: nat, channel: Channel)

  function KeyOf(n: Notification): NoteKey { NoteKey(n.incident, n.contact, n.channel) }

  function Keys(notes: seq<Notification>): set<NoteKey> { set n | n in notes :: KeyOf(n) }

  predicate Unique(notes: seq<Notification>) {
    forall i: nat, j: nat | i < j < |notes| :: KeyOf(notes[i]) != KeyOf(notes[j])
  }

  function FindNote(notes: seq<Notification>, k: NoteKey): (r: Option<nat>)
    ensures match r
            case None => k !in Keys(notes)
            case Some(i) => i < |notes| && KeyOf(notes[i]) == k && k in Keys(notes)
  {
    if notes == [] then None
    else
      var n := |notes| - 1;
      assert forall x | x in notes :: x in notes[..n] || x == notes[n];
      match FindNote(notes[..n], k)
      case Some(i) => Some(i)
      case None => if KeyOf(notes[n]) == k then Some(n) else None
  }

  function NewNote(k: NoteKey): Notification {
    Notification(k.incident, k.contact, k.channel, PENDING, None, None)
  }

  function GetOrCreate(notes: seq<Notification>, k: NoteKey): seq<Notification> {
    if FindNote(notes, k).Some? then notes else notes + [NewNote(k)]
  }

  /** Telegram and e-mail are not used for INFO incidents. */
  predicate ChannelEnabled(severity: Severity, ch: Channel) {
    (ch == TELEGRAM || ch == EMAIL) ==> severity.OTHER?
  }

  /** The channels of one member that name a channel and are enabled, in the rule's order. */
  function MemberKeys(incident: nat, severity: Severity, member: nat, channels: seq<Option<Channel>>): seq<NoteKey> {
    if channels == [] then []
    else
      var n := |channels| - 1;
      MemberKeys(incident, severity, member, channels[..n]) +
      (if channels[n].Some? && ChannelEnabled(severity, channels[n].value)
       then [NoteKey(incident, member, channels[n].value)] else [])
  }

  function FanoutKeys(incident: nat, severity: Severity,
                      members: seq<nat>, channels: seq<Option<Channel>>): seq<NoteKey> {
    if members == [] then []
    else
      var n := |members| - 1;
      FanoutKeys(incident, severity, members[..n], channels) + MemberKeys(incident, severity, members[n], channels)
  }

  function CreateAll(notes: seq<Notification>, keys: seq<NoteKey>): seq<Notification> {
    if keys == [] then notes
    else GetOrCreate(CreateAll(notes, keys[..|keys| - 1]), keys[|keys| - 1])
  }

  function RowToQueue(notes: seq<Notification>, k: NoteKey): seq<nat> {
    var row := FindNote(notes, k);
    if row.Some? && !Terminal(notes[row.value].status) then [row.value] else []
  }

  /** The rows to queue: one for each key, in order, whose row is not terminal. */
  function ToQueue(notes: seq<Notification>, keys: seq<NoteKey>): seq<nat> {
    if keys == [] then []
    else ToQueue(notes, keys[..|keys| - 1]) + RowToQueue(notes, keys[|keys| - 1])
  }

  lemma {:induction false} MemberKeysAre(incident: nat, severity: Severity, member: nat, channels: seq<Option<Channel>>)
    ensures forall k :: k in MemberKeys(incident, severity, member, channels) <==>
              k.incident == incident && k.contact == member && Some(k.channel) in channels &&
              (severity == INFO || severity == PADDED_INFO ==> k.channel != TELEGRAM && k.channel != EMAIL)
  {
    if channels != [] {
      var n := |channels| - 1;
      MemberKeysAre(incident, severity, member, channels[..n]);
      assert channels == channels[..n] + [channels[n]];
    }
  }

  /** The keys of a fan-out are members times enabled channels, nothing else and nothing missing. */
  lemma {:induction false} FanoutKeysAre(incident: nat, severity: Severity,
                                         members: seq<nat>, channels: seq<Option<Channel>>)
    ensures forall k :: k in FanoutKeys(incident, severity, members, channels) <==>
              k.incident == incident && k.contact in members && Some(k.channel) in channels &&
              (severity == INFO || severity == PADDED_INFO ==> k.channel != TELEGRAM && k.channel != EMAIL)
  {
    if members != [] {
      var n := |members| - 1;
      FanoutKeysAre(incident, severity, members[..n], channels);
      MemberKeysAre(incident, severity, members[n], channels);
      assert members == members[..n] + [members[n]];
    }
  }

  lemma KeysSnoc(notes: seq<Notification>, n: Notification)
    ensures Keys(notes + [n]) == Keys(notes) + {KeyOf(n)}
  {
    assert forall x | x in notes + [n] :: x in notes || x == n;
    assert forall x | x in notes :: x in notes + [n];
    assert n in notes + [n];
  }

  lemma GetOrCreateKeeps(notes: seq<Notification>, k: NoteKey)
    requires Unique(notes)
    ensures Unique(GetOrCreate(notes, k)) && notes <= GetOrCreate(notes, k)
    ensures Keys(GetOrCreate(notes, k)) == Keys(notes) + {k}
  {
    KeysSnoc(notes, NewNote(k));
    if FindNote(notes, k).None? {
      forall i: nat | i < |notes| ensures KeyOf(notes[i]) != k {
        assert notes[i] in notes;
      }
    }
  }

  /** after has the rows of notes and one PENDING row for each key that had none. */
  ghost predicate Adds(notes: seq<Notification>, after: seq<Notification>, keys: set<NoteKey>) {
    && Unique(after) && notes <= after && Keys(after) == Keys(notes) + keys
    && (forall i | |notes| <= i < |after| :: Fresh(after[i]))
  }

  predicate Fresh(n: Notification) { n.status == PENDING && n.providerId == None && n.error == None }

  lemma AddsNext(notes: seq<Notification>, front: seq<NoteKey>, k: NoteKey, keys: seq<NoteKey>)
    requires Adds(notes, CreateAll(notes, front), (set x | x in front)) && keys == front + [k]
    ensures Adds(notes, CreateAll(notes, keys), (set x | x in keys))
  {
    GetOrCreateKeeps(CreateAll(notes, front), k);
    CreateAllSnoc(notes, front, k);
    assert (set x | x in keys) == (set x | x in front) + {k};
    var mid, after := CreateAll(notes, front), CreateAll(notes, keys);
    assert after == mid || after == mid + [NewNote(k)];
  }

  /** One fan-out makes the key set exactly the old one and the fan-out's keys, keeps every row it found,
   *  adds only PENDING rows, and keeps (incident, contact, channel) unique. */
  lemma {:induction false} CreateAllAdds(notes: seq<Notification>, keys: seq<NoteKey>)
    requires Unique(notes)
    ensures Adds(notes, CreateAll(notes, keys), (set k | k in keys))
  {
    if keys != [] {
      var n := |keys| - 1;
      CreateAllAdds(notes, keys[..n]);
      AddsNext(notes, keys[..n], keys[n], keys);
    }
  }

  /** A fan-out over keys that all have rows adds none. */
  lemma {:induction false} CreateAllSettled(notes: seq<Notification>, keys: seq<NoteKey>)
    requires forall k | k in keys :: k in Keys(notes)
    ensures CreateAll(notes, keys) == notes
  {
    if keys != [] {
      CreateAllSettled(notes, keys[..|keys| - 1]);
    }
  }

  /** Dispatching again with the same members and channels adds no row. */
  lemma FanoutIsIdempotent(notes: seq<Notification>, keys: seq<NoteKey>)
    requires Unique(notes)
    ensures CreateAll(CreateAll(notes, keys), keys) == CreateAll(notes, keys)
  {
    CreateAllAdds(notes, keys);
    CreateAllSettled(CreateAll(notes, keys), keys);
  }

  /** Only rows that are not terminal are queued, and every such row of the fan-out is. */
  lemma {:induction false} QueuedAreOpen(notes: seq<Notification>, keys: seq<NoteKey>)
    requires Unique(notes) && forall k | k in keys :: k in Keys(notes)
    ensures forall i: nat :: i in ToQueue(notes, keys) <==>
              i < |notes| && KeyOf(notes[i]) in keys && !Terminal(notes[i].status)
  {
    if keys != [] {
      var n := |keys| - 1;
      QueuedAreOpen(notes, keys[..n]);
      assert keys == keys[..n] + [keys[n]];
    }
  }

  // ---------------------------------------------------------------- putting fan-outs together

  lemma {:induction false} FindNoteStable(notes: seq<Notification>, more: seq<Notification>, k: NoteKey)
    requires notes <= more && FindNote(notes, k).Some?
    ensures FindNote(more, k) == FindNote(notes, k)
  {
    if |notes| < |more| {
      FindNoteStable(notes, more[..|more| - 1], k);
    } else {
      assert more == notes;
    }
  }

  lemma CreateAllSnoc(notes: seq<Notification>, keys: seq<NoteKey>, k: NoteKey)
    ensures CreateAll(notes, keys + [k]) == GetOrCreate(CreateAll(notes, keys), k)
  {
    assert (keys + [k])[..|keys|] == keys;
  }

  lemma CreateAllAppendSnoc(notes: seq<Notification>, a: seq<NoteKey>, b: seq<NoteKey>, c: seq<NoteKey>, k: NoteKey)
    requires CreateAll(notes, a + c) == CreateAll(CreateAll(notes, a), c) && b == c + [k]
    ensures CreateAll(notes, a + b) == CreateAll(CreateAll(notes, a), b)
  {
    CreateAllSnoc(notes, a + c, k);
    CreateAllSnoc(CreateAll(notes, a), c, k);
    Associates(a, c, [k]);
  }

  lemma {:induction false} CreateAllAppend(notes: seq<Notification>, a: seq<NoteKey>, b: seq<NoteKey>)
    ensures CreateAll(notes, a + b) == CreateAll(CreateAll(notes, a), b)
  {
    if b == [] {
      assert a + b == a;
    } else {
      var n := |b| - 1;
      CreateAllAppend(notes, a, b[..n]);
      CreateAllAppendSnoc(notes, a, b, b[..n], b[n]);
    }
  }

  lemma ToQueueSnoc(notes: seq<Notification>, keys: seq<NoteKey>, k: NoteKey)
    ensures ToQueue(notes, keys + [k]) == ToQueue(notes, keys) + RowToQueue(notes, k)
  {
    assert (keys + [k])[..|keys|] == keys;
  }

  lemma ToQueueAppendSnoc(notes: seq<Notification>, a: seq<NoteKey>, b: seq<NoteKey>, c: seq<NoteKey>, k: NoteKey)
    requires ToQueue(notes, a + c) == ToQueue(notes, a) + ToQueue(notes, c) && b == c + [k]
    ensures ToQueue(notes, a + b) == ToQueue(notes, a) + ToQueue(notes, b)
  {
    ToQueueSnoc(notes, a + c, k);
    ToQueueSnoc(notes, c, k);
    Associates(a, c, [k]);
    Associates(ToQueue(notes, a), ToQueue(notes, c), RowToQueue(notes, k));
  }

  lemma {:induction false} ToQueueAppend(notes: seq<Notification>, a: seq<NoteKey>, b: seq<NoteKey>)
    ensures ToQueue(notes, a + b) == ToQueue(notes, a) + ToQueue(notes, b)
  {
    if b == [] {
      assert a + b == a;
    } else {
      var n := |b| - 1;
      ToQueueAppend(notes, a, b[..n]);
      ToQueueAppendSnoc(notes, a, b, b[..n], b[n]);
    }
  }

  /** Rows added later do not change what an earlier part of a fan-out queued. */
  lemma {:induction false} ToQueueStable(notes: seq<Notification>, more: seq<Notification>, keys: seq<NoteKey>)
    requires notes <= more && forall k | k in keys :: k in Keys(notes)
    ensures ToQueue(more, keys) == ToQueue(notes, keys)
  {
    if keys != [] {
      var n := |keys| - 1;
      ToQueueStable(notes, more, keys[..n]);
      FindNoteStable(notes, more, keys[n]);
    }
  }

  /** A fan-out over a then b leaves the rows and the queue of a fan-out over a + b. */
  lemma FanoutJoins(notes: seq<Notification>, a: seq<NoteKey>, b: seq<NoteKey>)
    requires Unique(notes)
    ensures var mid, after := CreateAll(notes, a), CreateAll(notes, a + b);
            && after == CreateAll(mid, b) && Unique(mid) && mid <= after
            && ToQueue(after, a + b) == ToQueue(mid, a) + ToQueue(after, b)
  {
    var mid, after := CreateAll(notes, a), CreateAll(notes, a + b);
    CreateAllAppend(notes, a, b);
    CreateAllAdds(notes, a);
    CreateAllAdds(mid, b);
    ToQueueAppend(after, a, b);
    ToQueueStable(mid, after, a);
  }

  /** One more member: its own keys follow those of the members before it. */
  lemma GroupJoins(notes: seq<Notification>, incident: nat, severity: Severity, members: seq<nat>,
                   channels: seq<Option<Channel>>, m: nat)
    requires Unique(notes) && m < |members|
    ensures var keys, own := FanoutKeys(incident, severity, members[..m], channels),
                             MemberKeys(incident, severity, members[m], channels);
            var next, mid := FanoutKeys(incident, severity, members[..m + 1], channels), CreateAll(notes, keys);
            && next == keys + own && mid <= CreateAll(notes, next) == CreateAll(mid, own) && Unique(mid)
            && ToQueue(CreateAll(notes, next), next) == ToQueue(mid, keys) + ToQueue(CreateAll(notes, next), own)
  {
    assert members[..m + 1][..m] == members[..m];
    FanoutJoins(notes, FanoutKeys(incident, severity, members[..m], channels),
                MemberKeys(incident, severity, members[m], channels));
  }

  lemma QueuedExist(notes: seq<Notification>, keys: seq<NoteKey>)
    requires Unique(notes)
    ensures var after := CreateAll(notes, keys);
            forall i | 0 <= i < |ToQueue(after, keys)| :: ToQueue(after, keys)[i] < |after|
  {
    var after := CreateAll(notes, keys);
    CreateAllAdds(notes, keys);
    QueuedAreOpen(after, keys);
    assert forall i | 0 <= i < |ToQueue(after, keys)| :: ToQueue(after, keys)[i] in ToQueue(after, keys);
  }

  lemma KeyJoins(notes: seq<Notification>, keys: seq<NoteKey>, k: NoteKey)
    requires Unique(notes)
    ensures var before, after := CreateAll(notes, keys), GetOrCreate(CreateAll(notes, keys), k);
            && CreateAll(notes, keys + [k]) == after && FindNote(after, k).Some?
            && ToQueue(after, keys + [k]) == ToQueue(before, keys) + RowToQueue(after, k)
  {
    var before := CreateAll(notes, keys);
    CreateAllAdds(notes, keys);
    GetOrCreateKeeps(before, k);
    CreateAllSnoc(notes, keys, k);
    ToQueueSnoc(GetOrCreate(before, k), keys, k);
    ToQueueStable(before, GetOrCreate(before, k), keys);
  }

  /** One more channel of a member: one more row at most, queued unless it is terminal. */
  lemma MemberJoins(notes: seq<Notification>, incident: nat, severity: Severity, member: nat,
                    channels: seq<Option<Channel>>, i: nat)
    requires Unique(notes) && i < |channels|
    ensures var keys, next := MemberKeys(incident, severity, member, channels[..i]),
                              MemberKeys(incident, severity, member, channels[..i + 1]);
            if channels[i].Some? && ChannelEnabled(severity, channels[i].value) then
              var k := NoteKey(incident, member, channels[i].value);
              var before, after := CreateAll(notes, keys), GetOrCreate(CreateAll(notes, keys), k);
              && CreateAll(notes, next) == after && FindNote(after, k).Some?
              && ToQueue(after, next) == ToQueue(before, keys) + RowToQueue(after, k)
            else next == keys
  {
    var keys := MemberKeys(incident, severity, member, channels[..i]);
    assert channels[..i + 1][..i] == channels[..i];
    if channels[i].Some? && ChannelEnabled(severity, channels[i].value) {
      KeyJoins(notes, keys, NoteKey(incident, member, channels[i].value));
    } else {
      assert keys + [] == keys;
    }
  }

  /** WHATSAPP and CALENDAR have no task. */
  function TaskOf(notes: seq<Notification>, id: nat): seq<Task>
    requires id < |notes|
  {
    if Guarded(notes[id].channel) then [Task(id, notes[id].channel)] else []
  }

  /** What a list of rows puts on the channel queues. */
  function TasksOf(notes: seq<Notification>, ids: seq<nat>): seq<Task>
    requires forall j | 0 <= j < |ids| :: ids[j] < |notes|
  {
    if ids == [] then [] else TasksOf(notes, ids[..|ids| - 1]) + TaskOf(notes, ids[|ids| - 1])
  }

  lemma {:induction false} TasksStable(notes: seq<Notification>, more: seq<Notification>, ids: seq<nat>)
    requires notes <= more && forall j | 0 <= j < |ids| :: ids[j] < |notes|
    ensures TasksOf(more, ids) == TasksOf(notes, ids)
  {
    if ids != [] {
      TasksStable(notes, more, ids[..|ids| - 1]);
    }
  }

  lemma TasksSnoc(notes: seq<Notification>, ids: seq<nat>, id: nat)
    requires id < |notes| && forall j | 0 <= j < |ids| :: ids[j] < |notes|
    ensures TasksOf(notes, ids + [id]) == TasksOf(notes, ids) + TaskOf(notes, id)
  {
    assert (ids + [id])[..|ids|] == ids;
  }

  function IsTask(id: nat, ch: Channel): Task -> bool { (t: Task) => t == Task(id, ch) }

  /** tasks holds, for each row of ids and as often, a task on the row's channel if that is VOICE, TELEGRAM or
   *  EMAIL, and no other task. */
  ghost predicate TasksAre(notes: seq<Notification>, ids: seq<nat>, tasks: seq<Task>) {
    forall id: nat, ch :: Count(tasks, IsTask(id, ch)) ==
      if id < |notes| && notes[id].channel == ch && (ch == VOICE || ch == TELEGRAM || ch == EMAIL)
      then Count(ids, IsRow(id)) else 0
  }

  lemma {:induction false} TaskCount(notes: seq<Notification>, ids: seq<nat>, id: nat, ch: Channel)
    requires forall j | 0 <= j < |ids| :: ids[j] < |notes|
    ensures Count(TasksOf(notes, ids), IsTask(id, ch)) ==
            if id < |notes| && notes[id].channel == ch && Guarded(ch) then Count(ids, IsRow(id)) else 0
  {
    if ids != [] {
      var n := |ids| - 1;
      TaskCount(notes, ids[..n], id, ch);
      CountAppend(TasksOf(notes, ids[..n]), TaskOf(notes, ids[n]), IsTask(id, ch));
      OneTaskCount(notes, ids[n], id, ch);
    }
  }

  lemma OneTaskCount(notes: seq<Notification>, row: nat, id: nat, ch: Channel)
    requires row < |notes|
    ensures Count(TaskOf(notes, row), IsTask(id, ch)) ==
            if row == id && notes[row].channel == ch && Guarded(ch) then 1 else 0
  {
    assert [Task(row, notes[row].channel)][..0] == [];
  }

  /** Every row put on the queues gets one task on its own channel for each time it is queued. */
  lemma TasksCounted(notes: seq<Notification>, ids: seq<nat>)
    requires forall j | 0 <= j < |ids| :: ids[j] < |notes|
    ensures TasksAre(notes, ids, TasksOf(notes, ids))
  {
    forall id: nat, ch
      ensures Count(TasksOf(notes, ids), IsTask(id, ch)) ==
              if id < |notes| && notes[id].channel == ch && (ch == VOICE || ch == TELEGRAM || ch == EMAIL)
              then Count(ids, IsRow(id)) else 0
    {
      TaskCount(notes, ids, id, ch);
    }
  }

  function QueuedAudit(id: nat, fallback: bool): Audit {
    if fallback then FallbackTaskQueued(id) else TaskQueued(id)
  }

  function QueuedAudits(ids: seq<nat>, fallback: bool): seq<Audit> {
    seq(|ids|, i requires 0 <= i < |ids| => QueuedAudit(ids[i], fallback))
  }

  lemma TasksTogetherSnoc(notes: seq<Notification>, a: seq<nat>, b: seq<nat>, c: seq<nat>, id: nat)
    requires b == c + [id] && id < |notes|
    requires forall j | 0 <= j < |a| :: a[j] < |notes|
    requires forall j | 0 <= j < |c| :: c[j] < |notes|
    requires TasksOf(notes, a + c) == TasksOf(notes, a) + TasksOf(notes, c)
    ensures TasksOf(notes, a + b) == TasksOf(notes, a) + TasksOf(notes, b)
  {
    TasksSnoc(notes, a + c, id);
    TasksSnoc(notes, c, id);
    Associates(a, c, [id]);
    Associates(TasksOf(notes, a), TasksOf(notes, c), TaskOf(notes, id));
  }

  lemma {:induction false} TasksTogether(notes: seq<Notification>, a: seq<nat>, b: seq<nat>)
    requires forall j | 0 <= j < |a| :: a[j] < |notes|
    requires forall j | 0 <= j < |b| :: b[j] < |notes|
    ensures TasksOf(notes, a + b) == TasksOf(notes, a) + TasksOf(notes, b)
  {
    if b == [] {
      assert a + b == a;
    } else {
      var n := |b| - 1;
      TasksTogether(notes, a, b[..n]);
      TasksTogetherSnoc(notes, a, b, b[..n], b[n]);
    }
  }

  /** The fallback rows in queued were audited and put on the queues, in order, and nothing else was. */
  predicate Queues(notes: seq<Notification>, queued: seq<nat>, audits: seq<Audit>, audits': seq<Audit>,
                   tasks: seq<Task>, tasks': seq<Task>) {
    (forall j | 0 <= j < |queued| :: queued[j] < |notes|) &&
    audits' == audits + QueuedAudits(queued, true) && tasks' == tasks + TasksOf(notes, queued)
  }

  lemma QueuesNone(notes: seq<Notification>, audits: seq<Audit>, tasks: seq<Task>)
    ensures Queues(notes, [], audits, audits, tasks, tasks)
  {
    assert tasks + [] == tasks && audits + [] == audits;
  }

  lemma QueuesOne(notes: seq<Notification>, id: nat, audits: seq<Audit>, tasks: seq<Task>)
    requires id < |notes|
    ensures Queues(notes, [id], audits, audits + [QueuedAudit(id, true)], tasks, tasks + TasksOf(notes, [id]))
  {
    assert QueuedAudits([id], true) == [QueuedAudit(id, true)];
  }

  lemma QueuesJoin(mid: seq<Notification>, notes: seq<Notification>, a: seq<nat>, b: seq<nat>,
                   audits0: seq<Audit>, audits1: seq<Audit>, audits2: seq<Audit>,
                   tasks0: seq<Task>, tasks1: seq<Task>, tasks2: seq<Task>)
    requires mid <= notes && Queues(mid, a, audits0, audits1, tasks0, tasks1)
    requires Queues(notes, b, audits1, audits2, tasks1, tasks2)
    ensures Queues(notes, a + b, audits0, audits2, tasks0, tasks2)
  {
    TasksStable(mid, notes, a);
    TasksTogether(notes, a, b);
    assert QueuedAudits(a, true) + QueuedAudits(b, true) == QueuedAudits(a + b, true);
  }

  // ---------------------------------------------------------------- how often a row is queued

  function IsRow(row: nat): nat -> bool { (r: nat) => r == row }
  function IsKey(k: NoteKey): NoteKey -> bool { (x: NoteKey) => x == k }
  function IsMember(member: nat): nat -> bool { (m: nat) => m == member }
  function Names(ch: Channel): Option<Channel> -> bool { (c: Option<Channel>) => c == Some(ch) }

  lemma RowIsOfKey(notes: seq<Notification>, k: NoteKey, row: nat)
    requires Unique(notes) && row < |notes|
    ensures FindNote(notes, k) == Some(row) <==> KeyOf(notes[row]) == k
  {
    assert notes[row] in notes;
  }

  /** A row that is not terminal is queued once for every time its key occurs. */
  lemma {:induction false} QueuedPerKey(notes: seq<Notification>, keys: seq<NoteKey>, row: nat)
    requires Unique(notes) && row < |notes|
    ensures Count(ToQueue(notes, keys), IsRow(row)) ==
            if Terminal(notes[row].status) then 0 else Count(keys, IsKey(KeyOf(notes[row])))
  {
    if keys != [] {
      var n := |keys| - 1;
      QueuedPerKey(notes, keys[..n], row);
      RowIsOfKey(notes, keys[n], row);
      CountAppend(ToQueue(notes, keys[..n]), RowToQueue(notes, keys[n]), IsRow(row));
      OneRowCount(notes, keys[n], row);
    }
  }

  lemma OneRowCount(notes: seq<Notification>, k: NoteKey, row: nat)
    ensures Count(RowToQueue(notes, k), IsRow(row)) ==
            if FindNote(notes, k) == Some(row) && !Terminal(notes[row].status) then 1 else 0
  {
    assert [row][..0] == [];
  }

  lemma {:induction false} MemberKeyTimes(incident: nat, severity: Severity, member: nat,
                                          channels: seq<Option<Channel>>, k: NoteKey)
    ensures Count(MemberKeys(incident, severity, member, channels), IsKey(k)) ==
            if k.incident == incident && k.contact == member && ChannelEnabled(severity, k.channel)
            then Count(channels, Names(k.channel)) else 0
  {
    if channels != [] {
      var n := |channels| - 1;
      var front := MemberKeys(incident, severity, member, channels[..n]);
      MemberKeyTimes(incident, severity, member, channels[..n], k);
      if channels[n].Some? && ChannelEnabled(severity, channels[n].value) {
        CountSnoc(front, NoteKey(incident, member, channels[n].value), IsKey(k));
      } else {
        assert front + [] == front;
      }
    }
  }

  /** A key occurs in a fan-out once for each pair of its member and a mention of its channel. */
  lemma {:induction false} KeyTimes(incident: nat, severity: Severity,
                                    members: seq<nat>, channels: seq<Option<Channel>>, k: NoteKey)
    ensures Count(FanoutKeys(incident, severity, members, channels), IsKey(k)) ==
            if k.incident == incident && ChannelEnabled(severity, k.channel)
            then Count(members, IsMember(k.contact)) * Count(channels, Names(k.channel)) else 0
  {
    if members != [] {
      var n := |members| - 1;
      KeyTimes(incident, severity, members[..n], channels, k);
      MemberKeyTimes(incident, severity, members[n], channels, k);
      CountAppend(FanoutKeys(incident, severity, members[..n], channels),
                  MemberKeys(incident, severity, members[n], channels), IsKey(k));
      OneMoreTimes(Count(members[..n], IsMember(k.contact)), Count(channels, Names(k.channel)));
    }
  }

  lemma OneMoreTimes(m: nat, c: nat)
    ensures (m + 1) * c == m * c + c
  {
  }

  /** How often a fan-out queues a row: the occurrences of its member times the mentions of its channel. */
  function Times(n: Notification, incident: nat, severity: Severity,
                 members: seq<nat>, channels: seq<Option<Channel>>): nat {
    if n.incident == incident && ChannelEnabled(severity, n.channel) && !Terminal(n.status)
    then Count(members, IsMember(n.contact)) * Count(channels, Names(n.channel)) else 0
  }

  ghost predicate QueuedTimes(notes: seq<Notification>, queued: seq<nat>, incident: nat, severity: Severity,
                              members: seq<nat>, channels: seq<Option<Channel>>) {
    forall row: nat | row < |notes| ::
        Count(queued, IsRow(row)) == Times(notes[row], incident, severity, members, channels)
  }

  /** Every row of a fan-out is queued exactly that often. */
  lemma FanoutQueues(notes: seq<Notification>, incident: nat, severity: Severity,
                     members: seq<nat>, channels: seq<Option<Channel>>)
    requires Unique(notes)
    ensures var keys := FanoutKeys(incident, severity, members, channels);
            var after := CreateAll(notes, keys);
            QueuedTimes(after, ToQueue(after, keys), incident, severity, members, channels)
  {
    var keys := FanoutKeys(incident, severity, members, channels);
    var after := CreateAll(notes, keys);
    CreateAllAdds(notes, keys);
    forall row: nat | row < |after|
      ensures Count(ToQueue(after, keys), IsRow(row)) == Times(after[row], incident, severity, members, channels)
    {
      QueuedPerKey(after, keys, row);
      KeyTimes(incident, severity, members, channels, KeyOf(after[row]));
    }
  }

  /** The key has a terminal row already. */
  predicate Closed(notes: seq<Notification>, k: NoteKey) {
    var row := FindNote(notes, k);
    row.Some? && Terminal(notes[row.value].status)
  }

  /** No pair of a member and an enabled channel occurs twice, unless its row is terminal. */
  ghost predicate PairedOnce(notes: seq<Notification>, incident: nat, severity: Severity, members: seq<nat>,
                             channels: seq<Option<Channel>>) {
    forall member, ch | member in members && Some(ch) in channels && ChannelEnabled(severity, ch) ::
      (Count(members, IsMember(member)) == 1 && Count(channels, Names(ch)) == 1) ||
      Closed(notes, NoteKey(incident, member, ch))
  }

  ghost predicate QueuedOnce(queued: seq<nat>) {
    forall row :: Count(queued, IsRow(row)) <= 1
  }

  lemma {:induction false} Occurs<T>(s: seq<T>, x: T, p: T -> bool)
    requires forall y :: p(y) <==> y == x
    ensures Count(s, p) >= 1 <==> x in s
  {
    if s != [] {
      Occurs(s[..|s| - 1], x, p);
      assert s == s[..|s| - 1] + [s[|s| - 1]];
    }
  }

  lemma OnceTimesOnce(m: nat, c: nat)
    requires m >= 1 && c >= 1
    ensures m * c >= 1 && (m * c == 1 <==> m == 1 && c == 1)
  {
    if m >= 2 {
      OneMoreTimes(m - 1, c);
      OneMoreTimes(m - 2, c);
    }
  }

  /** The row's pair of member and channel is named once at most, or the row is terminal. */
  predicate NamedOnce(n: Notification, incident: nat, severity: Severity,
                      members: seq<nat>, channels: seq<Option<Channel>>) {
    n.incident == incident && n.contact in members &&
    Some(n.channel) in channels && ChannelEnabled(severity, n.channel) ==>
      (Count(members, IsMember(n.contact)) == 1 && Count(channels, Names(n.channel)) == 1) || Terminal(n.status)
  }

  lemma TimesOnce(n: Notification, incident: nat, severity: Severity, members: seq<nat>, channels: seq<Option<Channel>>)
    ensures Times(n, incident, severity, members, channels) <= 1 <==>
            NamedOnce(n, incident, severity, members, channels)
  {
    var m, c := Count(members, IsMember(n.contact)), Count(channels, Names(n.channel));
    Occurs(members, n.contact, IsMember(n.contact));
    Occurs(channels, Some(n.channel), Names(n.channel));
    if m >= 1 && c >= 1 {
      OnceTimesOnce(m, c);
    } else {
      assert m * c == 0;
    }
  }

  lemma ClosedIsTerminal(notes: seq<Notification>, after: seq<Notification>, row: nat)
    requires Unique(after) && notes <= after && row < |after|
    requires forall i | |notes| <= i < |after| :: after[i].status == PENDING
    ensures Closed(notes, KeyOf(after[row])) <==> Terminal(after[row].status)
  {
    if row < |notes| {
      assert notes[row] in notes;
    }
  }

  /** A fan-out queues each row at most once if and only if no member and enabled channel that it pairs
   *  more than once has a row that is not terminal. */
  lemma QueuedOnceIff(notes: seq<Notification>, incident: nat, severity: Severity,
                      members: seq<nat>, channels: seq<Option<Channel>>)
    requires Unique(notes)
    ensures var keys := FanoutKeys(incident, severity, members, channels);
            var after := CreateAll(notes, keys);
            QueuedOnce(ToQueue(after, keys)) <==> PairedOnce(notes, incident, severity, members, channels)
  {
    var keys := FanoutKeys(incident, severity, members, channels);
    var after := CreateAll(notes, keys);
    var queued := ToQueue(after, keys);
    CreateAllAdds(notes, keys);
    FanoutQueues(notes, incident, severity, members, channels);
    if QueuedOnce(queued) {
      forall member, ch | member in members && Some(ch) in channels && ChannelEnabled(severity, ch)
        ensures (Count(members, IsMember(member)) == 1 && Count(channels, Names(ch)) == 1) ||
                Closed(notes, NoteKey(incident, member, ch))
      {
        FanoutKeysAre(incident, severity, members, channels);
        var row := FindNote(after, NoteKey(incident, member, ch)).value;
        assert Count(queued, IsRow(row)) <= 1;
        TimesOnce(after[row], incident, severity, members, channels);
        ClosedIsTerminal(notes, after, row);
      }
    }
    if PairedOnce(notes, incident, severity, members, channels) {
      forall row: nat ensures Count(queued, IsRow(row)) <= 1 {
        if row < |after| {
          TimesOnce(after[row], incident, severity, members, channels);
          ClosedIsTerminal(notes, after, row);
        } else {
          NeverQueued(notes, keys, row);
        }
      }
    }
  }

  lemma NeverQueued(notes: seq<Notification>, keys: seq<NoteKey>, row: nat)
    requires Unique(notes) && |CreateAll(notes, keys)| <= row
    ensures Count(ToQueue(CreateAll(notes, keys), keys), IsRow(row)) == 0
  {
    var after := CreateAll(notes, keys);
    CreateAllAdds(notes, keys);
    QueuedAreOpen(after, keys);
    CountNone(ToQueue(after, keys), IsRow(row));
  }

  /** A fan-out as a whole: the rows it makes, the rows it queues, how often, and when each but once. */
  ghost predicate FannedOut(before: seq<Notification>, after: seq<Notification>, queued: seq<nat>, incident: nat,
                            severity: Severity, members: seq<nat>, channels: seq<Option<Channel>>) {
    var keys := FanoutKeys(incident, severity, members, channels);
    && after == CreateAll(before, keys) && queued == ToQueue(after, keys)
    && (forall j | 0 <= j < |queued| :: queued[j] < |after|)
    && QueuedTimes(after, queued, incident, severity, members, channels)
    && (QueuedOnce(queued) <==> PairedOnce(before, incident, severity, members, channels))
  }

  lemma FansOut(before: seq<Notification>, incident: nat, severity: Severity,
                members: seq<nat>, channels: seq<Option<Channel>>)
    requires Unique(before)
    ensures var keys := FanoutKeys(incident, severity, members, channels);
            var after := CreateAll(before, keys);
            FannedOut(before, after, ToQueue(after, keys), incident, severity, members, channels)
  {
    QueuedExist(before, FanoutKeys(incident, severity, members, channels));
    FanoutQueues(before, incident, severity, members, channels);
    QueuedOnceIff(before, incident, severity, members, channels);
  }

  /** audits' is audits and then one audit for each row queued, in order. */
  predicate AuditsAre(queued: seq<nat>, fallback: bool, audits: seq<Audit>, audits': seq<Audit>) {
    audits <= audits' && |audits'| == |audits| + |queued| &&
    forall j: nat | j < |queued| ::
        audits'[|audits| + j] == if fallback then FallbackTaskQueued(queued[j]) else TaskQueued(queued[j])
  }

  lemma QueuedAuditsAre(queued: seq<nat>, fallback: bool, audits: seq<Audit>)
    ensures AuditsAre(queued, fallback, audits, audits + QueuedAudits(queued, fallback))
  {
  }

  /** What a dispatch leaves, or the fallback of an escalation: the fan-out, an audit for each row queued, and
   *  the tasks. */
  ghost predicate Notified(before: seq<Notification>, after: seq<Notification>, queued: seq<nat>, incident: nat,
                           severity: Severity, members: seq<nat>, channels: seq<Option<Channel>>, fallback: bool,
                           audits: seq<Audit>, audits': seq<Audit>, tasks: seq<Task>, tasks': seq<Task>) {
    && FannedOut(before, after, queued, incident, severity, members, channels)
    && AuditsAre(queued, fallback, audits, audits')
    && tasks' == tasks + TasksOf(after, queued) && TasksAre(after, queued, TasksOf(after, queued))
  }

  lemma NotifiesAll(before: seq<Notification>, after: seq<Notification>, queued: seq<nat>, incident: nat,
                    severity: Severity, members: seq<nat>, channels: seq<Option<Channel>>, fallback: bool,
                    audits: seq<Audit>, audits': seq<Audit>, tasks: seq<Task>, tasks': seq<Task>)
    requires FannedOut(before, after, queued, incident, severity, members, channels)
    requires audits' == audits + QueuedAudits(queued, fallback) && tasks' == tasks + TasksOf(after, queued)
    ensures Notified(before, after, queued, incident, severity, members, channels, fallback,
                     audits, audits', tasks, tasks')
  {
    QueuedAuditsAre(queued, fallback, audits);
    TasksCounted(after, queued);
  }

  /** So a rule that names an enabled channel twice queues every row of the channel that is not terminal
   *  at least twice. */
  lemma RepeatedChannelQueuesTwice(notes: seq<Notification>, incident: nat, severity: Severity, members: seq<nat>,
                                   channels: seq<Option<Channel>>, member: nat, ch: Channel)
    requires Unique(notes) && member in members && ChannelEnabled(severity, ch) && Count(channels, Names(ch)) >= 2
    requires !Closed(notes, NoteKey(incident, member, ch))
    ensures var keys := FanoutKeys(incident, severity, members, channels);
            !QueuedOnce(ToQueue(CreateAll(notes, keys), keys))
  {
    QueuedOnceIff(notes, incident, severity, members, channels);
    Occurs(channels, Some(ch), Names(ch));
  }
}

/** The handlers of main.py and the tasks of worker.py, over one database session and one Redis.
 *
 *  The tables are fields that the methods update in place; a commit appends the step just taken to the
 *  ghost run. Valid says that the fields are the last world of that run, so every theorem of System holds
 *  of the store whenever no transaction is under way.
 */
module Handlers {
  import opened Prelude
  import opened Guards
  import opened State
  import opened DeadLetters
  import opened Fanout
  import opened Redis
  import opened System
  import opened ReplayWalk
  import opened ChannelTasks
  import Delivery
  import Incidents
  import Retry

  datatype LifecycleReply = Done(status: IncidentStatus) | NotFound | Conflict

  datatype CallbackReply = Ignored | Rejected | Recorded

  /** What the rule's fallback policy turns out to be. */
  datatype Fallback = NoPolicy | InvalidPolicy | Policy(members: seq<nat>, channels: seq<Option<Channel>>)

  datatype ReplayReport = Locked(remaining: nat) | Completed(replayed: nat, remaining: nat, candidates: nat)

  /** The delays taken since the clock showed `from`: at most max_retries, each as the policy draws it. */
  predicate Backoff(policy: Retry.Policy, delays: seq<nat>, draw: nat -> nat, from: nat, now: nat) {
    |delays| <= policy.maxRetries && Retry.Drawn(policy, delays, draw) && now == from + Retry.Sum(delays) * SECOND
  }

  lemma BackoffOn(policy: Retry.Policy, delays: seq<nat>, draw: nat -> nat, from: nat, now: nat)
    requires Backoff(policy, delays, draw, from, now) && |delays| < policy.maxRetries
    requires Drawable(policy, draw)
    ensures var d := Retry.Delay(policy, |delays|, draw(|delays|));
            Backoff(policy, delays + [d], draw, from, now + d * SECOND)
  {
    var d := Retry.Delay(policy, |delays|, draw(|delays|));
    assert (delays + [d])[..|delays|] == delays;
  }

  function Parses(): Raw -> bool { (raw: Raw) => raw.Payload? }

  /** What a replay that has dealt with the first n elements reports. */
  ghost predicate Reports(snapshot: seq<Raw>, n: nat, k: Walk, candidates: nat, replayed: nat) {
    && n <= |snapshot| && k.snapshot == snapshot[..n] && |k.rulings| == n
    && candidates == Count(snapshot[..n], Parses()) && replayed == Count(k.rulings, Is(Replay)) <= n
  }

  lemma ReportsOn(snapshot: seq<Raw>, n: nat, k: Walk, candidates: nat, replayed: nat, v: Ruling, m: nat, e: nat)
    requires Reports(snapshot, n, k, candidates, replayed) && n < |snapshot|
    ensures Reports(snapshot, n + 1, Further(k, snapshot[n], v, m, e),
                    candidates + (if snapshot[n].Payload? then 1 else 0), replayed + (if v == Replay then 1 else 0))
  {
    CountNext(snapshot, n, Parses());
    CountSnoc(k.rulings, v, Is(Replay));
  }

  function Stale(c: Config, now: nat): Incident -> bool {
    (i: Incident) => i.status == OPEN && i.createdAt + c.staleMinutes * 60 * SECOND < now
  }

  function Swept(c: Config, now: nat, i: Incident): Incident {
    if Stale(c, now)(i) then i.(status := ESCALATED, updatedAt := Some(now)) else i
  }

  /** The audits of a sweep over the first n rows. */
  function SweptAudits(c: Config, now: nat, rows: seq<Incident>, n: nat): seq<Audit>
    requires n <= |rows|
  {
    if n == 0 then []
    else SweptAudits(c, now, rows, n - 1) + (if Stale(c, now)(rows[n - 1]) then [Audit.Escalated(n - 1)] else [])
  }

  lemma {:induction false} SweepAuditsStale(c: Config, now: nat, rows: seq<Incident>, n: nat, id: nat)
    requires n <= |rows|
    ensures Count(SweptAudits(c, now, rows, n), Incidents.EscalatedIs(id)) ==
            if id < n && Stale(c, now)(rows[id]) then 1 else 0
    ensures |SweptAudits(c, now, rows, n)| == Count(rows[..n], Stale(c, now))
  {
    if n > 0 {
      SweepAuditsStale(c, now, rows, n - 1, id);
      CountNext(rows, n - 1, Stale(c, now));
      var front := SweptAudits(c, now, rows, n - 1);
      CountSnoc(front, Audit.Escalated(n - 1), Incidents.EscalatedIs(id));
      assert front + [] == front;
    }
  }

  /** The first n rows swept, the others as they were. */
  function SweptRows(c: Config, now: nat, rows: seq<Incident>, n: nat): (r: seq<Incident>)
    requires n <= |rows|
    ensures |r| == |rows|
    ensures forall i | 0 <= i < |rows| :: r[i] == if i < n then Swept(c, now, rows[i]) else rows[i]
  {
    if n == 0 then rows else SweptRows(c, now, rows, n - 1)[n - 1 := Swept(c, now, rows[n - 1])]
  }

  /** A sweep has dealt with the first n rows and counted those it escalated. */
  ghost predicate SweptTo(c: Config, now: nat, rows: seq<Incident>, audits0: seq<Audit>, n: nat,
                          incidents: seq<Incident>, audits: seq<Audit>, swept: nat) {
    && n <= |rows| && incidents == SweptRows(c, now, rows, n)
    && audits == audits0 + SweptAudits(c, now, rows, n) && swept == Count(rows[..n], Stale(c, now))
  }

  lemma SweepsOn(c: Config, now: nat, rows: seq<Incident>, audits0: seq<Audit>, n: nat, incidents: seq<Incident>,
                 audits: seq<Audit>, incidents': seq<Incident>, audits': seq<Audit>, swept: nat, escalated: bool)
    requires SweptTo(c, now, rows, audits0, n, incidents, audits, swept) && n < |rows|
    requires escalated == Stale(c, now)(incidents[n])
    requires incidents' == incidents[n := Swept(c, now, incidents[n])]
    requires audits' == audits + (if escalated then [Audit.Escalated(n)] else [])
    ensures SweptTo(c, now, rows, audits0, n + 1, incidents', audits', swept + (if escalated then 1 else 0))
  {
    CountNext(rows, n, Stale(c, now));
    Associates(audits0, SweptAudits(c, now, rows, n), if escalated then [Audit.Escalated(n)] else []);
  }

  class Store {
    const config: Config
    const redis: RedisConn
    var incidents: seq<Incident>
    var notes: seq<Notification>
    var audits: seq<Audit>
    var dispatches: seq<nat>
    var tasks: seq<Task>
    var deadLetters: seq<Raw>
    ghost var calls: seq<Call>
    ghost var answers: seq<Answer>
    ghost var pushed: seq<Raw>
    ghost var fates: seq<Fate>
    ghost var ws: seq<World>
    ghost var steps: seq<Step>

    ghost function W(): World
      reads this, redis
    {
      World(redis.now, redis.log, incidents, notes, audits, calls, answers, dispatches, tasks,
            Dlq(deadLetters, pushed, fates))
    }

    ghost predicate Connected()
      reads this, redis
    {
      redis.config == config && redis.Valid()
    }

    ghost predicate Valid()
      reads this, redis
    {
      Connected() && Run(config, ws, steps) && W() == ws[|steps|]
    }

    constructor (config: Config)
      ensures Valid() && fresh(redis) && this.config == config && W() == EMPTY_WORLD && steps == []
    {
      this.config := config;
      redis := new RedisConn(config);
      incidents, notes, audits, dispatches, tasks, deadLetters := [], [], [], [], [], [];
      calls, answers, pushed, fates := [], [], [], [];
      ws, steps := [EMPTY_WORLD], [];
    }

    /** The run so far is kept and only grows. */
    twostate predicate Continues()
      reads this
    {
      old(steps) <= steps && old(ws) <= ws
    }

    ghost method Commit(s: Step)
      requires Connected() && Run(config, ws, steps) && Leads(config, ws[|steps|], s, W())
      modifies this`ws, this`steps
      ensures Valid() && Continues() && steps == old(steps) + [s] && ws == old(ws) + [W()]
    {
      RunSnoc(config, ws, steps, s, W());
      ws, steps := ws + [W()], steps + [s];
    }

    method Wait(d: nat)
      requires Valid()
      modifies this`ws, this`steps, redis
      ensures Valid() && Continues() && steps == old(steps) + [Tick(d)]
      ensures W() == old(W()).(now := old(redis.now) + d)
    {
      redis.Advance(d);
      Commit(Tick(d));
    }

    // -------------------------------------------------------------- ingest

    method FindOpenIncident(key: string) returns (r: Option<nat>)
      ensures r == Incidents.FindOpen(incidents, key)
    {
      var i := |incidents|;
      assert incidents[..i] == incidents;
      while i > 0
        invariant 0 <= i <= |incidents|
        invariant Incidents.FindOpen(incidents, key) == Incidents.FindOpen(incidents[..i], key)
      {
        i := i - 1;
        assert incidents[..i + 1][..i] == incidents[..i];
        if incidents[i].status == OPEN && incidents[i].key == Some(key) {
          return Some(i);
        }
      }
      r := None;
    }

    method RefreshExistingIncident(id: nat, e: Incidents.EventIn) returns (shouldNotify: bool)
      requires id < |incidents|
      modifies this`incidents
      ensures incidents == old(incidents)[id := Incidents.Refreshed(old(incidents[id]), e, redis.now)]
      ensures shouldNotify <==>
                Incidents.ShouldRetrigger(incidents[id].occurrences, redis.now, Incidents.LastSeen(old(incidents[id])))
    {
      var i := incidents[id];
      var lastSeen := if i.updatedAt.Some? then i.updatedAt.value else i.createdAt;
      var occurrences := (if i.occurrences == 0 then 1 else i.occurrences) + 1;
      i := i.(occurrences := occurrences, severity := e.severity, content := e.content, updatedAt := Some(redis.now));
      if e.rule.Some? && i.rule.None? {
        i := i.(rule := e.rule);
      }
      incidents := incidents[id := i];
      shouldNotify := occurrences in {1, 10, 50, 100, 500} || redis.now - lastSeen > Incidents.HOUR;
    }

    method IngestEvent(e: Incidents.EventIn) returns (kind: AnswerKind, incident: Option<nat>)
      requires Valid()
      modifies this, redis
      ensures Valid() && Continues() && steps == old(steps) + [Ingest(e)]
      ensures W() == Incidents.Ingest(config, old(W()), e)
      ensures answers == old(answers) + [Answer(redis.now, kind, incident)]
      ensures dispatches == old(dispatches) +
                            (if Incidents.CallsOut(old(W()), W(), e, Answer(redis.now, kind, incident))
                             then [incident.value] else [])
      ensures Incidents.Wrote(old(W()), W(), e)
    {
      Incidents.IngestDispatches(config, W(), e);
      Incidents.IngestWrites(config, W(), e);
      if e.severity == INFO {
        kind, incident := Reply(IgnoredInfo, None);
      } else if e.key.None? {
        kind, incident := InsertIncident(e);
      } else {
        var found := FindOpenIncident(e.key.value);
        if found.Some? {
          kind, incident := MergeIntoOpen(found.value, e);
        } else {
          kind, incident := ClaimAndInsert(e, e.key.value);
        }
      }
      assert W() == Incidents.Ingest(config, old(W()), e);
      Commit(Ingest(e));
    }

    method ClaimAndInsert(e: Incidents.EventIn, key: Incidents.EffectiveKey)
      returns (kind: AnswerKind, incident: Option<nat>)
      requires Connected()
      modifies this`incidents, this`audits, this`dispatches, this`answers, redis`cells, redis`log
      ensures Connected() && W() == Incidents.ClaimAndInsert(config, old(W()), e, key)
      ensures answers == old(answers) + [Answer(redis.now, kind, incident)]
    {
      var duplicate := redis.IsDuplicate(key);
      if duplicate {
        audits := audits + [DuplicatedEvent];
        kind, incident := Reply(DuplicateKey, None);
      } else {
        kind, incident := InsertIncident(e);
      }
    }

    /** Answers the request. */
    method Reply(kind: AnswerKind, incident: Option<nat>) returns (kind': AnswerKind, incident': Option<nat>)
      modifies this`answers
      ensures (kind', incident') == (kind, incident) && answers == old(answers) + [Answer(redis.now, kind, incident)]
    {
      answers := answers + [Answer(redis.now, kind, incident)];
      kind', incident' := kind, incident;
    }

    method MergeIntoOpen(id: nat, e: Incidents.EventIn) returns (kind: AnswerKind, incident: Option<nat>)
      requires id < |incidents|
      modifies this`incidents, this`audits, this`dispatches, this`answers
      ensures W() == Incidents.Refresh(old(W()), id, e)
      ensures answers == old(answers) + [Answer(redis.now, kind, incident)]
    {
      var shouldNotify := RefreshExistingIncident(id, e);
      audits := audits + [EventReceived(id)];
      if e.rule.Some? && shouldNotify {
        dispatches := dispatches + [id];
      }
      kind, incident := Reply(Deduplicated, Some(id));
    }

    method FindBySource(source: string, externalId: string) returns (r: Option<nat>)
      ensures r == Incidents.FindSource(incidents, source, externalId)
    {
      var i := |incidents|;
      assert incidents[..i] == incidents;
      while i > 0
        invariant 0 <= i <= |incidents|
        invariant Incidents.FindSource(incidents, source, externalId) ==
                  Incidents.FindSource(incidents[..i], source, externalId)
      {
        i := i - 1;
        assert incidents[..i + 1][..i] == incidents[..i];
        if incidents[i].source == source && incidents[i].externalId == externalId {
          return Some(i);
        }
      }
      r := None;
    }

    /** INSERT, which the unique constraint on (source, external_event_id) may refuse. */
    method InsertIncident(e: Incidents.EventIn) returns (kind: AnswerKind, incident: Option<nat>)
      modifies this`incidents, this`audits, this`dispatches, this`answers
      ensures W() == Incidents.Insert(old(W()), e)
      ensures answers == old(answers) + [Answer(redis.now, kind, incident)]
    {
      var existing := FindBySource(e.source, e.externalId);
      if existing.Some? {
        kind, incident := Reply(DuplicateSource, existing);
        return;
      }
      var id := |incidents|;
      incidents := incidents + [Incident(e.source, e.externalId, e.key, e.severity, e.content, OPEN, e.rule, 1,
                                         redis.now, None, None, None)];
      audits := audits + [EventReceived(id)];
      if e.rule.Some? {
        audits := audits + [RuleMatched(id)];
        dispatches := dispatches + [id];
      }
      assert audits == old(audits) + [EventReceived(id)] + (if e.rule.Some? then [RuleMatched(id)] else []);
      kind, incident := Reply(Created, Some(id));
    }

    // -------------------------------------------------------------- status changes

    method AcknowledgeIncident(id: nat, person: Option<string>) returns (r: LifecycleReply)
      requires Valid()
      modifies this
      ensures Valid() && Continues() && steps == old(steps) + [Acknowledge(id, person)]
      ensures W() == Incidents.Acknowledge(old(W()), id, person).0
      ensures r == if |old(incidents)| <= id then NotFound
                   else if old(incidents)[id].status != OPEN then Conflict else Done(ACKNOWLEDGED)
      ensures !r.Done? ==> W() == old(W())
      ensures r.Done? ==>
                var i := old(incidents)[id];
                var row := i.(status := ACKNOWLEDGED, acknowledgedAt := Some(redis.now), updatedAt := Some(redis.now),
                              acknowledgedBy := if person.Some? then person else i.acknowledgedBy);
                W() == old(W()).(incidents := old(incidents)[id := row], audits := old(audits) + [AckReceived(id)])
    {
      if |incidents| <= id {
        r := NotFound;
      } else if incidents[id].status != OPEN {
        r := Conflict;
      } else {
        var i := incidents[id].(status := ACKNOWLEDGED, acknowledgedAt := Some(redis.now),
                                updatedAt := Some(redis.now));
        if person.Some? {
          i := i.(acknowledgedBy := person);
        }
        incidents := incidents[id := i];
        audits := audits + [AckReceived(id)];
        r := Done(ACKNOWLEDGED);
      }
      Commit(Acknowledge(id, person));
    }

    method ResolveIncident(id: nat) returns (r: LifecycleReply)
      requires Valid()
      modifies this
      ensures Valid() && Continues() && steps == old(steps) + [Resolve(id)]
      ensures W() == Incidents.Resolve(old(W()), id).0
      ensures r == if |old(incidents)| <= id then NotFound
                   else if old(incidents)[id].status in {ACKNOWLEDGED, ESCALATED} then Done(RESOLVED) else Conflict
      ensures !r.Done? ==> W() == old(W())
      ensures r.Done? ==>
                var row := old(incidents)[id].(status := RESOLVED, updatedAt := Some(redis.now));
                W() == old(W()).(incidents := old(incidents)[id := row],
                                 audits := old(audits) + [CallbackReceived(id, true)])
    {
      if |incidents| <= id {
        r := NotFound;
      } else if incidents[id].status !in {ACKNOWLEDGED, ESCALATED} {
        r := Conflict;
      } else {
        incidents := incidents[id := incidents[id].(status := RESOLVED, updatedAt := Some(redis.now))];
        audits := audits + [CallbackReceived(id, true)];
        r := Done(RESOLVED);
      }
      Commit(Resolve(id));
    }

    method HandleVoiceCallback(note: nat, signed: bool, pressedOne: bool, contact: string) returns (r: CallbackReply)
      requires Valid()
      modifies this
      ensures Valid() && Continues() && steps == old(steps) + [VoiceCallback(note, signed, pressedOne, contact)]
      ensures W() == Incidents.VoiceCallback(old(W()), note, signed, pressedOne, contact)
      ensures r == if |old(notes)| <= note || |old(incidents)| <= old(notes)[note].incident then Ignored
                   else if signed then Recorded else Rejected
      ensures r.Ignored? ==> W() == old(W())
      ensures !r.Ignored? ==>
                var id := old(notes)[note].incident;
                var i := old(incidents)[id];
                if signed && pressedOne && i.status == OPEN then
                  var row := i.(status := ACKNOWLEDGED, acknowledgedAt := Some(redis.now),
                                updatedAt := Some(redis.now), acknowledgedBy := Some(contact));
                  var answered := old(notes)[note].(status := ANSWERED_VOICE);
                  W() == old(W()).(incidents := old(incidents)[id := row], notes := old(notes)[note := answered],
                                   audits := old(audits) + [CallbackReceived(id, false)] + [AckReceived(id)])
                else W() == old(W()).(audits := old(audits) + [CallbackReceived(id, false)])
    {
      if |notes| <= note || |incidents| <= notes[note].incident {
        r := Ignored;
      } else {
        var id := notes[note].incident;
        audits := audits + [CallbackReceived(id, false)];
        if !signed {
          r := Rejected;
        } else {
          r := Recorded;
          if pressedOne && incidents[id].status == OPEN {
            var i := incidents[id].(status := ACKNOWLEDGED, acknowledgedAt := Some(redis.now),
                                    acknowledgedBy := Some(contact));
            incidents := incidents[id := i.(updatedAt := Some(redis.now))];
            notes := notes[note := notes[note].(status := ANSWERED_VOICE)];
            audits := audits + [AckReceived(id)];
          }
        }
      }
      Commit(VoiceCallback(note, signed, pressedOne, contact));
    }

    /** The row change shared by an expired deadline and the sweep. */
    method EscalateRow(id: nat) returns (escalated: bool)
      requires Valid()
      modifies this`incidents, this`audits, this`ws, this`steps
      ensures Valid() && Continues() && steps == old(steps) + [Escalate(id)]
      ensures W() == Incidents.Escalate(old(W()), id)
      ensures escalated <==> id < |old(incidents)| && old(incidents)[id].status == OPEN
      ensures if escalated then
                var row := old(incidents)[id].(status := ESCALATED, updatedAt := Some(redis.now));
                W() == old(W()).(incidents := old(incidents)[id := row], audits := old(audits) + [Audit.Escalated(id)])
              else W() == old(W())
    {
      escalated := id < |incidents| && incidents[id].status == OPEN;
      if escalated {
        incidents := incidents[id := incidents[id].(status := ESCALATED, updatedAt := Some(redis.now))];
        audits := audits + [Audit.Escalated(id)];
      }
      Commit(Escalate(id));
    }

    method SweepRow(id: nat) returns (escalated: bool)
      requires Valid() && id < |incidents|
      modifies this`incidents, this`audits, this`ws, this`steps
      ensures Valid() && Continues()
      ensures incidents == old(incidents)[id := Swept(config, redis.now, old(incidents)[id])]
      ensures audits == old(audits) + (if escalated then [Audit.Escalated(id)] else [])
      ensures escalated == Stale(config, redis.now)(old(incidents)[id])
    {
      escalated := incidents[id].status == OPEN &&
                   incidents[id].createdAt + config.staleMinutes * 60 * SECOND < redis.now;
      if escalated {
        escalated := EscalateRow(id);
      }
    }

    /** Escalates exactly the OPEN incidents created before the cutoff, with an audit each, and counts them. */
    method StaleIncidentSweeper() returns (swept: nat)
      requires Valid()
      modifies this`incidents, this`audits, this`ws, this`steps
      ensures Valid() && Continues()
      ensures incidents == SweptRows(config, redis.now, old(incidents), |old(incidents)|)
      ensures audits == old(audits) + SweptAudits(config, redis.now, old(incidents), |old(incidents)|)
      ensures swept == Count(old(incidents), Stale(config, redis.now))
      ensures |incidents| == |old(incidents)|
      ensures forall id: nat | id < |incidents| ::
                var i := old(incidents)[id];
                incidents[id] == if i.status == OPEN && i.createdAt + config.staleMinutes * 60_000 < redis.now
                                 then i.(status := ESCALATED, updatedAt := Some(redis.now)) else i
    {
      var rows, now := incidents, redis.now;
      swept := 0;
      for id := 0 to |rows|
        invariant Valid() && Continues()
        invariant SweptTo(config, now, rows, old(audits), id, incidents, audits, swept)
      {
        ghost var before, trail := incidents, audits;
        var escalated := SweepRow(id);
        SweepsOn(config, now, rows, old(audits), id, before, trail, incidents, audits, swept, escalated);
        if escalated {
          swept := swept + 1;
        }
      }
      assert rows[..|rows|] == rows;
    }

    // -------------------------------------------------------------- sending

    method MarkNotificationSent(id: nat, ch: Channel, provider: Option<string>) returns (o: Delivery.Outcome)
      requires Connected() && id < |notes|
      modifies this`notes, this`audits, redis`cells, redis`log
      ensures Connected() && (W(), o) == Delivery.MarkSent(config, old(W()), id, ch, provider)
    {
      if Terminal(notes[id].status) {
        return Delivery.AlreadyTerminal;
      }
      notes := notes[id := notes[id].(status := SENT, providerId := provider)];
      audits := audits + [NotificationSent(id, false)];
      redis.ResetChannelCircuitState(ch);
      o := Delivery.Sent;
    }

    method MarkNotificationFailed(id: nat, ch: Channel, error: string)
      requires Connected() && id < |notes|
      modifies this`notes, this`audits, redis`cells, redis`log
      ensures Connected() && W() == Delivery.MarkFailed(config, old(W()), id, ch, error)
    {
      if !Terminal(notes[id].status) {
        notes := notes[id := notes[id].(status := FAILED, error := Some(error))];
        var tripped := redis.RecordChannelFailure(ch);
        audits := audits + [NotificationFailed(Some(id), Some(notes[id].incident))];
      }
    }

    method MarkNotificationSuppressed(id: nat, reason: string)
      requires id < |notes|
      modifies this`notes, this`audits
      ensures W() == Delivery.MarkSuppressed(old(W()), id, reason)
    {
      if !Terminal(notes[id].status) {
        notes := notes[id := notes[id].(status := DELIVERED, providerId := Some("suppressed:" + reason))];
        audits := audits + [NotificationSent(id, true)];
      }
    }

    /** The call leaves the system; its result comes back. */
    method CallProvider(id: nat, ch: Channel, a: Delivery.Attempt) returns (reply: Delivery.Reply)
      modifies this`calls
      ensures W() == Delivery.CallProvider(old(W()), id, ch, a) && reply == a.reply
    {
      calls := calls + [Call(id, ch, redis.now, a.reply.Delivered?, a.service, a.digest, |redis.log|)];
      reply := a.reply;
    }

    method SendVoice(id: nat, a: Delivery.Attempt) returns (o: Delivery.Outcome)
      requires Connected() && id < |notes|
      modifies this`notes, this`audits, this`calls, redis`cells, redis`log
      ensures Connected() && (W(), o) == Delivery.SendVoice(config, old(W()), id, a)
    {
      if !a.voiceConfigured {
        o := MarkNotificationSent(id, VOICE, None);
      } else if !a.hasPhone {
        o := Delivery.Raised("Contact phone is not available for voice dispatch");
      } else {
        var reply := CallProvider(id, VOICE, a);
        if reply.Delivered? {
          o := MarkNotificationSent(id, VOICE, Some(reply.id));
        } else {
          o := Delivery.Raised(reply.message);
        }
      }
    }

    method SendTelegram(id: nat, a: Delivery.Attempt) returns (o: Delivery.Outcome)
      requires Connected() && id < |notes|
      modifies this`notes, this`audits, this`calls, redis`cells, redis`log
      ensures Connected() && (W(), o) == Delivery.SendTelegram(config, old(W()), id, a)
    {
      if !a.telegramToken {
        MarkNotificationFailed(id, TELEGRAM, "Telegram bot token is not configured");
        return Delivery.SendFailed;
      }
      var acquired := redis.AcquireTelegramDedupe(a.digest, Max(1, a.dedupeWindow));
      if !acquired {
        MarkNotificationSuppressed(id, "dedupe_window");
        return Delivery.SuppressedDuplicate;
      }
      var admitted := redis.TelegramServiceRateLimitAdmits(a.service);
      if !admitted {
        MarkNotificationSuppressed(id, "service_rate_limit");
        return Delivery.SuppressedRateLimit;
      }
      var reply := CallProvider(id, TELEGRAM, a);
      if reply.Delivered? {
        o := MarkNotificationSent(id, TELEGRAM, Some(reply.id));
      } else {
        o := Delivery.Raised(reply.message);
      }
    }

    method SendEmail(id: nat, a: Delivery.Attempt) returns (o: Delivery.Outcome)
      requires Connected() && id < |notes|
      modifies this`notes, this`audits, this`calls, redis`cells, redis`log
      ensures Connected() && (W(), o) == Delivery.SendEmail(config, old(W()), id, a)
    {
      if !a.hasEmail {
        MarkNotificationFailed(id, EMAIL, "Contact email is not available for email dispatch");
        return Delivery.SendFailed;
      }
      if !a.resendConfigured {
        MarkNotificationFailed(id, EMAIL, "Resend is not configured (missing RESEND_API_KEY)");
        return Delivery.SendFailed;
      }
      var reply := CallProvider(id, EMAIL, a);
      match reply
      case Delivered(pid) => o := MarkNotificationSent(id, EMAIL, Some(pid));
      case RuntimeError(error) =>
        MarkNotificationFailed(id, EMAIL, error);
        o := Delivery.SendFailed;
      case OtherError(error) => o := Delivery.Raised(error);
    }

    method SendVia(id: nat, ch: Channel, a: Delivery.Attempt) returns (o: Delivery.Outcome)
      requires Connected() && id < |notes| && Guarded(ch)
      modifies this`notes, this`audits, this`calls, redis`cells, redis`log
      ensures Connected() && (W(), o) == Delivery.SendVia(config, old(W()), id, ch, a)
    {
      if ch == VOICE {
        o := SendVoice(id, a);
      } else if ch == TELEGRAM {
        o := SendTelegram(id, a);
      } else {
        o := SendEmail(id, a);
      }
    }

    /** One attempt: terminal check, circuit breaker, channel limit, then the channel. */
    method SendNotificationChannel(id: nat, ch: Channel, a: Delivery.Attempt) returns (o: Delivery.Outcome)
      requires Valid()
      modifies this`notes, this`audits, this`calls, this`ws, this`steps, redis`cells, redis`log
      ensures Valid() && Continues() && steps == old(steps) + [Attempt(id, ch, a, o)]
      ensures (W(), o) == Delivery.Send(config, old(W()), id, ch, a)
    {
      ghost var before := W();
      o := TryChannel(id, ch, a);
      assert Leads(config, before, Attempt(id, ch, a, o), W());
      Commit(Attempt(id, ch, a, o));
    }

    method TryChannel(id: nat, ch: Channel, a: Delivery.Attempt) returns (o: Delivery.Outcome)
      requires Connected()
      modifies this`notes, this`audits, this`calls, redis`cells, redis`log
      ensures Connected() && (W(), o) == Delivery.Send(config, old(W()), id, ch, a)
    {
      if |notes| <= id {
        return Delivery.Raised(Delivery.NOT_FOUND);
      }
      if Terminal(notes[id].status) {
        return Delivery.AlreadyTerminal;
      }
      if Guarded(ch) {
        o := TryGuarded(id, ch, a);
      } else {
        o := MarkNotificationSent(id, ch, None);
      }
    }

    method TryGuarded(id: nat, ch: Channel, a: Delivery.Attempt) returns (o: Delivery.Outcome)
      requires Connected() && Delivery.Pending(W(), id) && Guarded(ch)
      modifies this`notes, this`audits, this`calls, redis`cells, redis`log
      ensures Connected() && (W(), o) == Delivery.Send(config, old(W()), id, ch, a)
    {
      var closed := redis.ChannelCircuitClosed(ch);
      if !closed {
        return Delivery.SkippedCircuit;
      }
      var admitted := redis.ChannelRateLimitAdmits(ch);
      if !admitted {
        audits := audits + [NotificationFailed(Some(id), Some(notes[id].incident))];
        return Delivery.SkippedRateLimit;
      }
      o := SendVia(id, ch, a);
    }

    // -------------------------------------------------------------- final failure and the dead letter queue

    method RecordFinalFailure(note: Option<nat>, incident: Option<nat>, error: string)
      requires Valid()
      modifies this`notes, this`audits, this`ws, this`steps, redis`cells, redis`log
      ensures Valid() && Continues() && steps == old(steps) + [FinalFailure(note, incident, error)]
      ensures W() == Delivery.RecordFinalFailure(config, old(W()), note, incident, error)
    {
      WriteFinalFailure(note, incident, error);
      Commit(FinalFailure(note, incident, error));
    }

    method WriteFinalFailure(note: Option<nat>, incident: Option<nat>, error: string)
      requires Connected()
      modifies this`notes, this`audits, redis`cells, redis`log
      ensures Connected() && W() == Delivery.RecordFinalFailure(config, old(W()), note, incident, error)
    {
      var about := incident;
      if note.Some? && note.value < |notes| {
        if about.None? {
          about := Some(notes[note.value].incident);
        }
        FailRow(note.value, error);
      }
      audits := audits + [NotificationFailed(note, about)];
    }

    method FailRow(id: nat, error: string)
      requires Connected() && id < |notes|
      modifies this`notes, redis`cells, redis`log
      ensures Connected() && W() == Delivery.FailRow(config, old(W()), id, error)
    {
      var row := notes[id];
      if !Terminal(row.status) {
        notes := notes[id := row.(status := FAILED, error := Some(error))];
        if Guarded(row.channel) {
          var tripped := redis.RecordChannelFailure(row.channel);
        }
      }
    }

    /** RPUSH, then LTRIM when the list is over its maximum. */
    method PushDlqEntry(raw: Raw)
      requires Valid()
      modifies this`deadLetters, this`pushed, this`fates, this`ws, this`steps
      ensures Valid() && Continues() && steps == old(steps) + [PushDlq(raw)]
      ensures var n, all := Max(1, config.dlqMaxItems), old(deadLetters) + [raw];
              deadLetters == if |all| <= n then all else all[|all| - n..]
      ensures W() == old(W()).(dlq := PushEntry(old(W()).dlq, raw, config.dlqMaxItems))
    {
      deadLetters := deadLetters + [raw];
      pushed, fates := pushed + [raw], fates + [Queued];
      var trimmed := TrimToLimit(Max(1, config.dlqMaxItems));
      Commit(PushDlq(raw));
    }

    method TrimToLimit(limit: nat) returns (trimmed: nat)
      modifies this`deadLetters, this`fates
      ensures W() == old(W()).(dlq := Trim(old(W()).dlq, limit))
      ensures trimmed == |old(deadLetters)| - |deadLetters|
    {
      trimmed := 0;
      if |deadLetters| > limit {
        trimmed := |deadLetters| - limit;
        deadLetters := deadLetters[trimmed..];
        fates := MarkOldest(fates, trimmed);
      }
    }

    method PruneDlq(maxItems: Option<int>) returns (removed: nat, remaining: nat)
      requires Valid()
      modifies this`deadLetters, this`fates, this`ws, this`steps
      ensures Valid() && Continues()
      ensures var n, all := Max(1, maxItems.GetOr(config.dlqMaxItems)), old(deadLetters);
              deadLetters == if |all| <= n then all else all[|all| - n..]
      ensures removed + remaining == |old(deadLetters)| && remaining == |deadLetters|
    {
      var limit := maxItems.GetOr(config.dlqMaxItems);
      removed := TrimToLimit(BoundDlqMaxItems(limit));
      remaining := |deadLetters|;
      Commit(TrimDlq(limit));
    }

    /** LREM 1: the first occurrence of the value leaves the list. */
    method RemoveValue(raw: Raw)
      modifies this`deadLetters
      ensures deadLetters == RemoveFirst(old(deadLetters), raw)
    {
      var items, i := deadLetters, 0;
      while i < |items| && items[i] != raw
        invariant 0 <= i <= |items|
        invariant raw !in items[..i]
      {
        i := i + 1;
      }
      if i < |items| {
        RemoveFirstAt(items[..i], raw, items[i + 1..]);
        assert items == items[..i] + [raw] + items[i + 1..];
        deadLetters := items[..i] + items[i + 1..];
      } else {
        RemoveAbsent(items, raw);
      }
    }

    method RemoveDlqEntry(raw: Raw, replayed: bool)
      requires Valid()
      modifies this`deadLetters, this`fates, this`ws, this`steps
      ensures Valid() && Continues() && steps == old(steps) + [RemoveDlq(raw, replayed)]
      ensures deadLetters == RemoveFirst(old(deadLetters), raw)
      ensures raw in old(deadLetters) ==> MetOnce(old(fates), fates, if replayed then Replayed else Discarded)
      ensures W() == old(W()).(dlq := W().dlq)
    {
      LatestIsAccounted(config, ws, steps);
      Unqueue(raw, if replayed then Replayed else Discarded);
      Commit(RemoveDlq(raw, replayed));
    }

    method Unqueue(raw: Raw, ghost fate: Fate)
      requires Accounted(W().dlq) && fate != Queued
      modifies this`deadLetters, this`fates
      ensures W() == old(W()).(dlq := Remove(old(W()).dlq, raw, fate))
      ensures raw in old(deadLetters) ==> MetOnce(old(fates), fates, fate)
    {
      if raw in deadLetters {
        FirstMarkedOnce(pushed, fates, raw, fate);
      }
      RemoveValue(raw);
      fates := MarkFirst(pushed, fates, raw, fate);
    }

    // -------------------------------------------------------------- fan-out

    method GetOrCreateNotification(k: NoteKey) returns (id: nat)
      requires Valid()
      modifies this`notes, this`ws, this`steps
      ensures Valid() && Continues() && steps == old(steps) + [CreateNote(k)]
      ensures notes == GetOrCreate(old(notes), k) && FindNote(notes, k) == Some(id)
    {
      var found := FindRow(k);
      if found.Some? {
        id := found.value;
      } else {
        id := |notes|;
        notes := notes + [NewNote(k)];
        assert notes[..id] == old(notes);
      }
      Commit(CreateNote(k));
    }

    method FindRow(k: NoteKey) returns (r: Option<nat>)
      ensures r == FindNote(notes, k)
    {
      for i := 0 to |notes|
        invariant FindNote(notes[..i], k) == None
      {
        assert notes[..i + 1][..i] == notes[..i];
        if KeyOf(notes[i]) == k {
          FindNoteStable(notes[..i + 1], notes, k);
          return Some(i);
        }
      }
      assert notes[..|notes|] == notes;
      r := None;
    }

    method QueueNotification(id: nat, fallback: bool)
      requires Valid() && id < |notes|
      modifies this`audits, this`tasks, this`ws, this`steps
      ensures Valid() && Continues() && steps == old(steps) + [QueueTask(id, fallback)]
      ensures audits == old(audits) + [QueuedAudit(id, fallback)]
      ensures tasks == old(tasks) + TasksOf(notes, [id])
    {
      audits := audits + [QueuedAudit(id, fallback)];
      var ch := notes[id].channel;
      assert [id][..0] == [];
      if ch == VOICE || ch == TELEGRAM || ch == EMAIL {
        tasks := tasks + [Task(id, ch)];
      } else {
        assert tasks + [] == tasks;
      }
      Commit(QueueTask(id, fallback));
    }

    method QueueAll(ids: seq<nat>)
      requires Valid() && forall j | 0 <= j < |ids| :: ids[j] < |notes|
      modifies this`audits, this`tasks, this`ws, this`steps
      ensures Valid() && Continues()
      ensures audits == old(audits) + QueuedAudits(ids, false)
      ensures tasks == old(tasks) + TasksOf(notes, ids)
    {
      for i := 0 to |ids|
        invariant Valid() && Continues()
        invariant audits == old(audits) + QueuedAudits(ids[..i], false)
        invariant tasks == old(tasks) + TasksOf(notes, ids[..i])
      {
        assert ids[..i + 1][..i] == ids[..i] && [ids[i]][..0] == [];
        QueueNotification(ids[i], false);
      }
      assert ids[..|ids|] == ids;
    }

    /** The rows of one member that dispatch is to queue. */
    method NotifyMember(incident: nat, severity: Severity, member: nat, channels: seq<Option<Channel>>)
      returns (created: seq<nat>)
      requires Valid()
      modifies this`notes, this`ws, this`steps
      ensures Valid() && Continues()
      ensures var keys := MemberKeys(incident, severity, member, channels);
              notes == CreateAll(old(notes), keys) && created == ToQueue(notes, keys)
    {
      created := [];
      ghost var before := notes;
      LatestIsUnique(config, ws, steps);
      for i := 0 to |channels|
        invariant Valid() && Continues()
        invariant notes == CreateAll(before, MemberKeys(incident, severity, member, channels[..i]))
        invariant created == ToQueue(notes, MemberKeys(incident, severity, member, channels[..i]))
      {
        MemberJoins(before, incident, severity, member, channels, i);
        if channels[i].Some? && ChannelEnabled(severity, channels[i].value) {
          var id := GetOrCreateNotification(NoteKey(incident, member, channels[i].value));
          if !Terminal(notes[id].status) {
            created := created + [id];
          }
        }
      }
      assert channels[..|channels|] == channels;
    }

    /** Dispatch: rows for every member and enabled channel, then a task for every row not terminal. */
    method DispatchIncident(id: nat, rule: Option<(seq<nat>, seq<Option<Channel>>)>) returns (queued: seq<nat>)
      requires Valid()
      modifies this`notes, this`audits, this`tasks, this`ws, this`steps
      ensures Valid() && Continues()
      ensures |incidents| <= id || rule.None? ==> queued == [] && W() == old(W())
      ensures id < |incidents| && rule.Some? ==>
                Notified(old(notes), notes, queued, id, incidents[id].severity, rule.value.0, rule.value.1, false,
                         old(audits), audits, old(tasks), tasks)
    {
      queued := [];
      if |incidents| <= id || rule.None? {
        return;
      }
      ghost var before := notes;
      var severity := incidents[id].severity;
      queued := NotifyGroup(id, severity, rule.value.0, rule.value.1);
      QueueAll(queued);
      NotifiesAll(before, notes, queued, id, severity, rule.value.0, rule.value.1, false,
                  old(audits), audits, old(tasks), tasks);
    }

    method NotifyGroup(id: nat, severity: Severity, members: seq<nat>, channels: seq<Option<Channel>>)
      returns (created: seq<nat>)
      requires Valid()
      modifies this`notes, this`ws, this`steps
      ensures Valid() && Continues()
      ensures FannedOut(old(notes), notes, created, id, severity, members, channels)
    {
      created := [];
      ghost var before := notes;
      LatestIsUnique(config, ws, steps);
      for m := 0 to |members|
        invariant Valid() && Continues()
        invariant notes == CreateAll(before, FanoutKeys(id, severity, members[..m], channels))
        invariant created == ToQueue(notes, FanoutKeys(id, severity, members[..m], channels))
      {
        GroupJoins(before, id, severity, members, channels, m);
        var more := NotifyMember(id, severity, members[m], channels);
        created := created + more;
      }
      assert members[..|members|] == members;
      FansOut(before, id, severity, members, channels);
    }

    // -------------------------------------------------------------- escalation

    /** A row of the fallback group, queued at once unless it is terminal. */
    method NotifyFallback(k: NoteKey) returns (queued: seq<nat>)
      requires Valid()
      modifies this`notes, this`audits, this`tasks, this`ws, this`steps
      ensures Valid() && Continues()
      ensures notes == GetOrCreate(old(notes), k) && FindNote(notes, k).Some?
      ensures queued == (if Terminal(notes[FindNote(notes, k).value].status) then [] else [FindNote(notes, k).value])
      ensures Queues(notes, queued, old(audits), audits, old(tasks), tasks)
    {
      var id := GetOrCreateNotification(k);
      if Terminal(notes[id].status) {
        queued := [];
        QueuesNone(notes, audits, tasks);
      } else {
        queued := [id];
        QueuesOne(notes, id, audits, tasks);
        QueueNotification(id, true);
      }
    }

    method EscalateMember(incident: nat, severity: Severity, member: nat, channels: seq<Option<Channel>>)
      returns (queued: seq<nat>)
      requires Valid()
      modifies this`notes, this`audits, this`tasks, this`ws, this`steps
      ensures Valid() && Continues() && old(notes) <= notes
      ensures var keys := MemberKeys(incident, severity, member, channels);
              notes == CreateAll(old(notes), keys) && queued == ToQueue(notes, keys)
      ensures Queues(notes, queued, old(audits), audits, old(tasks), tasks)
    {
      queued := [];
      ghost var before := notes;
      LatestIsUnique(config, ws, steps);
      for i := 0 to |channels|
        invariant Valid() && Continues()
        invariant notes == CreateAll(before, MemberKeys(incident, severity, member, channels[..i]))
        invariant queued == ToQueue(notes, MemberKeys(incident, severity, member, channels[..i]))
        invariant Queues(notes, queued, old(audits), audits, old(tasks), tasks)
      {
        MemberJoins(before, incident, severity, member, channels, i);
        if channels[i].Some? && ChannelEnabled(severity, channels[i].value) {
          ghost var mid, audits1, tasks1 := notes, audits, tasks;
          var more := NotifyFallback(NoteKey(incident, member, channels[i].value));
          QueuesJoin(mid, notes, queued, more, old(audits), audits1, audits, old(tasks), tasks1, tasks);
          queued := queued + more;
        }
      }
      assert channels[..|channels|] == channels;
      CreateAllAdds(before, MemberKeys(incident, severity, member, channels));
    }

    method EscalateGroup(id: nat, severity: Severity, members: seq<nat>, channels: seq<Option<Channel>>)
      returns (queued: seq<nat>)
      requires Valid()
      modifies this`notes, this`audits, this`tasks, this`ws, this`steps
      ensures Valid() && Continues()
      ensures Notified(old(notes), notes, queued, id, severity, members, channels, true,
                       old(audits), audits, old(tasks), tasks)
    {
      queued := [];
      ghost var before := notes;
      LatestIsUnique(config, ws, steps);
      for m := 0 to |members|
        invariant Valid() && Continues()
        invariant notes == CreateAll(before, FanoutKeys(id, severity, members[..m], channels))
        invariant queued == ToQueue(notes, FanoutKeys(id, severity, members[..m], channels))
        invariant Queues(notes, queued, old(audits), audits, old(tasks), tasks)
      {
        GroupJoins(before, id, severity, members, channels, m);
        ghost var mid, audits1, tasks1 := notes, audits, tasks;
        var more := EscalateMember(id, severity, members[m], channels);
        QueuesJoin(mid, notes, queued, more, old(audits), audits1, audits, old(tasks), tasks1, tasks);
        queued := queued + more;
      }
      assert members[..|members|] == members;
      FansOut(before, id, severity, members, channels);
      NotifiesAll(before, notes, queued, id, severity, members, channels, true,
                  old(audits), audits, old(tasks), tasks);
    }

    /** The ACK deadline has passed: an OPEN incident is escalated and its fallback group notified. */
    method HandleEscalation(id: nat, fallback: Fallback) returns (found: bool, queued: seq<nat>)
      requires Valid()
      modifies this`incidents, this`notes, this`audits, this`tasks, this`ws, this`steps, redis`cells, redis`log
      ensures Valid() && Continues()
      ensures found <==> id < |old(incidents)|
      ensures found && old(incidents[id].status) == OPEN ==>
              |steps| > |old(steps)| && steps[|old(steps)|] == Escalate(id)
      ensures !found || old(incidents[id].status) != OPEN ==> W() == old(W()) && queued == []
      ensures found && old(incidents[id].status) == OPEN ==>
                var row := old(incidents)[id].(status := ESCALATED, updatedAt := Some(redis.now));
                incidents == old(incidents)[id := row] &&
                match fallback
                case NoPolicy =>
                  queued == [] && notes == old(notes) && tasks == old(tasks) &&
                  audits == old(audits) + [Audit.Escalated(id)]
                case InvalidPolicy => queued == [] && notes == old(notes) && tasks == old(tasks) &&
                  audits == old(audits) + [Audit.Escalated(id)] + [NotificationFailed(None, Some(id))]
                case Policy(members, channels) =>
                  Notified(old(notes), notes, queued, id, old(incidents[id].severity), members, channels, true,
                           old(audits) + [Audit.Escalated(id)], audits, old(tasks), tasks)
    {
      found, queued := id < |incidents|, [];
      if found && incidents[id].status == OPEN {
        var severity := incidents[id].severity;
        var escalated := EscalateRow(id);
        match fallback
        case NoPolicy =>
        case InvalidPolicy => RecordFinalFailure(None, Some(id), "invalid_fallback_policy");
        case Policy(members, channels) => queued := EscalateGroup(id, severity, members, channels);
      }
    }

    // -------------------------------------------------------------- replay

    /** Runs one entry again. An entry with fewer than two arguments, or of no known task, does nothing. */
    method ReplayEntry(e: Entry, env: Delivery.Attempt, fallback: Fallback) returns (done: bool)
      requires Valid()
      modifies this`incidents, this`notes, this`audits, this`tasks, this`calls, this`ws, this`steps, redis`cells,
               redis`log
      ensures Valid() && Continues() && redis.now == old(redis.now)
      ensures TriedAt(ws, steps, e, env, if done then Replay else Keep, |old(steps)|)
      ensures old(Settled(W(), e)) ==> done && W() == old(W())
    {
      done := false;
      if NamesEscalation(e) {
        var queued;
        done, queued := HandleEscalation(e.args[0], fallback);
      } else if NamesSend(e) {
        done := ReplaySend(e.args[0], ChannelOf(e.task).value, env);
      }
    }

    method ReplaySend(id: nat, ch: Channel, env: Delivery.Attempt) returns (done: bool)
      requires Valid()
      modifies this`notes, this`audits, this`calls, this`ws, this`steps, redis`cells, redis`log
      ensures Valid() && Continues() && |steps| == |old(steps)| + 1
      ensures var o := steps[|old(steps)|];
              o.Attempt? && o == Attempt(id, ch, env, o.out) && (done <==> o.out.Sent? || o.out.AlreadyTerminal?)
      ensures id < |old(notes)| && old(Terminal(notes[id].status)) ==> done && W() == old(W())
    {
      ghost var before := W();
      var o := SendNotificationChannel(id, ch, env);
      done := o.Sent? || o.AlreadyTerminal?;
      Delivery.SendAccounts(config, before, id, ch, env);
    }

    /** What happens to one element of the snapshot, and to the live list. */
    method ReplayElement(raw: Raw, env: Delivery.Attempt, fallback: Fallback) returns (v: Ruling)
      requires Valid()
      modifies this, redis`cells, redis`log
      ensures Valid() && Continues() && redis.now == old(redis.now)
      ensures RuledAt(config, ws, steps, raw, env, v, |old(steps)|, |steps|)
      ensures deadLetters == if v == Keep then old(deadLetters) else RemoveFirst(old(deadLetters), raw)
      ensures if v == Keep then fates == old(fates)
              else raw in old(deadLetters) ==> MetOnce(old(fates), fates, if v == Replay then Replayed else Discarded)
      ensures !Tried(config, raw) ==> W() == old(W()).(dlq := W().dlq)
      ensures config.dryRun || raw.Garbage? ==> W() == old(W())
      ensures Tried(config, raw) && old(Settled(W(), raw.entry)) ==> v == Replay && W() == old(W()).(dlq := W().dlq)
    {
      v := Keep;
      if raw.Payload? && !config.dryRun {
        if Hopeless(raw.entry.error) {
          RemoveDlqEntry(raw, false);
          v := Discard;
        } else {
          v := ReplayTried(raw, env, fallback);
        }
      }
    }

    method ReplayTried(raw: Raw, env: Delivery.Attempt, fallback: Fallback) returns (v: Ruling)
      requires Valid() && Tried(config, raw)
      modifies this, redis`cells, redis`log
      ensures Valid() && Continues() && redis.now == old(redis.now)
      ensures RuledAt(config, ws, steps, raw, env, v, |old(steps)|, |steps|)
      ensures v != Discard && deadLetters == if v == Keep then old(deadLetters) else RemoveFirst(old(deadLetters), raw)
      ensures if v == Keep then fates == old(fates)
              else raw in old(deadLetters) ==> MetOnce(old(fates), fates, Replayed)
      ensures old(Settled(W(), raw.entry)) ==> v == Replay && W() == old(W()).(dlq := W().dlq)
    {
      var done := ReplayEntry(raw.entry, env, fallback);
      v := if done then Replay else Keep;
      if done {
        RemoveDlqEntry(raw, true);
      }
    }

    /** Nothing but the lock was touched. */
    twostate predicate OnlyLocks()
      reads this, redis
    {
      && incidents == old(incidents) && notes == old(notes) && audits == old(audits) && tasks == old(tasks)
      && deadLetters == old(deadLetters) && pushed == old(pushed) && fates == old(fates)
      && dispatches == old(dispatches)
      && calls == old(calls) && answers == old(answers) && redis.now == old(redis.now)
    }

    method AcquireReplayLock(token: int) returns (acquired: bool)
      requires Valid()
      modifies this`ws, this`steps, redis`cells, redis`log
      ensures Valid() && Continues() && steps == old(steps) + [LockReplay(token)]
      ensures acquired == !old(Live(redis.cells, redis.now, ReplayLock))
      ensures OnlyLocks()
      ensures acquired ==> Live(redis.cells, redis.now, ReplayLock)
    {
      acquired := redis.AcquireDlqReplayLock(token);
      Commit(LockReplay(token));
    }

    method ReleaseReplayLock(token: int)
      requires Valid()
      modifies this`ws, this`steps, redis`cells, redis`log
      ensures Valid() && Continues() && steps == old(steps) + [UnlockReplay(token)]
      ensures W() == old(W()).(log := redis.log) && OnlyLocks()
      ensures var own := old(Live(redis.cells, redis.now, ReplayLock) && redis.cells[ReplayLock].n == token);
              redis.cells == if own then old(redis.cells) - {ReplayLock} else old(redis.cells)
    {
      var released := redis.ReleaseDlqReplayLock(token);
      Commit(UnlockReplay(token));
    }

    /** The walk so far is part of the run, the list is what its rulings leave of the one it began with, and
     *  each ruling gave one push its fate. */
    ghost predicate Replaying(k: Walk)
      reads this, redis
    {
      && Walks(config, ws, steps, k) && Before(k, |k.rulings|) < |ws|
      && deadLetters == Drain(ws[k.from].dlq.items, k.snapshot, k.rulings)
      && Ledgered(ws[k.from].dlq.fates, fates, k.rulings)
    }

    /** Walks a snapshot of the first entries under the lock and removes from the live list by value. */
    method ReplayDlq(limit: Option<int>, token: int, env: nat -> Delivery.Attempt, fallback: nat -> Fallback)
      returns (r: ReplayReport, ghost k: Walk)
      requires Valid()
      modifies this, redis`cells, redis`log
      ensures Valid() && Continues()
      ensures r.Locked? <==> old(Live(redis.cells, redis.now, ReplayLock))
      ensures r.Locked? ==> r.remaining == |old(deadLetters)|
      ensures r.Locked? || config.dryRun ==> OnlyLocks()
      ensures old(steps) + [LockReplay(token)] <= steps
      ensures r.Completed? ==> |steps| >= |old(steps)| + 2 && steps[|steps| - 1] == UnlockReplay(token)
      ensures r.Completed? ==>
                var batch := BoundReplayLimit(limit.GetOr(config.replayBatch), config.opsMaxLimit);
                && k.env == env && k.from == |old(steps)| + 1
                && k.snapshot == old(deadLetters)[..Min(batch, |old(deadLetters)|)]
                && Walks(config, ws, steps, k) && Leaves(k, old(W().dlq), W().dlq, r.replayed)
                && (Distinct(Pushes(steps)) ==> Adjacent(k.snapshot))
                && r.candidates == Count(k.snapshot, Parses())
                && r.replayed <= batch && r.remaining == |deadLetters|
    {
      var batch := BoundReplayLimit(limit.GetOr(config.replayBatch), config.opsMaxLimit);
      k := Walk(|steps|, [], env, [], [], []);
      var acquired := AcquireReplayLock(token);
      if !acquired {
        r := Locked(|deadLetters|);
        return;
      }
      var snapshot := deadLetters[..Min(batch, |deadLetters|)];
      var replayed, candidates := 0, 0;
      replayed, candidates, k := ReplayAndRelease(snapshot, token, env, fallback);
      r := Completed(replayed, |deadLetters|, candidates);
    }

    /** The walk, then the lock is given back whatever happened. */
    method ReplayAndRelease(snapshot: seq<Raw>, token: int, env: nat -> Delivery.Attempt, fallback: nat -> Fallback)
      returns (replayed: nat, candidates: nat, ghost k: Walk)
      requires Valid() && snapshot <= deadLetters
      modifies this, redis`cells, redis`log
      ensures Valid() && Continues() && |steps| > |old(steps)| && steps[|steps| - 1] == UnlockReplay(token)
      ensures k.env == env && k.from == |old(steps)| && k.snapshot == snapshot && Walks(config, ws, steps, k)
      ensures Leaves(k, old(W().dlq), W().dlq, replayed) && replayed <= |snapshot|
      ensures Distinct(Pushes(steps)) ==> Adjacent(k.snapshot)
      ensures candidates == Count(snapshot, Parses())
      ensures config.dryRun ==> OnlyLocks()
    {
      ghost var q := W().dlq;
      replayed, candidates, k := ReplaySnapshot(snapshot, env, fallback);
      WalkLeaves(k, q, W().dlq);
      ghost var ws1, steps1 := ws, steps;
      ReleaseReplayLock(token);
      WalksStill(config, ws1, steps1, ws, steps, k);
      if Distinct(Pushes(steps)) {
        BatchIsDistinct(config, ws, steps, k);
      }
    }

    method ReplaySnapshot(snapshot: seq<Raw>, env: nat -> Delivery.Attempt, fallback: nat -> Fallback)
      returns (replayed: nat, candidates: nat, ghost k: Walk)
      requires Valid() && snapshot <= deadLetters
      modifies this, redis`cells, redis`log
      ensures Valid() && Continues()
      ensures k.env == env && k.from == |old(steps)| && k.snapshot == snapshot && |k.rulings| == |snapshot|
      ensures Replaying(k)
      ensures candidates == Count(snapshot, Parses()) && replayed == Count(k.rulings, Is(Replay)) <= |snapshot|
      ensures config.dryRun ==> OnlyLocks()
    {
      replayed, candidates, k := 0, 0, Walk(|steps|, [], env, [], [], []);
      for i := 0 to |snapshot|
        invariant Valid() && Continues()
        invariant k.env == env && k.from == |old(steps)| && Replaying(k)
        invariant Reports(snapshot, i, k, candidates, replayed)
        invariant config.dryRun ==> OnlyLocks()
      {
        ghost var before, m := k, |steps|;
        var v;
        v, k := ReplayNext(snapshot[i], env(i), fallback(i), k);
        ReportsOn(snapshot, i, before, candidates, replayed, v, m, |steps|);
        if snapshot[i].Payload? {
          candidates := candidates + 1;
        }
        if v == Replay {
          replayed := replayed + 1;
        }
      }
      assert snapshot[..|snapshot|] == snapshot;
    }

    method ReplayNext(raw: Raw, env: Delivery.Attempt, fallback: Fallback, ghost k: Walk)
      returns (v: Ruling, ghost k': Walk)
      requires Valid() && Replaying(k) && env == k.env(|k.rulings|)
      requires k.snapshot + [raw] <= ws[k.from].dlq.items
      modifies this, redis`cells, redis`log
      ensures Valid() && Continues() && Replaying(k')
      ensures k' == Further(k, raw, v, |old(steps)|, |steps|)
      ensures config.dryRun ==> OnlyLocks()
    {
      ghost var items, n := ws[k.from].dlq.items, |k.rulings|;
      assert k.snapshot == items[..n] && raw == items[n];
      NextIsLive(items, k.rulings);
      v := ReplayElement(raw, env, fallback);
      k' := Further(k, raw, v, |old(steps)|, |steps|);
      DrainSnoc(items, k.snapshot, k.rulings, raw, v);
      LedgerOn(ws[k.from].dlq.fates, old(fates), fates, k.rulings, v);
      WalksFurther(config, old(ws), old(steps), ws, steps, k, raw, v, |old(steps)|, |steps|);
    }

    // -------------------------------------------------------------- tasks with retries

    /** The task has failed for good: one dead letter, and the row unless it is terminal. */
    method HandleTaskFinalFailure(task: TaskName, args: seq<nat>, error: string, stamp: nat)
      requires Valid()
      modifies this, redis`cells, redis`log
      ensures Valid() && Continues() && steps == old(steps) + FinalSteps(task, args, error, stamp)
      ensures pushed == old(pushed) + [Payload(Entry(task, args, error, stamp))]
      ensures |notes| == |old(notes)|
      ensures args != [] && task != EscalationWorker && args[0] < |old(notes)| ==>
                if old(Terminal(notes[args[0]].status)) then notes[args[0]] == old(notes[args[0]])
                else notes[args[0]].status == FAILED
      ensures redis.now == old(redis.now)
    {
      PushDlqEntry(Payload(Entry(task, args, error, stamp)));
      var note, incident: Option<nat> := None, None;
      if args != [] {
        if task == EscalationWorker {
          incident := Some(args[0]);
        } else {
          note := Some(args[0]);
        }
      }
      RecordFinalFailure(note, incident, error);
    }

    /** A channel task: attempts until one does not raise, with a delay before each retry, and one dead
     *  letter when the last attempt the policy allows has raised too. */
    method RunChannelTask(id: nat, ch: Channel, trace: nat, stamp: nat, policy: Retry.Policy,
                          env: nat -> Delivery.Attempt, draw: nat -> nat)
      returns (o: Delivery.Outcome, delays: seq<nat>, ghost outs: seq<Delivery.Outcome>)
      requires Valid() && Guarded(ch) && Drawable(policy, draw)
      modifies this, redis
      ensures Valid() && Continues()
      ensures Backoff(policy, delays, draw, old(redis.now), redis.now)
      ensures |outs| == |delays| + 1 && RaisedBefore(outs) && o == outs[|delays|]
      ensures steps == old(steps) + Plan(id, ch, env, delays, outs) +
                       (if o.Raised? then FinalSteps(WorkerOf(ch), [id, trace], o.error, stamp) else [])
      ensures o.Raised? ==> |delays| == policy.maxRetries
      ensures var t, own := Job(id, ch, trace, stamp, policy, draw), AloneSteps(|old(steps)|, |delays|, o.Raised?);
              Follows(ws, steps, t, own) && PhaseAfter(ws, steps, t, own) == Over
      ensures pushed == old(pushed) +
                        (if o.Raised? then [Payload(Entry(WorkerOf(ch), [id, trace], o.error, stamp))] else [])
      ensures o.Raised? && id < |notes| ==> notes[id].status == FAILED
    {
      o, delays, outs := AttemptsUntilDone(id, ch, policy, env, draw);
      if o.Raised? {
        HandleTaskFinalFailure(WorkerOf(ch), [id, trace], o.error, stamp);
      }
      PlanFollows(config, ws, steps, old(steps), Job(id, ch, trace, stamp, policy, draw), env, delays, outs);
    }

    method AttemptsUntilDone(id: nat, ch: Channel, policy: Retry.Policy, env: nat -> Delivery.Attempt, draw: nat -> nat)
      returns (o: Delivery.Outcome, delays: seq<nat>, ghost outs: seq<Delivery.Outcome>)
      requires Valid() && Drawable(policy, draw)
      modifies this`notes, this`audits, this`calls, this`ws, this`steps, redis
      ensures Valid() && Continues()
      ensures Backoff(policy, delays, draw, old(redis.now), redis.now)
      ensures Planned(old(steps), steps, id, ch, env, delays, outs) && o == outs[|delays|]
      ensures o.Raised? ==> |delays| == policy.maxRetries && (id < |notes| ==> !Terminal(notes[id].status))
    {
      delays := [];
      o := AttemptOnce(id, ch, env(0));
      outs := [o];
      while o.Raised? && |delays| < policy.maxRetries
        invariant Valid() && Continues()
        invariant Backoff(policy, delays, draw, old(redis.now), redis.now)
        invariant Planned(old(steps), steps, id, ch, env, delays, outs) && o == outs[|delays|]
        invariant o.Raised? && id < |notes| ==> !Terminal(notes[id].status)
        decreases policy.maxRetries - |delays|
      {
        ghost var before, steps0 := delays, steps;
        o, delays := Retried(id, ch, policy, env(|delays| + 1), draw, delays, old(redis.now));
        PlannedOn(old(steps), steps0, steps, id, ch, env, before, outs, delays[|before|], o);
        outs := outs + [o];
      }
    }

    method Retried(id: nat, ch: Channel, policy: Retry.Policy, a: Delivery.Attempt, draw: nat -> nat,
                   delays: seq<nat>, ghost from: nat)
      returns (o: Delivery.Outcome, delays': seq<nat>)
      requires Valid() && Drawable(policy, draw)
      requires Backoff(policy, delays, draw, from, redis.now) && |delays| < policy.maxRetries
      modifies this`notes, this`audits, this`calls, this`ws, this`steps, redis
      ensures Valid() && Continues() && |delays'| == |delays| + 1 && delays' == delays + [delays'[|delays|]]
      ensures Backoff(policy, delays', draw, from, redis.now)
      ensures steps == old(steps) + [Tick(delays'[|delays|] * SECOND)] + [Attempt(id, ch, a, o)]
      ensures o.Raised? && id < |notes| ==> !Terminal(notes[id].status)
    {
      var countdown := Countdown(policy, |delays|, draw(|delays|));
      BackoffOn(policy, delays, draw, from, redis.now);
      delays' := delays + [countdown];
      Wait(countdown * SECOND);
      o := AttemptOnce(id, ch, a);
    }

    method Countdown(policy: Retry.Policy, retries: nat, draw: nat) returns (countdown: nat)
      ensures countdown == Retry.Delay(policy, retries, draw)
    {
      countdown := Min(policy.backoff * Retry.Pow2(retries), policy.backoffMax);
      if policy.jitter {
        countdown := countdown + draw;
      }
      countdown := Max(1, countdown);
    }

    method AttemptOnce(id: nat, ch: Channel, a: Delivery.Attempt) returns (o: Delivery.Outcome)
      requires Valid()
      modifies this`notes, this`audits, this`calls, this`ws, this`steps, redis`cells, redis`log
      ensures Valid() && Continues() && redis.now == old(redis.now) && steps == old(steps) + [Attempt(id, ch, a, o)]
      ensures o.Raised? && id < |notes| ==> !Terminal(notes[id].status)
    {
      ghost var before := W();
      o := SendNotificationChannel(id, ch, a);
      Delivery.SendAccounts(config, before, id, ch, a);
    }
  }
}

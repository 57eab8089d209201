/** Incident rows: ingest with its five answers, and every status change. */
module Incidents {
  import opened Prelude
  import opened Guards
  import opened State

  /** A dedupe key as the handler uses it: an empty one counts as none. */
  type EffectiveKey = s: string | s != "" witness "key"

  /** An event, its effective dedupe key (the event's own, else the matched rule's) and the rule. */
  datatype EventIn = EventIn(
    source: string, externalId: string, severity: Severity, content: string,
    key: Option<EffectiveKey>, rule: Option<nat>)

  const HOUR: nat := 3600 * SECOND

  predicate OpenFor(i: Incident, key: string) {
    i.status == OPEN && i.key == Some(key)
  }

  /** The latest OPEN incident with the key. */
  function FindOpen(incidents: seq<Incident>, key: string): (r: Option<nat>)
    ensures match r
            case None => forall i: nat | i < |incidents| :: !OpenFor(incidents[i], key)
            case Some(i) => i < |incidents| && OpenFor(incidents[i], key) &&
                            forall j: nat | i < j < |incidents| :: !OpenFor(incidents[j], key)
  {
    LastWhere(incidents, (i: Incident) => OpenFor(i, key))
  }

  /** The row the unique constraint on (source, external_event_id) points at. */
  function FindSource(incidents: seq<Incident>, source: string, externalId: string): (r: Option<nat>)
    ensures match r
            case None => forall i: nat | i < |incidents| ::
                           !(incidents[i].source == source && incidents[i].externalId == externalId)
            case Some(i) => i < |incidents| && incidents[i].source == source && incidents[i].externalId == externalId
  {
    LastWhere(incidents, (i: Incident) => i.source == source && i.externalId == externalId)
  }

  function LastSeen(i: Incident): nat {
    if i.updatedAt.Some? then i.updatedAt.value else i.createdAt
  }

  predicate Milestone(occurrences: nat) {
    occurrences in {1, 10, 50, 100, 500}
  }

  predicate ShouldRetrigger(occurrences: nat, now: nat, lastSeen: nat) {
    Milestone(occurrences) || now > lastSeen + HOUR
  }

  function Refreshed(i: Incident, e: EventIn, now: nat): Incident {
    i.(occurrences := (if i.occurrences == 0 then 1 else i.occurrences) + 1,
       severity := e.severity, content := e.content, updatedAt := Some(now),
       rule := if i.rule.None? then e.rule else i.rule)
  }

  function Accept(w: World, kind: AnswerKind, id: nat, notify: bool): World {
    w.(answers := w.answers + [Answer(w.now, kind, Some(id))],
       dispatches := if notify then w.dispatches + [id] else w.dispatches)
  }

  function Refresh(w: World, id: nat, e: EventIn): World
    requires id < |w.incidents|
  {
    var i := w.incidents[id];
    var row := Refreshed(i, e, w.now);
    Accept(w.(incidents := w.incidents[id := row], audits := w.audits + [EventReceived(id)]),
           Deduplicated, id, e.rule.Some? && ShouldRetrigger(row.occurrences, w.now, LastSeen(i)))
  }

  function Create(w: World, e: EventIn): World {
    var id := |w.incidents|;
    var row := Incident(e.source, e.externalId, e.key, e.severity, e.content, OPEN, e.rule, 1,
                        w.now, None, None, None);
    var audits := w.audits + [EventReceived(id)] + (if e.rule.Some? then [RuleMatched(id)] else []);
    Accept(w.(incidents := w.incidents + [row], audits := audits), Created, id, e.rule.Some?)
  }

  function Refuse(w: World, kind: AnswerKind, id: Option<nat>): World {
    w.(answers := w.answers + [Answer(w.now, kind, id)])
  }

  function Insert(w: World, e: EventIn): World {
    var existing := FindSource(w.incidents, e.source, e.externalId);
    if existing.Some? then Refuse(w, DuplicateSource, existing) else Create(w, e)
  }

  function ClaimAndInsert(c: Config, w: World, e: EventIn, key: EffectiveKey): World {
    var (w1, isNew) := Guard(c, w, Acquire(EventGate(key), EVENT_TTL));
    if isNew then Insert(w1, e)
    else Refuse(w1.(audits := w1.audits + [DuplicatedEvent]), DuplicateKey, None)
  }

  function Ingest(c: Config, w: World, e: EventIn): World {
    if e.severity == INFO then Refuse(w, IgnoredInfo, None)
    else if e.key.None? then Insert(w, e)
    else
      var found := FindOpen(w.incidents, e.key.value);
      if found.Some? then Refresh(w, found.value, e) else ClaimAndInsert(c, w, e, e.key.value)
  }

  // ---------------------------------------------------------------- status changes

  datatype Reply = Ok | NotFound | Conflict

  function Acknowledge(w: World, id: nat, person: Option<string>): (World, Reply) {
    if |w.incidents| <= id then (w, NotFound)
    else if w.incidents[id].status != OPEN then (w, Conflict)
    else
      var i := w.incidents[id];
      var row := i.(status := ACKNOWLEDGED, acknowledgedAt := Some(w.now), updatedAt := Some(w.now),
                    acknowledgedBy := if person.Some? then person else i.acknowledgedBy);
      (w.(incidents := w.incidents[id := row], audits := w.audits + [AckReceived(id)]), Ok)
  }

  function Resolve(w: World, id: nat): (World, Reply) {
    if |w.incidents| <= id then (w, NotFound)
    else if w.incidents[id].status != ACKNOWLEDGED && w.incidents[id].status != ESCALATED then (w, Conflict)
    else
      var row := w.incidents[id].(status := RESOLVED, updatedAt := Some(w.now));
      (w.(incidents := w.incidents[id := row], audits := w.audits + [CallbackReceived(id, true)]), Ok)
  }

  /** The row change of an expired ACK deadline and of the stale sweep. */
  function Escalate(w: World, id: nat): World {
    if id < |w.incidents| && w.incidents[id].status == OPEN then
      var row := w.incidents[id].(status := ESCALATED, updatedAt := Some(w.now));
      w.(incidents := w.incidents[id := row], audits := w.audits + [Audit.Escalated(id)])
    else w
  }

  /** The voice provider reports a key press on the call for a notification. */
  function VoiceCallback(w: World, note: nat, signed: bool, pressedOne: bool, contact: string): World {
    if |w.notes| <= note || |w.incidents| <= w.notes[note].incident then w
    else
      var id := w.notes[note].incident;
      var w1 := w.(audits := w.audits + [CallbackReceived(id, false)]);
      if signed && pressedOne && w.incidents[id].status == OPEN then
        var row := w.incidents[id].(status := ACKNOWLEDGED, acknowledgedAt := Some(w.now),
                                    updatedAt := Some(w.now), acknowledgedBy := Some(contact));
        w1.(incidents := w.incidents[id := row],
            notes := w.notes[note := w.notes[note].(status := ANSWERED_VOICE)],
            audits := w1.audits + [AckReceived(id)])
      else w1
  }

  // ---------------------------------------------------------------- what is counted

  function Received(id: nat): Audit -> bool { (a: Audit) => a == EventReceived(id) }
  function Acked(id: nat): Audit -> bool { (a: Audit) => a == AckReceived(id) }
  function EscalatedIs(id: nat): Audit -> bool { (a: Audit) => a == Audit.Escalated(id) }
  function ResolvedIs(id: nat): Audit -> bool { (a: Audit) => a == CallbackReceived(id, true) }

  predicate Accepts(a: Answer) { a.kind == Created || a.kind == Deduplicated }

  function Accepted(): Answer -> bool { (a: Answer) => Accepts(a) }
  function AcceptedFor(id: nat): Answer -> bool { (a: Answer) => Accepts(a) && a.incident == Some(id) }
  function DispatchOf(id: nat): nat -> bool { (d: nat) => d == id }

  function TotalOccurrences(incidents: seq<Incident>): nat {
    if incidents == [] then 0
    else TotalOccurrences(incidents[..|incidents| - 1]) + incidents[|incidents| - 1].occurrences
  }

  /** When the incident was last reported by an accepted event. */
  function LastSighting(answers: seq<Answer>, id: nat): Option<nat> {
    if answers == [] then None
    else if AcceptedFor(id)(answers[|answers| - 1]) then Some(answers[|answers| - 1].t)
    else LastSighting(answers[..|answers| - 1], id)
  }

  /** How often consecutive sightings of the incident were more than an hour apart. */
  function Gaps(answers: seq<Answer>, id: nat): nat {
    if answers == [] then 0
    else
      var p, a := answers[..|answers| - 1], answers[|answers| - 1];
      var last := LastSighting(p, id);
      Gaps(p, id) + (if AcceptedFor(id)(a) && last.Some? && a.t > last.value + HOUR then 1 else 0)
  }

  /** How many of the milestones after the first event a count has reached. */
  function MilestonesReached(occurrences: nat): nat {
    (if occurrences >= 10 then 1 else 0) + (if occurrences >= 50 then 1 else 0) +
    (if occurrences >= 100 then 1 else 0) + (if occurrences >= 500 then 1 else 0)
  }

  /** An incident's lifecycle, as its audits tell it. */
  ghost predicate LifecycleKept(w: World, id: nat) {
    var acks, escalations := Count(w.audits, Acked(id)), Count(w.audits, EscalatedIs(id));
    var resolutions := Count(w.audits, ResolvedIs(id));
    && acks + escalations <= 1 && resolutions <= acks + escalations
    && (if id < |w.incidents| then
          var i := w.incidents[id];
          && (i.status == OPEN <==> acks + escalations == 0)
          && (i.status == ACKNOWLEDGED ==> acks == 1)
          && (i.status == ESCALATED ==> escalations == 1)
          && (i.status == RESOLVED <==> resolutions == 1)
          && (i.acknowledgedAt.Some? <==> acks == 1)
        else acks + escalations == 0)
  }

  /** An incident's count is the number of its EVENT_RECEIVED audits and of its accepted answers. */
  ghost predicate OccurrencesKept(w: World, id: nat) {
    var received, accepted := Count(w.audits, Received(id)), Count(w.answers, AcceptedFor(id));
    received == accepted == if id < |w.incidents| then w.incidents[id].occurrences else 0
  }

  /** Dispatches of an incident: the first event, the milestones, and one per gap. */
  ghost predicate StormKept(w: World, id: nat) {
    var dispatched := Count(w.dispatches, DispatchOf(id));
    if id < |w.incidents| then
      var i := w.incidents[id];
      && i.occurrences >= 1
      && LastSighting(w.answers, id).Some? && LastSighting(w.answers, id).value <= w.now
      && (i.status == OPEN ==> LastSighting(w.answers, id) == Some(LastSeen(i)))
      && dispatched <= 1 + MilestonesReached(i.occurrences) + Gaps(w.answers, id)
    else dispatched == 0 && LastSighting(w.answers, id).None?
  }

  ghost predicate TotalKept(w: World) {
    TotalOccurrences(w.incidents) == Count(w.answers, Accepted())
  }

  ghost predicate UniqueSources(w: World) {
    forall i: nat, j: nat | i < j < |w.incidents| ::
      w.incidents[i].source != w.incidents[j].source || w.incidents[i].externalId != w.incidents[j].externalId
  }

  ghost predicate UniqueOpenKeys(w: World) {
    forall i: nat, j: nat | i < j < |w.incidents| && w.incidents[i].status == OPEN && w.incidents[j].status == OPEN ::
      w.incidents[i].key.None? || w.incidents[i].key != w.incidents[j].key
  }

  ghost predicate IncidentKept(w: World, id: nat) {
    LifecycleKept(w, id) && OccurrencesKept(w, id) && StormKept(w, id)
  }

  // ---------------------------------------------------------------- counting one more

  lemma AuditSnoc(audits: seq<Audit>, a: Audit, id: nat)
    ensures Count(audits + [a], Received(id)) == Count(audits, Received(id)) + (if a == EventReceived(id) then 1 else 0)
    ensures Count(audits + [a], Acked(id)) == Count(audits, Acked(id)) + (if a == AckReceived(id) then 1 else 0)
    ensures Count(audits + [a], EscalatedIs(id)) ==
            Count(audits, EscalatedIs(id)) + (if a == Audit.Escalated(id) then 1 else 0)
    ensures Count(audits + [a], ResolvedIs(id)) ==
            Count(audits, ResolvedIs(id)) + (if a == CallbackReceived(id, true) then 1 else 0)
  {
    CountSnoc(audits, a, Received(id));
    CountSnoc(audits, a, Acked(id));
    CountSnoc(audits, a, EscalatedIs(id));
    CountSnoc(audits, a, ResolvedIs(id));
  }

  lemma AnswerSnoc(answers: seq<Answer>, a: Answer, id: nat)
    ensures Count(answers + [a], Accepted()) == Count(answers, Accepted()) + (if Accepts(a) then 1 else 0)
    ensures Count(answers + [a], AcceptedFor(id)) ==
            Count(answers, AcceptedFor(id)) + (if AcceptedFor(id)(a) then 1 else 0)
    ensures LastSighting(answers + [a], id) == if AcceptedFor(id)(a) then Some(a.t) else LastSighting(answers, id)
    ensures Gaps(answers + [a], id) == Gaps(answers, id) +
            (if AcceptedFor(id)(a) && LastSighting(answers, id).Some? && a.t > LastSighting(answers, id).value + HOUR
             then 1 else 0)
  {
    CountSnoc(answers, a, Accepted());
    CountSnoc(answers, a, AcceptedFor(id));
    assert (answers + [a])[..|answers|] == answers;
  }

  lemma {:induction false} TotalUpdate(incidents: seq<Incident>, id: nat, row: Incident)
    requires id < |incidents|
    ensures TotalOccurrences(incidents[id := row]) ==
            TotalOccurrences(incidents) - incidents[id].occurrences + row.occurrences
  {
    var n := |incidents| - 1;
    if id < n {
      TotalUpdate(incidents[..n], id, row);
      assert incidents[id := row][..n] == incidents[..n][id := row];
    } else {
      assert incidents[id := row][..n] == incidents[..n];
    }
  }

  // ---------------------------------------------------------------- ingest keeps the counts

  lemma RefuseKeeps(w: World, kind: AnswerKind, id: Option<nat>, j: nat)
    requires IncidentKept(w, j) && TotalKept(w) && kind != Created && kind != Deduplicated
    ensures IncidentKept(Refuse(w, kind, id), j) && TotalKept(Refuse(w, kind, id))
  {
    AnswerSnoc(w.answers, Answer(w.now, kind, id), j);
  }

  lemma RefreshKeeps(w: World, id: nat, e: EventIn, j: nat)
    requires id < |w.incidents| && w.incidents[id].status == OPEN
    requires IncidentKept(w, id) && IncidentKept(w, j) && TotalKept(w)
    ensures IncidentKept(Refresh(w, id, e), j) && TotalKept(Refresh(w, id, e))
  {
    var i := w.incidents[id];
    AuditSnoc(w.audits, EventReceived(id), j);
    AnswerSnoc(w.answers, Answer(w.now, Deduplicated, Some(id)), j);
    CountSnoc<nat>(w.dispatches, id, DispatchOf(j));
    TotalUpdate(w.incidents, id, Refreshed(i, e, w.now));
  }

  lemma CreateAudits(w: World, e: EventIn, j: nat)
    ensures var audits := Create(w, e).audits;
            && Count(audits, Received(j)) == Count(w.audits, Received(j)) + (if j == |w.incidents| then 1 else 0)
            && Count(audits, Acked(j)) == Count(w.audits, Acked(j))
            && Count(audits, EscalatedIs(j)) == Count(w.audits, EscalatedIs(j))
            && Count(audits, ResolvedIs(j)) == Count(w.audits, ResolvedIs(j))
  {
    var id := |w.incidents|;
    AuditSnoc(w.audits, EventReceived(id), j);
    AuditSnoc(w.audits + [EventReceived(id)], RuleMatched(id), j);
    assert w.audits + [EventReceived(id)] + [] == w.audits + [EventReceived(id)];
  }

  lemma CreateKeepsStorm(w: World, e: EventIn, j: nat)
    requires StormKept(w, j)
    ensures StormKept(Create(w, e), j)
  {
    var id: nat := |w.incidents|;
    AnswerSnoc(w.answers, Answer(w.now, Created, Some(id)), j);
    CountSnoc<nat>(w.dispatches, id, DispatchOf(j));
  }

  lemma CreateKeepsCounts(w: World, e: EventIn, j: nat)
    requires OccurrencesKept(w, j) && TotalKept(w)
    ensures OccurrencesKept(Create(w, e), j) && TotalKept(Create(w, e))
  {
    var id: nat := |w.incidents|;
    CreateAudits(w, e, j);
    AnswerSnoc(w.answers, Answer(w.now, Created, Some(id)), j);
    assert Create(w, e).incidents[..id] == w.incidents;
  }

  lemma CreateKeeps(w: World, e: EventIn, j: nat)
    requires IncidentKept(w, j) && TotalKept(w)
    ensures IncidentKept(Create(w, e), j) && TotalKept(Create(w, e))
  {
    CreateKeepsStorm(w, e, j);
    CreateKeepsCounts(w, e, j);
    CreateAudits(w, e, j);
  }

  lemma InsertKeeps(w: World, e: EventIn, j: nat)
    requires IncidentKept(w, j) && TotalKept(w)
    ensures IncidentKept(Insert(w, e), j) && TotalKept(Insert(w, e))
  {
    var existing := FindSource(w.incidents, e.source, e.externalId);
    if existing.Some? {
      RefuseKeeps(w, DuplicateSource, existing, j);
    } else {
      CreateKeeps(w, e, j);
    }
  }

  /** A change of the Redis history alone. */
  lemma LogKeeps(w: World, w1: World, j: nat)
    requires w1 == w.(log := w1.log) && IncidentKept(w, j) && TotalKept(w)
    ensures IncidentKept(w1, j) && TotalKept(w1)
  {
  }

  lemma IngestKeeps(c: Config, w: World, e: EventIn, j: nat)
    requires (forall i: nat :: IncidentKept(w, i)) && TotalKept(w)
    ensures IncidentKept(Ingest(c, w, e), j) && TotalKept(Ingest(c, w, e))
  {
    if e.severity == INFO {
      RefuseKeeps(w, IgnoredInfo, None, j);
    } else if e.key.None? {
      InsertKeeps(w, e, j);
    } else {
      var found := FindOpen(w.incidents, e.key.value);
      if found.Some? {
        RefreshKeeps(w, found.value, e, j);
      } else {
        var (w1, isNew) := Guard(c, w, Acquire(EventGate(e.key.value), EVENT_TTL));
        LogKeeps(w, w1, j);
        InsertKeeps(w1, e, j);
        var w2 := w1.(audits := w1.audits + [DuplicatedEvent]);
        AuditSnoc(w1.audits, DuplicatedEvent, j);
        RefuseKeeps(w2, DuplicateKey, None, j);
      }
    }
  }

  /** One more row with the event's key and source, or one row refreshed, or no row changed. */
  lemma IngestRows(c: Config, w: World, e: EventIn)
    ensures var w' := Ingest(c, w, e); var n := |w.incidents|;
            || w'.incidents == w.incidents
            || (w'.incidents == w.incidents + [Create(w, e).incidents[n]] &&
                FindSource(w.incidents, e.source, e.externalId).None? &&
                (e.key.Some? ==> FindOpen(w.incidents, e.key.value).None?))
            || (e.key.Some? && FindOpen(w.incidents, e.key.value).Some? &&
                var id := FindOpen(w.incidents, e.key.value).value;
                w'.incidents == w.incidents[id := Refreshed(w.incidents[id], e, w.now)])
    ensures var w' := Ingest(c, w, e); w' == w.(incidents := w'.incidents, audits := w'.audits,
                                               answers := w'.answers, dispatches := w'.dispatches, log := w'.log)
  {
  }

  lemma IngestAudits(c: Config, w: World, e: EventIn)
    ensures var w' := Ingest(c, w, e);
            w.audits <= w'.audits && forall a | a in w'.audits[|w.audits|..] :: !a.NotificationSent?
  {
  }

  lemma IngestKeepsUnique(c: Config, w: World, e: EventIn)
    requires UniqueSources(w) && UniqueOpenKeys(w)
    ensures UniqueSources(Ingest(c, w, e)) && UniqueOpenKeys(Ingest(c, w, e))
  {
    IngestRows(c, w, e);
  }

  /** An event claims its key in Redis, or leaves Redis alone. */
  lemma IngestLogs(c: Config, w: World, e: EventIn)
    ensures var log := Ingest(c, w, e).log;
            log == w.log || (e.key.Some? && log == Guard(c, w, Acquire(EventGate(e.key.value), EVENT_TTL)).0.log)
  {
  }

  lemma IngestKeepsTime(c: Config, w: World, e: EventIn)
    requires Timed(c, w)
    ensures Timed(c, Ingest(c, w, e)) && w.log <= Ingest(c, w, e).log
  {
    IngestRows(c, w, e);
    IngestLogs(c, w, e);
    if e.key.Some? {
      GuardKeepsTime(c, w, Acquire(EventGate(e.key.value), EVENT_TTL));
    }
  }

  /** A second event is accepted, refused by its key or refused by its source, and which one is decided by
   *  the OPEN row, the latest claim of the key, and the (source, id) pair. */
  lemma AnswerIsDecided(c: Config, w: World, e: EventIn)
    requires Timed(c, w)
    ensures var w' := Ingest(c, w, e);
            w'.answers == w.answers + [w'.answers[|w.answers|]] &&
            var kind := w'.answers[|w.answers|].kind;
            var open := e.key.Some? && FindOpen(w.incidents, e.key.value).Some?;
            var covered := e.key.Some? && LastPass(w.log, EventGate(e.key.value)).Some? &&
                           var p := w.log[LastPass(w.log, EventGate(e.key.value)).value]; w.now < p.t + p.op.ttl;
            var known := FindSource(w.incidents, e.source, e.externalId).Some?;
            && (kind == IgnoredInfo <==> e.severity == INFO)
            && (kind == Deduplicated <==> e.severity != INFO && open)
            && (kind == DuplicateKey <==> e.severity != INFO && !open && covered)
            && (kind == DuplicateSource <==> e.severity != INFO && !open && !covered && known)
            && (kind == Created <==> e.severity != INFO && !open && !covered && !known)
  {
    if e.key.Some? {
      GateRefusesIffCovered(c, w.log, w.now, EventGate(e.key.value), EVENT_TTL);
    }
  }

  /** Whether the answer calls for a dispatch: a new incident always, a repeat at the counts 10, 50, 100 and 500
   *  or after more than an hour of silence; and only with a rule. */
  predicate CallsOut(w: World, w': World, e: EventIn, a: Answer) {
    e.rule.Some? && a.incident.Some? &&
    (a.kind == Created ||
     (a.kind == Deduplicated && a.incident.value < |w.incidents| && a.incident.value < |w'.incidents| &&
      var before, n := w.incidents[a.incident.value], w'.incidents[a.incident.value].occurrences;
      n == 10 || n == 50 || n == 100 || n == 500 ||
      w.now - (if before.updatedAt.Some? then before.updatedAt.value else before.createdAt) > 3_600_000))
  }

  /** The answer an ingest recorded. */
  function LatestAnswer(w: World): Answer
    requires w.answers != []
  {
    w.answers[|w.answers| - 1]
  }

  /** The answer was recorded last, and the incident it names dispatched exactly when it calls for it. */
  predicate Dispatched(w: World, w': World, e: EventIn) {
    w'.answers != [] && var a := LatestAnswer(w');
    w'.dispatches == w.dispatches + (if CallsOut(w, w', e, a) then [a.incident.value] else [])
  }

  lemma NoDispatch(w: World)
    ensures w.dispatches + [] == w.dispatches
  {
  }

  lemma InsertDispatches(w: World, e: EventIn)
    ensures Dispatched(w, Insert(w, e), e)
  {
    NoDispatch(w);
  }

  lemma RefreshDispatches(w: World, id: nat, e: EventIn)
    requires id < |w.incidents|
    ensures Dispatched(w, Refresh(w, id, e), e)
  {
    NoDispatch(w);
  }

  lemma ClaimDispatches(c: Config, w: World, e: EventIn, key: EffectiveKey)
    ensures Dispatched(w, ClaimAndInsert(c, w, e, key), e)
  {
    NoDispatch(w);
    InsertDispatches(Guard(c, w, Acquire(EventGate(key), EVENT_TTL)).0, e);
  }

  /** An ingest dispatches exactly the incident its answer names, exactly when the answer calls for it. */
  lemma IngestDispatches(c: Config, w: World, e: EventIn)
    ensures Dispatched(w, Ingest(c, w, e), e)
  {
    NoDispatch(w);
    if e.severity != INFO {
      InsertDispatches(w, e);
      if e.key.Some? {
        var found := FindOpen(w.incidents, e.key.value);
        if found.Some? {
          RefreshDispatches(w, found.value, e);
        } else {
          ClaimDispatches(c, w, e, e.key.value);
        }
      }
    }
  }

  /** So an incident's dispatches grow by one exactly when an answer that names it calls for it. */
  lemma DispatchesGrow(c: Config, w: World, e: EventIn, id: nat)
    ensures var w' := Ingest(c, w, e);
            w'.answers != [] && var a := LatestAnswer(w');
            Count(w'.dispatches, DispatchOf(id)) ==
            Count(w.dispatches, DispatchOf(id)) + (if CallsOut(w, w', e, a) && a.incident == Some(id) then 1 else 0)
  {
    IngestDispatches(c, w, e);
    var w' := Ingest(c, w, e);
    if CallsOut(w, w', e, LatestAnswer(w')) {
      CountSnoc<nat>(w.dispatches, LatestAnswer(w').incident.value, DispatchOf(id));
    }
  }

  /** What each answer says was written: a refused event nothing but the audit of a duplicate, a new incident
   *  its row, a repeat one more occurrence in the latest OPEN row with the key. */
  predicate Wrote(w: World, w': World, e: EventIn) {
    w'.answers != [] && var a := LatestAnswer(w');
    && w'.answers == w.answers + [a] && a.t == w.now
    && match a.kind
       case IgnoredInfo => a.incident.None? && w'.incidents == w.incidents && w'.audits == w.audits
       case DuplicateKey =>
         a.incident.None? && w'.incidents == w.incidents && w'.audits == w.audits + [DuplicatedEvent]
       case DuplicateSource =>
         w'.incidents == w.incidents && w'.audits == w.audits &&
         a.incident.Some? && a.incident.value < |w.incidents| &&
         w.incidents[a.incident.value].source == e.source && w.incidents[a.incident.value].externalId == e.externalId
       case Created =>
         var id := |w.incidents|;
         a.incident == Some(id) && |w'.incidents| == id + 1 && w'.incidents == w.incidents + [w'.incidents[id]] &&
         IsNew(w'.incidents[id], e, w.now) &&
         w'.audits == w.audits + [EventReceived(id)] + (if e.rule.Some? then [RuleMatched(id)] else [])
       case Deduplicated =>
         a.incident.Some? && var id := a.incident.value;
         id < |w.incidents| == |w'.incidents| && w'.incidents == w.incidents[id := w'.incidents[id]] &&
         e.key.Some? && OpenFor(w.incidents[id], e.key.value) &&
         (forall j: nat | id < j < |w.incidents| :: !OpenFor(w.incidents[j], e.key.value)) &&
         IsRepeat(w.incidents[id], w'.incidents[id], e, w.now) && w'.audits == w.audits + [EventReceived(id)]
  }

  lemma InsertWrites(w: World, e: EventIn)
    ensures Wrote(w, Insert(w, e), e)
  {
  }

  lemma RefreshWrites(w: World, id: nat, e: EventIn)
    requires e.key.Some? && FindOpen(w.incidents, e.key.value) == Some(id)
    ensures Wrote(w, Refresh(w, id, e), e)
  {
  }

  lemma ClaimWrites(c: Config, w: World, e: EventIn, key: EffectiveKey)
    ensures Wrote(w, ClaimAndInsert(c, w, e, key), e)
  {
    InsertWrites(Guard(c, w, Acquire(EventGate(key), EVENT_TTL)).0, e);
  }

  lemma IngestWrites(c: Config, w: World, e: EventIn)
    ensures Wrote(w, Ingest(c, w, e), e)
  {
    if e.severity != INFO {
      InsertWrites(w, e);
      if e.key.Some? {
        var found := FindOpen(w.incidents, e.key.value);
        if found.Some? {
          RefreshWrites(w, found.value, e);
        } else {
          ClaimWrites(c, w, e, e.key.value);
        }
      }
    }
  }

  /** The row is the event's, OPEN and seen once. */
  predicate IsNew(i: Incident, e: EventIn, now: nat) {
    && i.source == e.source && i.externalId == e.externalId && i.key == e.key && i.severity == e.severity
    && i.content == e.content && i.rule == e.rule && i.status == OPEN && i.occurrences == 1 && i.createdAt == now
    && i.updatedAt.None? && i.acknowledgedAt.None? && i.acknowledgedBy.None?
  }

  /** The row was seen once more, now and as the event tells it; its rule is set if it had none. */
  predicate IsRepeat(i: Incident, i': Incident, e: EventIn, now: nat) {
    && i'.occurrences == Max(1, i.occurrences) + 1 && i'.updatedAt == Some(now)
    && i'.severity == e.severity && i'.content == e.content && i'.rule == (if i.rule.Some? then i.rule else e.rule)
    && i'.source == i.source && i'.externalId == i.externalId && i'.key == i.key && i'.status == i.status
    && i'.createdAt == i.createdAt && i'.acknowledgedAt == i.acknowledgedAt && i'.acknowledgedBy == i.acknowledgedBy
  }

  // ---------------------------------------------------------------- status changes keep the lifecycle

  /** Row id changes its status, with one audit, and nothing else that is counted. */
  predicate StatusChange(w: World, w': World, id: nat, row: Incident, a: Audit) {
    id < |w.incidents| && var i := w.incidents[id];
    && w' == w.(incidents := w.incidents[id := row], audits := w.audits + [a], notes := w'.notes)
    && row == i.(status := row.status, updatedAt := row.updatedAt,
                 acknowledgedAt := row.acknowledgedAt, acknowledgedBy := row.acknowledgedBy)
  }

  /** A change that receives no event and leaves no incident OPEN keeps all counts of events and dispatches. */
  lemma CountsStay(w: World, w': World, id: nat, row: Incident, a: Audit, j: nat)
    requires StatusChange(w, w', id, row, a) && !a.EventReceived? && row.status != OPEN
    requires OccurrencesKept(w, j) && StormKept(w, j) && TotalKept(w)
    ensures OccurrencesKept(w', j) && StormKept(w', j) && TotalKept(w')
  {
    CountSnoc(w.audits, a, Received(j));
    TotalUpdate(w.incidents, id, row);
  }

  /** How the lifecycle's counts of incident j change with an audit. */
  ghost predicate Counted(w: World, w': World, j: nat, acks: nat, escalations: nat, resolutions: nat) {
    && Count(w'.audits, Acked(j)) == Count(w.audits, Acked(j)) + acks
    && Count(w'.audits, EscalatedIs(j)) == Count(w.audits, EscalatedIs(j)) + escalations
    && Count(w'.audits, ResolvedIs(j)) == Count(w.audits, ResolvedIs(j)) + resolutions
  }

  lemma AcknowledgementKeeps(w: World, w': World, id: nat, row: Incident, j: nat)
    requires StatusChange(w, w', id, row, AckReceived(id)) && IncidentKept(w, j) && TotalKept(w)
    requires w.incidents[id].status == OPEN && row.status == ACKNOWLEDGED && row.acknowledgedAt.Some?
    ensures IncidentKept(w', j) && TotalKept(w')
  {
    CountsStay(w, w', id, row, AckReceived(id), j);
    AuditSnoc(w.audits, AckReceived(id), j);
    assert Counted(w, w', j, if j == id then 1 else 0, 0, 0);
  }

  lemma EscalationKeeps(w: World, w': World, id: nat, row: Incident, j: nat)
    requires StatusChange(w, w', id, row, Audit.Escalated(id)) && IncidentKept(w, j) && TotalKept(w)
    requires w.incidents[id].status == OPEN && row.status == ESCALATED
    requires row.acknowledgedAt == w.incidents[id].acknowledgedAt
    ensures IncidentKept(w', j) && TotalKept(w')
  {
    CountsStay(w, w', id, row, Audit.Escalated(id), j);
    AuditSnoc(w.audits, Audit.Escalated(id), j);
    assert Counted(w, w', j, 0, if j == id then 1 else 0, 0);
  }

  lemma ResolutionKeeps(w: World, w': World, id: nat, row: Incident, j: nat)
    requires StatusChange(w, w', id, row, CallbackReceived(id, true)) && IncidentKept(w, j) && TotalKept(w)
    requires w.incidents[id].status == ACKNOWLEDGED || w.incidents[id].status == ESCALATED
    requires row.status == RESOLVED && row.acknowledgedAt == w.incidents[id].acknowledgedAt
    ensures IncidentKept(w', j) && TotalKept(w')
  {
    CountsStay(w, w', id, row, CallbackReceived(id, true), j);
    AuditSnoc(w.audits, CallbackReceived(id, true), j);
    assert Counted(w, w', j, 0, 0, if j == id then 1 else 0);
  }

  lemma AcknowledgeKeeps(w: World, id: nat, person: Option<string>, j: nat)
    requires IncidentKept(w, j) && TotalKept(w)
    ensures IncidentKept(Acknowledge(w, id, person).0, j) && TotalKept(Acknowledge(w, id, person).0)
  {
    if id < |w.incidents| && w.incidents[id].status == OPEN {
      var w' := Acknowledge(w, id, person).0;
      AcknowledgementKeeps(w, w', id, w'.incidents[id], j);
    }
  }

  lemma ResolveKeeps(w: World, id: nat, j: nat)
    requires IncidentKept(w, j) && TotalKept(w)
    ensures IncidentKept(Resolve(w, id).0, j) && TotalKept(Resolve(w, id).0)
  {
    if Resolve(w, id).1 == Ok {
      var w' := Resolve(w, id).0;
      ResolutionKeeps(w, w', id, w'.incidents[id], j);
    }
  }

  lemma EscalateKeeps(w: World, id: nat, j: nat)
    requires IncidentKept(w, j) && TotalKept(w)
    ensures IncidentKept(Escalate(w, id), j) && TotalKept(Escalate(w, id))
  {
    if id < |w.incidents| && w.incidents[id].status == OPEN {
      var w' := Escalate(w, id);
      EscalationKeeps(w, w', id, w'.incidents[id], j);
    }
  }

  lemma CallbackKeeps(w: World, note: nat, signed: bool, pressedOne: bool, contact: string, j: nat)
    requires IncidentKept(w, j) && TotalKept(w)
    ensures var w' := VoiceCallback(w, note, signed, pressedOne, contact); IncidentKept(w', j) && TotalKept(w')
  {
    if note < |w.notes| && w.notes[note].incident < |w.incidents| {
      var id := w.notes[note].incident;
      var w1 := w.(audits := w.audits + [CallbackReceived(id, false)]);
      AuditSnoc(w.audits, CallbackReceived(id, false), j);
      if signed && pressedOne && w.incidents[id].status == OPEN {
        var w' := VoiceCallback(w, note, signed, pressedOne, contact);
        AcknowledgementKeeps(w1, w', id, w'.incidents[id], j);
      }
    }
  }

  /** The only ways a status moves. */
  predicate Moves(s: IncidentStatus, s': IncidentStatus) {
    s' == s || (s == OPEN && s' in {ACKNOWLEDGED, ESCALATED}) || (s in {ACKNOWLEDGED, ESCALATED} && s' == RESOLVED)
  }

  /** Where a status can be after any number of moves: never back, and never between the two middle ones. */
  predicate Forward(s: IncidentStatus, s': IncidentStatus) {
    s' == s || s == OPEN || (s in {ACKNOWLEDGED, ESCALATED} && s' == RESOLVED)
  }

  /** What no handler changes in a row, and what it may change once. */
  ghost predicate RowAges(i: Incident, i': Incident) {
    && i'.source == i.source && i'.externalId == i.externalId && i'.key == i.key && i'.createdAt == i.createdAt
    && i.occurrences <= i'.occurrences
    && Forward(i.status, i'.status)
    && (i.rule.Some? ==> i'.rule == i.rule)
    && (i.acknowledgedAt.Some? ==> i'.acknowledgedAt == i.acknowledgedAt)
  }

  ghost predicate RowSteps(i: Incident, i': Incident) {
    RowAges(i, i') && Moves(i.status, i'.status)
  }

  predicate OpenIsUnacknowledged(w: World) {
    forall i: nat | i < |w.incidents| && w.incidents[i].status == OPEN :: w.incidents[i].acknowledgedAt.None?
  }

  lemma AcknowledgeAges(w: World, id: nat, person: Option<string>, i: nat)
    requires OpenIsUnacknowledged(w) && i < |w.incidents|
    ensures |Acknowledge(w, id, person).0.incidents| == |w.incidents|
    ensures RowSteps(w.incidents[i], Acknowledge(w, id, person).0.incidents[i])
  {
  }

  lemma ResolveAges(w: World, id: nat, i: nat)
    requires i < |w.incidents|
    ensures |Resolve(w, id).0.incidents| == |w.incidents|
    ensures RowSteps(w.incidents[i], Resolve(w, id).0.incidents[i])
  {
  }

  lemma EscalateAges(w: World, id: nat, i: nat)
    requires i < |w.incidents|
    ensures |Escalate(w, id).incidents| == |w.incidents|
    ensures RowSteps(w.incidents[i], Escalate(w, id).incidents[i])
  {
  }

  lemma CallbackAges(w: World, note: nat, signed: bool, pressedOne: bool, contact: string, i: nat)
    requires OpenIsUnacknowledged(w) && i < |w.incidents|
    ensures var w' := VoiceCallback(w, note, signed, pressedOne, contact);
            |w'.incidents| == |w.incidents| && RowSteps(w.incidents[i], w'.incidents[i])
  {
  }
}

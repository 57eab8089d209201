/** The tables, the queues and the Redis history that the handlers and tasks share. */
module State {
  import opened Prelude
  import opened Guards
  import opened DeadLetters

  datatype IncidentStatus = OPEN | ACKNOWLEDGED | RESOLVED | ESCALATED

  datatype NotificationStatus = PENDING | SENT | FAILED | DELIVERED | READ | ANSWERED_VOICE

  /** INFO in any letter case; INFO only after trimming; anything else. */
  datatype Severity = INFO | PADDED_INFO | OTHER(name: string)

  datatype Incident = Incident(
    source: string, externalId: string, key: Option<string>,
    severity: Severity, content: string,
    status: IncidentStatus, rule: Option<nat>, occurrences: nat,
    createdAt: nat, updatedAt: Option<nat>,
    acknowledgedAt: Option<nat>, acknowledgedBy: Option<string>)

  datatype Notification = Notification(
    incident: nat, contact: nat, channel: Channel, status: NotificationStatus,
    providerId: Option<string>, error: Option<string>)

  datatype Audit =
    | EventReceived(incident: nat)
    | DuplicatedEvent
    | RuleMatched(incident: nat)
    | TaskQueued(note: nat)
    | FallbackTaskQueued(note: nat)
    | NotificationSent(note: nat, suppressed: bool)
    | NotificationFailed(failedNote: Option<nat>, failedIncident: Option<nat>)
    | AckReceived(incident: nat)
    | Escalated(incident: nat)
    | CallbackReceived(incident: nat, resolved: bool)

  /** One call to a message provider, with the length of the Redis history when it was made. */
  datatype Call = Call(note: nat, channel: Channel, t: nat, ok: bool, service: string, digest: string, mark: nat)

  /** What ingest answered. Created and Deduplicated are the two "accepted" answers. */
  datatype AnswerKind = IgnoredInfo | Deduplicated | DuplicateKey | DuplicateSource | Created

  datatype Answer = Answer(t: nat, kind: AnswerKind, incident: Option<nat>)

  datatype Task = Task(note: nat, channel: Channel)

  /** Ids are positions in the tables; rows are never deleted. */
  datatype World = World(
    now: nat, log: seq<Event>,
    incidents: seq<Incident>, notes: seq<Notification>, audits: seq<Audit>,
    calls: seq<Call>, answers: seq<Answer>,
    dispatches: seq<nat>, tasks: seq<Task>, dlq: Dlq)

  const EMPTY_WORLD := World(0, [], [], [], [], [], [], [], [], EMPTY)

  predicate Terminal(s: NotificationStatus) {
    s == SENT || s == DELIVERED || s == ANSWERED_VOICE
  }

  predicate Guarded(ch: Channel) {
    ch == VOICE || ch == TELEGRAM || ch == EMAIL
  }

  /** One guard operation, with the verdict the history gives it. */
  function Guard(c: Config, w: World, op: Op): (World, bool) {
    var ok := Verdict(c, w.log, w.now, op);
    (w.(log := w.log + [Event(w.now, op, ok)]), ok)
  }

  /** The Redis history is legal and not ahead of the clock. */
  predicate Timed(c: Config, w: World) {
    Legal(c, w.log) && Clock(w.log) <= w.now
  }

  lemma GuardKeepsTime(c: Config, w: World, op: Op)
    requires Timed(c, w)
    ensures Timed(c, Guard(c, w, op).0)
  {
    assert (w.log + [Event(w.now, op, Verdict(c, w.log, w.now, op))])[..|w.log|] == w.log;
  }
}

/** Every run of the whole system, one committed transaction at a time.
 *
 *  A Step is one transaction with its Redis operations, one list operation, or a tick of the clock. The
 *  handlers and tasks of Store are sequences of steps, and any interleaving of them is a run, so what is
 *  proved of every run holds whenever transactions do not overlap.
 */
module System {
  import opened Prelude
  import opened Guards
  import opened State
  import opened DeadLetters
  import opened Fanout
  import Delivery
  import Incidents

  datatype Step =
    | Tick(d: nat)
    | Ingest(event: Incidents.EventIn)
    | Acknowledge(incident: nat, person: Option<string>)
    | Resolve(incident: nat)
    | Escalate(incident: nat)
    | VoiceCallback(note: nat, signed: bool, pressedOne: bool, contact: string)
    | CreateNote(key: NoteKey)
    | QueueTask(note: nat, fallback: bool)
    | Attempt(note: nat, ch: Channel, env: Delivery.Attempt, out: Delivery.Outcome)
    | FinalFailure(failed: Option<nat>, about: Option<nat>, error: string)
    | PushDlq(raw: Raw)
    | TrimDlq(limit: int)
    | RemoveDlq(raw: Raw, replayed: bool)
    | LockReplay(token: int)
    | UnlockReplay(token: int)

  function Queue(w: World, note: nat, fallback: bool): World {
    if |w.notes| <= note then w
    else
      var ch := w.notes[note].channel;
      w.(audits := w.audits + [QueuedAudit(note, fallback)],
         tasks := if Guarded(ch) then w.tasks + [Task(note, ch)] else w.tasks)
  }

  function Apply(c: Config, w: World, s: Step): World {
    match s
    case Tick(d) => w.(now := w.now + d)
    case Ingest(e) => Incidents.Ingest(c, w, e)
    case Acknowledge(id, person) => Incidents.Acknowledge(w, id, person).0
    case Resolve(id) => Incidents.Resolve(w, id).0
    case Escalate(id) => Incidents.Escalate(w, id)
    case VoiceCallback(n, signed, one, contact) => Incidents.VoiceCallback(w, n, signed, one, contact)
    case CreateNote(k) => w.(notes := GetOrCreate(w.notes, k))
    case QueueTask(n, fallback) => Queue(w, n, fallback)
    case Attempt(n, ch, env, _) => Delivery.Send(c, w, n, ch, env).0
    case FinalFailure(n, i, error) => Delivery.RecordFinalFailure(c, w, n, i, error)
    case PushDlq(raw) => w.(dlq := PushEntry(w.dlq, raw, c.dlqMaxItems))
    case TrimDlq(limit) => w.(dlq := Trim(w.dlq, BoundDlqMaxItems(limit)))
    case RemoveDlq(raw, replayed) =>
      if |w.dlq.pushed| == |w.dlq.fates|
      then w.(dlq := Remove(w.dlq, raw, if replayed then Replayed else Discarded)) else w
    case LockReplay(token) => Guard(c, w, Lock(token)).0
    case UnlockReplay(token) => Guard(c, w, Unlock(token)).0
  }

  /** One step: the world it makes and, of an attempt, the outcome it reports. */
  predicate Leads(c: Config, w: World, s: Step, w': World) {
    w' == Apply(c, w, s) && (s.Attempt? ==> s.out == Delivery.Send(c, w, s.note, s.ch, s.env).1)
  }

  /** The i-th step leads from the i-th world to the next. */
  predicate StepAt(c: Config, ws: seq<World>, steps: seq<Step>, i: nat)
    requires i < |steps| && |ws| == |steps| + 1
  {
    Leads(c, ws[i], steps[i], ws[i + 1])
  }

  /** The worlds a run passes through: an empty one first, each next one by one step. */
  ghost predicate Run(c: Config, ws: seq<World>, steps: seq<Step>) {
    |ws| == |steps| + 1 && ws[0] == EMPTY_WORLD &&
    forall i: nat | i < |steps| :: StepAt(c, ws, steps, i)
  }

  lemma RunSnoc(c: Config, ws: seq<World>, steps: seq<Step>, s: Step, w: World)
    requires Run(c, ws, steps) && Leads(c, ws[|steps|], s, w)
    ensures Run(c, ws + [w], steps + [s])
  {
    var ws', steps' := ws + [w], steps + [s];
    forall i: nat | i < |steps'| ensures StepAt(c, ws', steps', i) {
      if i < |steps| {
        StepStays(c, ws, steps, ws', steps', i);
      } else {
        StepLands(c, ws, steps, s, w);
      }
    }
  }

  lemma StepLands(c: Config, ws: seq<World>, steps: seq<Step>, s: Step, w: World)
    requires Run(c, ws, steps) && Leads(c, ws[|steps|], s, w)
    ensures StepAt(c, ws + [w], steps + [s], |steps|)
  {
  }

  lemma StepStays(c: Config, ws: seq<World>, steps: seq<Step>, ws': seq<World>, steps': seq<Step>, i: nat)
    requires Run(c, ws, steps) && i < |steps| && ws <= ws' && steps <= steps' && |ws'| == |steps'| + 1
    ensures StepAt(c, ws', steps', i)
  {
    assert StepAt(c, ws, steps, i);
  }

  // ---------------------------------------------------------------- invariants of every run

  ghost predicate NotesKept(w: World) { forall n: nat :: Delivery.NoteKept(w, n) }

  ghost predicate IncidentsKept(w: World) {
    (forall i: nat :: Incidents.IncidentKept(w, i)) && Incidents.TotalKept(w)
  }

  ghost predicate Inv(c: Config, w: World) {
    && Timed(c, w)
    && NotesKept(w)
    && IncidentsKept(w)
    && Incidents.UniqueSources(w) && Incidents.UniqueOpenKeys(w)
    && Unique(w.notes)
    && Accounted(w.dlq)
    && (forall k | k in w.calls :: Delivery.CallWhileClosed(c, w.log, k))
  }

  lemma StepKeepsTime(c: Config, w: World, s: Step)
    requires Timed(c, w)
    ensures Timed(c, Apply(c, w, s)) && w.log <= Apply(c, w, s).log
  {
    match s
    case Ingest(e) => Incidents.IngestKeepsTime(c, w, e);
    case Attempt(n, ch, env, _) => Delivery.SendIsGuarded(c, w, n, ch, env);
    case FinalFailure(n, i, error) => Delivery.FinalFailureKeepsTime(c, w, n, i, error);
    case _ => QuietStepKeepsTime(c, w, s);
  }

  lemma QuietStepKeepsTime(c: Config, w: World, s: Step)
    requires Timed(c, w) && !s.Ingest? && !s.Attempt? && !s.FinalFailure?
    ensures Timed(c, Apply(c, w, s)) && w.log <= Apply(c, w, s).log
  {
    if s.LockReplay? {
      GuardKeepsTime(c, w, Lock(s.token));
    } else if s.UnlockReplay? {
      GuardKeepsTime(c, w, Unlock(s.token));
    }
  }

  // ---------------------------------------------------------------- rows only age

  /** What any step leaves of a notification row. */
  predicate NoteAges(n: Notification, n': Notification) {
    KeyOf(n') == KeyOf(n) && (Terminal(n.status) ==> Terminal(n'.status))
  }

  /** Rows are never deleted, keep their identity, and only move forward. */
  ghost predicate Ages(w: World, w': World) {
    && |w.incidents| <= |w'.incidents| && |w.notes| <= |w'.notes|
    && (forall i: nat | i < |w.incidents| :: Incidents.RowAges(w.incidents[i], w'.incidents[i]))
    && (forall i: nat | i < |w.notes| :: NoteAges(w.notes[i], w'.notes[i]))
    && w.now <= w'.now
  }

  predicate IncidentStep(s: Step) {
    s.Ingest? || s.Acknowledge? || s.Resolve? || s.Escalate? || s.VoiceCallback?
  }

  lemma IncidentAges(c: Config, w: World, s: Step, i: nat)
    requires Incidents.OpenIsUnacknowledged(w) && i < |w.incidents|
    ensures var w' := Apply(c, w, s);
            |w.incidents| <= |w'.incidents| && Incidents.RowSteps(w.incidents[i], w'.incidents[i])
  {
    match s
    case Ingest(e) => Incidents.IngestRows(c, w, e);
    case Acknowledge(id, person) => Incidents.AcknowledgeAges(w, id, person, i);
    case Resolve(id) => Incidents.ResolveAges(w, id, i);
    case Escalate(id) => Incidents.EscalateAges(w, id, i);
    case VoiceCallback(n, signed, one, contact) => Incidents.CallbackAges(w, n, signed, one, contact, i);
    case _ => OthersLeaveIncidents(c, w, s);
  }

  lemma OthersLeaveIncidents(c: Config, w: World, s: Step)
    requires !IncidentStep(s)
    ensures var w' := Apply(c, w, s);
            w'.incidents == w.incidents && w'.answers == w.answers && w'.dispatches == w.dispatches
  {
    if s.Attempt? {
      Delivery.SendAccounts(c, w, s.note, s.ch, s.env);
    }
  }

  lemma NotesAge(c: Config, w: World, s: Step)
    ensures var w' := Apply(c, w, s);
            |w.notes| <= |w'.notes| && w.now <= w'.now &&
            forall i: nat | i < |w.notes| :: NoteAges(w.notes[i], w'.notes[i])
  {
    if s.Ingest? {
      Incidents.IngestRows(c, w, s.event);
    } else if s.Attempt? {
      Delivery.SendAccounts(c, w, s.note, s.ch, s.env);
    }
  }

  lemma StepAges(c: Config, w: World, s: Step)
    requires IncidentsKept(w)
    ensures Ages(w, Apply(c, w, s))
    ensures forall i: nat | i < |w.incidents| ::
            Incidents.Moves(w.incidents[i].status, Apply(c, w, s).incidents[i].status)
  {
    forall i: nat | i < |w.incidents| ensures w.incidents[i].status == OPEN ==> w.incidents[i].acknowledgedAt.None? {
      assert Incidents.IncidentKept(w, i);
    }
    StepAdds(c, w, s);
    NotesAge(c, w, s);
    forall i: nat | i < |w.incidents|
      ensures i < |Apply(c, w, s).incidents| && Incidents.RowSteps(w.incidents[i], Apply(c, w, s).incidents[i])
    {
      IncidentAges(c, w, s, i);
    }
  }

  /** Only Ingest adds incident rows, only CreateNote adds notifications, and only Attempt calls providers. */
  lemma StepAdds(c: Config, w: World, s: Step)
    ensures var w' := Apply(c, w, s);
            && |w.incidents| <= |w'.incidents|
            && (!s.Ingest? ==> |w'.incidents| == |w.incidents|)
            && (!s.CreateNote? ==> |w'.notes| == |w.notes|)
            && (!s.Attempt? && !s.FinalFailure? && !s.VoiceCallback? && !s.CreateNote? ==> w'.notes == w.notes)
            && (!s.Attempt? ==> w'.calls == w.calls)
  {
    match s
    case Ingest(e) => Incidents.IngestRows(c, w, e);
    case Attempt(n, ch, env, _) => Delivery.SendAccounts(c, w, n, ch, env);
    case _ =>
  }

  // ---------------------------------------------------------------- every step keeps every invariant

  predicate AuditsGrow(w: World, w': World, extra: seq<Audit>) {
    w'.audits == w.audits + extra
  }

  predicate AboutIncidents(a: Audit) {
    a.EventReceived? || a.AckReceived? || a.Escalated? || (a.CallbackReceived? && a.resolved)
  }

  /** Which steps write which audits: NOTIFICATION_SENT comes from attempts alone, and the audits of an
   *  incident from the five incident steps alone. */
  lemma StepAudits(c: Config, w: World, s: Step)
    ensures AuditsOf(w, Apply(c, w, s), s)
  {
    match s
    case Attempt(n, ch, env, _) => Delivery.SendAccounts(c, w, n, ch, env);
    case Ingest(e) => Incidents.IngestAudits(c, w, e);
    case FinalFailure(n, i, error) => FinalFailureAudits(c, w, n, i, error);
    case _ => QuietAudits(c, w, s);
  }

  lemma FinalFailureAudits(c: Config, w: World, n: Option<nat>, i: Option<nat>, error: string)
    ensures AuditsOf(w, Delivery.RecordFinalFailure(c, w, n, i, error), FinalFailure(n, i, error))
  {
  }

  lemma QuietAudits(c: Config, w: World, s: Step)
    requires !s.Ingest? && !s.Attempt? && !s.FinalFailure?
    ensures AuditsOf(w, Apply(c, w, s), s)
  {
  }

  predicate AuditsOf(w: World, w': World, s: Step) {
    && w.audits <= w'.audits
    && (!s.Attempt? ==> forall a | a in w'.audits[|w.audits|..] :: !a.NotificationSent?)
    && (!IncidentStep(s) ==> forall a | a in w'.audits[|w.audits|..] :: !AboutIncidents(a))
  }

  /** A step that writes no NOTIFICATION_SENT audit, calls nobody and leaves the rows alone. */
  lemma OthersKeepNotes(w: World, w': World, extra: seq<Audit>)
    requires NotesKept(w) && AuditsGrow(w, w', extra) && w'.notes == w.notes && w'.calls == w.calls
    requires forall a | a in extra :: !a.NotificationSent?
    ensures NotesKept(w')
  {
    forall n: nat ensures Delivery.NoteKept(w', n) {
      assert Delivery.NoteKept(w, n);
      CountAppend(w.audits, extra, Delivery.SentAudit(n));
      CountNone(extra, Delivery.SentAudit(n));
    }
  }

  lemma CallbackKeepsNotes(w: World, n: nat, signed: bool, one: bool, contact: string)
    requires NotesKept(w)
    ensures NotesKept(Incidents.VoiceCallback(w, n, signed, one, contact))
  {
    var w' := Incidents.VoiceCallback(w, n, signed, one, contact);
    var extra := w'.audits[|w.audits|..];
    assert w'.audits == w.audits + extra;
    forall j: nat ensures Delivery.NoteKept(w', j) {
      assert Delivery.NoteKept(w, j);
      CountAppend(w.audits, extra, Delivery.SentAudit(j));
      CountNone(extra, Delivery.SentAudit(j));
    }
  }

  lemma CreateKeepsNotes(w: World, k: NoteKey)
    requires NotesKept(w)
    ensures NotesKept(w.(notes := GetOrCreate(w.notes, k)))
  {
    var w' := w.(notes := GetOrCreate(w.notes, k));
    forall j: nat ensures Delivery.NoteKept(w', j) {
      assert Delivery.NoteKept(w, j);
    }
  }

  lemma StepKeepsNotes(c: Config, w: World, s: Step)
    requires NotesKept(w)
    ensures NotesKept(Apply(c, w, s))
  {
    var w' := Apply(c, w, s);
    match s
    case Attempt(n, ch, env, _) =>
      var o := Delivery.Send(c, w, n, ch, env).1;
      Delivery.SendAccounts(c, w, n, ch, env);
      forall j: nat ensures Delivery.NoteKept(w', j) {
        assert Delivery.NoteKept(w, j);
        Delivery.AccountsKeepNote(w, w', n, o, j);
      }
    case FinalFailure(n, i, error) =>
      forall j: nat ensures Delivery.NoteKept(w', j) {
        assert Delivery.NoteKept(w, j);
        Delivery.FinalFailureKeepsNote(c, w, n, i, error, j);
      }
    case VoiceCallback(n, signed, one, contact) => CallbackKeepsNotes(w, n, signed, one, contact);
    case CreateNote(k) => CreateKeepsNotes(w, k);
    case _ =>
      StepAudits(c, w, s);
      StepAdds(c, w, s);
      OthersKeepNotes(w, w', w'.audits[|w.audits|..]);
  }

  /** A step that leaves incidents, answers and dispatches alone and writes no audit about them. */
  lemma OthersKeepIncidents(w: World, w': World, extra: seq<Audit>)
    requires IncidentsKept(w) && AuditsGrow(w, w', extra) && w.now <= w'.now
    requires w'.incidents == w.incidents && w'.answers == w.answers && w'.dispatches == w.dispatches
    requires forall a | a in extra :: !AboutIncidents(a)
    ensures IncidentsKept(w')
  {
    forall i: nat ensures Incidents.IncidentKept(w', i) {
      assert Incidents.IncidentKept(w, i);
      CountAppend(w.audits, extra, Incidents.Received(i));
      CountAppend(w.audits, extra, Incidents.Acked(i));
      CountAppend(w.audits, extra, Incidents.EscalatedIs(i));
      CountAppend(w.audits, extra, Incidents.ResolvedIs(i));
      CountNone(extra, Incidents.Received(i));
      CountNone(extra, Incidents.Acked(i));
      CountNone(extra, Incidents.EscalatedIs(i));
      CountNone(extra, Incidents.ResolvedIs(i));
    }
  }

  lemma StepKeepsIncidents(c: Config, w: World, s: Step)
    requires IncidentsKept(w)
    ensures IncidentsKept(Apply(c, w, s))
  {
    var w' := Apply(c, w, s);
    if IncidentStep(s) {
      forall i: nat
        ensures Incidents.IncidentKept(w', i) && Incidents.TotalKept(w')
      {
        assert Incidents.IncidentKept(w, i);
        match s
        case Ingest(e) => Incidents.IngestKeeps(c, w, e, i);
        case Acknowledge(id, person) => Incidents.AcknowledgeKeeps(w, id, person, i);
        case Resolve(id) => Incidents.ResolveKeeps(w, id, i);
        case Escalate(id) => Incidents.EscalateKeeps(w, id, i);
        case VoiceCallback(n, signed, one, contact) => Incidents.CallbackKeeps(w, n, signed, one, contact, i);
      }
      assert Incidents.IncidentKept(w', 0);
    } else {
      StepAudits(c, w, s);
      OthersLeaveIncidents(c, w, s);
      NotesAge(c, w, s);
      OthersKeepIncidents(w, w', w'.audits[|w.audits|..]);
    }
  }

  lemma StepKeepsUnique(c: Config, w: World, s: Step)
    requires IncidentsKept(w)
    requires Incidents.UniqueSources(w) && Incidents.UniqueOpenKeys(w) && Unique(w.notes)
    ensures var w' := Apply(c, w, s);
            Incidents.UniqueSources(w') && Incidents.UniqueOpenKeys(w') && Unique(w'.notes)
  {
    StepAges(c, w, s);
    StepAdds(c, w, s);
    match s
    case Ingest(e) =>
      Incidents.IngestKeepsUnique(c, w, e);
      Incidents.IngestRows(c, w, e);
    case CreateNote(k) => GetOrCreateKeeps(w.notes, k);
    case _ =>
  }

  lemma StepKeepsDlq(c: Config, w: World, s: Step)
    requires Accounted(w.dlq)
    ensures var w' := Apply(c, w, s);
            && Accounted(w'.dlq) && Extends(w.dlq, w'.dlq)
            && (s.PushDlq? ==> |w'.dlq.items| <= Max(1, c.dlqMaxItems))
  {
    match s
    case PushDlq(raw) =>
      PushAccounted(w.dlq, raw);
      TrimAccounted(Push(w.dlq, raw), BoundDlqMaxItems(c.dlqMaxItems));
    case TrimDlq(limit) => TrimAccounted(w.dlq, BoundDlqMaxItems(limit));
    case RemoveDlq(raw, replayed) => RemoveAccounted(w.dlq, raw, if replayed then Replayed else Discarded);
    case Ingest(e) => Incidents.IngestRows(c, w, e);
    case Attempt(n, ch, env, _) => Delivery.SendAccounts(c, w, n, ch, env);
    case _ =>
  }

  lemma StepKeepsCalls(c: Config, w: World, s: Step)
    requires Timed(c, w) && forall k | k in w.calls :: Delivery.CallWhileClosed(c, w.log, k)
    ensures var w' := Apply(c, w, s); forall k | k in w'.calls :: Delivery.CallWhileClosed(c, w'.log, k)
  {
    var w' := Apply(c, w, s);
    if s.Attempt? {
      Delivery.SendCallsWhileClosed(c, w, s.note, s.ch, s.env);
    } else {
      StepKeepsTime(c, w, s);
      StepAdds(c, w, s);
      forall k | k in w.calls ensures Delivery.CallWhileClosed(c, w'.log, k) {
        assert w'.log[..k.mark] == w.log[..k.mark];
      }
    }
  }

  lemma StepKeepsInv(c: Config, w: World, s: Step)
    requires Inv(c, w)
    ensures Inv(c, Apply(c, w, s))
  {
    StepKeepsTime(c, w, s);
    StepKeepsNotes(c, w, s);
    StepKeepsIncidents(c, w, s);
    StepKeepsUnique(c, w, s);
    StepKeepsDlq(c, w, s);
    StepKeepsCalls(c, w, s);
  }

  /** Every run keeps every invariant, at every moment. */
  lemma {:induction false} RunKeepsInv(c: Config, ws: seq<World>, steps: seq<Step>, i: nat)
    requires Run(c, ws, steps) && i < |ws|
    ensures Inv(c, ws[i])
  {
    if i == 0 {
      EmptyInv(c);
    } else {
      RunKeepsInv(c, ws, steps, i - 1);
      InvAt(c, ws, steps, i - 1);
    }
  }

  lemma InvAt(c: Config, ws: seq<World>, steps: seq<Step>, i: nat)
    requires Run(c, ws, steps) && i < |steps| && Inv(c, ws[i])
    ensures Inv(c, ws[i + 1])
  {
    assert StepAt(c, ws, steps, i);
    StepKeepsInv(c, ws[i], steps[i]);
  }

  lemma LatestIsUnique(c: Config, ws: seq<World>, steps: seq<Step>)
    requires Run(c, ws, steps)
    ensures Unique(ws[|steps|].notes)
  {
    RunKeepsInv(c, ws, steps, |steps|);
  }

  lemma LatestIsAccounted(c: Config, ws: seq<World>, steps: seq<Step>)
    requires Run(c, ws, steps)
    ensures Accounted(ws[|steps|].dlq)
  {
    RunKeepsInv(c, ws, steps, |steps|);
  }

  lemma EmptyInv(c: Config)
    ensures Inv(c, EMPTY_WORLD)
  {
  }

  // ---------------------------------------------------------------- along a run

  lemma AgesTransitive(w: World, v: World, u: World)
    requires Ages(w, v) && Ages(v, u)
    ensures Ages(w, u)
  {
    forall i: nat | i < |w.incidents| ensures Incidents.RowAges(w.incidents[i], u.incidents[i]) {
      assert Incidents.RowAges(w.incidents[i], v.incidents[i]) && Incidents.RowAges(v.incidents[i], u.incidents[i]);
    }
    forall i: nat | i < |w.notes| ensures NoteAges(w.notes[i], u.notes[i]) {
      assert NoteAges(w.notes[i], v.notes[i]) && NoteAges(v.notes[i], u.notes[i]);
    }
  }

  /** Between any two moments of a run rows have only aged: terminal notifications stay terminal, RESOLVED
   *  stays RESOLVED, acknowledged_at and the matched rule are written at most once, nothing is OPEN again. */
  lemma {:induction false} RunAges(c: Config, ws: seq<World>, steps: seq<Step>, i: nat, j: nat)
    requires Run(c, ws, steps) && i <= j < |ws|
    ensures Ages(ws[i], ws[j])
  {
    if i < j {
      RunAges(c, ws, steps, i, j - 1);
      AgesAt(c, ws, steps, j - 1);
      AgesTransitive(ws[i], ws[j - 1], ws[j]);
    }
  }

  lemma AgesAt(c: Config, ws: seq<World>, steps: seq<Step>, i: nat)
    requires Run(c, ws, steps) && i < |steps|
    ensures Ages(ws[i], ws[i + 1])
  {
    assert StepAt(c, ws, steps, i);
    RunKeepsInv(c, ws, steps, i);
    StepAges(c, ws[i], steps[i]);
  }

  // ---------------------------------------------------------------- the theorems

  /** At most once: at every moment of every run a notification has had at most one successful provider call
   *  and at most one NOTIFICATION_SENT audit; SENT and DELIVERED mean exactly one audit, DELIVERED no
   *  successful call, and the audit is there only if the row is terminal. */
  lemma AtMostOnce(c: Config, ws: seq<World>, steps: seq<Step>, i: nat, note: nat)
    requires Run(c, ws, steps) && i < |ws|
    ensures var w := ws[i];
            var calls, audits := Count(w.calls, Delivery.OkCall(note)), Count(w.audits, Delivery.SentAudit(note));
            && calls <= audits <= 1
            && (note < |w.notes| ==>
                  && (w.notes[note].status == SENT || w.notes[note].status == DELIVERED ==> audits == 1)
                  && (w.notes[note].status == DELIVERED ==> calls == 0)
                  && (var s := w.notes[note].status;
                      audits == 1 ==> s == SENT || s == DELIVERED || s == ANSWERED_VOICE))
  {
    RunKeepsInv(c, ws, steps, i);
    assert Delivery.NoteKept(ws[i], note);
  }

  /** A terminal notification stays terminal and keeps its incident, contact and channel. */
  lemma TerminalIsForever(c: Config, ws: seq<World>, steps: seq<Step>, i: nat, j: nat, note: nat)
    requires Run(c, ws, steps) && i <= j < |ws| && note < |ws[i].notes| && Terminal(ws[i].notes[note].status)
    ensures note < |ws[j].notes| && Terminal(ws[j].notes[note].status) &&
            KeyOf(ws[j].notes[note]) == KeyOf(ws[i].notes[note])
  {
    RunAges(c, ws, steps, i, j);
    assert NoteAges(ws[i].notes[note], ws[j].notes[note]);
  }

  lemma {:induction false} RunPays(c: Config, ws: seq<World>, steps: seq<Step>, i: nat,
                                   ch: Channel, service: string, digest: string, from: nat, to: int)
    requires Run(c, ws, steps) && i < |ws|
    ensures Delivery.CallsPaid(ws[i], ch, service, digest, from, to)
  {
    if i > 0 {
      RunPays(c, ws, steps, i - 1, ch, service, digest, from, to);
      PaysAt(c, ws, steps, i - 1, ch, service, digest, from, to);
    }
  }

  lemma PaysAt(c: Config, ws: seq<World>, steps: seq<Step>, i: nat,
               ch: Channel, service: string, digest: string, from: nat, to: int)
    requires Run(c, ws, steps) && i < |steps| && Delivery.CallsPaid(ws[i], ch, service, digest, from, to)
    ensures Delivery.CallsPaid(ws[i + 1], ch, service, digest, from, to)
  {
    assert StepAt(c, ws, steps, i);
    RunKeepsInv(c, ws, steps, i);
    StepPays(c, ws[i], steps[i], ch, service, digest, from, to);
  }

  lemma StepPays(c: Config, w: World, s: Step, ch: Channel, service: string, digest: string, from: nat, to: int)
    requires Timed(c, w) && Delivery.CallsPaid(w, ch, service, digest, from, to)
    ensures Delivery.CallsPaid(Apply(c, w, s), ch, service, digest, from, to)
  {
    if s.Attempt? {
      Delivery.SendPays(c, w, s.note, s.ch, s.env, ch, service, digest, from, to);
    } else {
      StepAdds(c, w, s);
      StepKeepsTime(c, w, s);
      var log := Apply(c, w, s).log;
      CountPrefix(w.log, log, AdmittedBetween(ch, from, to));
      CountPrefix(w.log, log, ServicePass(service, from, to));
      CountPrefix(w.log, log, PassesBetween(TelegramGate(digest), from, to));
    }
  }

  /** Provider calls are rate limited: on a channel any window holds at most twice the limit, and any k hours
   *  hold at most (k + 1) * 5 Telegram calls of one service. */
  lemma CallsAreRateLimited(c: Config, ws: seq<World>, steps: seq<Step>, i: nat,
                            ch: Channel, service: string, from: nat, k: nat)
    requires Run(c, ws, steps) && i < |ws| && Guarded(ch)
    ensures Count(ws[i].calls, Delivery.CallOn(ch, from, from + WindowMs(c))) <= 2 * Max(0, c.rateLimit)
    ensures Count(ws[i].calls, Delivery.TelegramFor(service, from, from + k * 3_600_000)) <= (k + 1) * 5
  {
    RunKeepsInv(c, ws, steps, i);
    RunPays(c, ws, steps, i, ch, service, "", from, from + WindowMs(c));
    RunPays(c, ws, steps, i, ch, service, "", from, from + k * SERVICE_WINDOW);
    ChannelRateBound(c, ws[i].log, ch, from);
    ServiceRateBound(c, ws[i].log, service, from, k);
  }

  /** Telegram calls with one text to one chat are bounded by elapsed time over the smallest window any
   *  attempt used for it. */
  lemma TelegramCallsAreSpread(c: Config, ws: seq<World>, steps: seq<Step>, i: nat,
                               digest: string, from: nat, to: nat, window: nat)
    requires Run(c, ws, steps) && i < |ws|
    requires forall e | e in ws[i].log && Passed(e, TelegramGate(digest)) :: window <= e.op.ttl
    ensures var n := Count(ws[i].calls, Delivery.TelegramOf(digest, from, to));
            n >= 1 ==> (n - 1) * window < to - from
  {
    RunKeepsInv(c, ws, steps, i);
    RunPays(c, ws, steps, i, TELEGRAM, "", digest, from, to);
    GateRateBound(c, ws[i].log, TelegramGate(digest), from, to, window);
    var n, m := Count(ws[i].calls, Delivery.TelegramOf(digest, from, to)),
                Count(ws[i].log, PassesBetween(TelegramGate(digest), from, to));
    if n >= 1 {
      Smaller(n - 1, m - 1, window);
    }
  }

  lemma Smaller(x: nat, y: nat, w: nat)
    requires x <= y
    ensures x * w <= y * w
  {
  }

  /** No provider is called on a channel until CB_OPEN_SECONDS after its circuit last opened. */
  lemma NoCallWhileOpen(c: Config, ws: seq<World>, steps: seq<Step>, i: nat, k: Call)
    requires Run(c, ws, steps) && i < |ws| && k in ws[i].calls
    ensures k.mark <= |ws[i].log| &&
            match LastOpening(ws[i].log[..k.mark], k.channel)
            case None => true
            case Some(o) => o + c.cbOpenSeconds * SECOND <= k.t
  {
    RunKeepsInv(c, ws, steps, i);
    assert Delivery.CallWhileClosed(c, ws[i].log, k);
  }

  /** An incident is acknowledged or escalated at most once, by API, voice, deadline or sweep together;
   *  acknowledged_at records exactly the acknowledgement; it is resolved only after one of the two. */
  lemma Lifecycle(c: Config, ws: seq<World>, steps: seq<Step>, i: nat, id: nat)
    requires Run(c, ws, steps) && i < |ws|
    ensures var w := ws[i];
            var acks, escalations := Count(w.audits, Incidents.Acked(id)), Count(w.audits, Incidents.EscalatedIs(id));
            && acks + escalations <= 1
            && (id < |w.incidents| ==>
                  && (w.incidents[id].status == OPEN <==> acks + escalations == 0)
                  && (w.incidents[id].acknowledgedAt.Some? <==> acks == 1)
                  && (w.incidents[id].status == RESOLVED <==> Count(w.audits, Incidents.ResolvedIs(id)) == 1))
  {
    RunKeepsInv(c, ws, steps, i);
    assert Incidents.IncidentKept(ws[i], id);
  }

  /** Each step moves a status along one edge: OPEN to ACKNOWLEDGED or ESCALATED, either of these to
   *  RESOLVED. Over a run RESOLVED is absorbing and acknowledged_at, once written, stays. */
  lemma StatusesMoveForward(c: Config, ws: seq<World>, steps: seq<Step>, i: nat, j: nat, id: nat)
    requires Run(c, ws, steps) && i < j < |ws| && id < |ws[i].incidents|
    ensures id < |ws[i + 1].incidents| && Incidents.Moves(ws[i].incidents[id].status, ws[i + 1].incidents[id].status)
    ensures id < |ws[j].incidents|
    ensures ws[i].incidents[id].status == RESOLVED ==> ws[j].incidents[id].status == RESOLVED
    ensures ws[i].incidents[id].status != OPEN ==> ws[j].incidents[id].status != OPEN
    ensures ws[i].incidents[id].acknowledgedAt.Some? ==>
              ws[j].incidents[id].acknowledgedAt == ws[i].incidents[id].acknowledgedAt
    ensures ws[i].incidents[id].rule.Some? ==> ws[j].incidents[id].rule == ws[i].incidents[id].rule
  {
    RunKeepsInv(c, ws, steps, i);
    assert StepAt(c, ws, steps, i);
    StepAges(c, ws[i], steps[i]);
    RunAges(c, ws, steps, i, j);
    assert Incidents.RowAges(ws[i].incidents[id], ws[j].incidents[id]);
  }

  /** Nothing accepted is lost or counted twice: all occurrences together are the accepted answers, each
   *  incident's are its EVENT_RECEIVED audits, and no (source, external id) or OPEN key repeats. */
  lemma IngestConservation(c: Config, ws: seq<World>, steps: seq<Step>, i: nat, id: nat)
    requires Run(c, ws, steps) && i < |ws|
    ensures var w := ws[i];
            && Incidents.TotalOccurrences(w.incidents) == Count(w.answers, Incidents.Accepted())
            && (id < |w.incidents| ==> w.incidents[id].occurrences == Count(w.audits, Incidents.Received(id)))
            && (id < |w.incidents| ==> w.incidents[id].occurrences == Count(w.answers, Incidents.AcceptedFor(id)))
            && Incidents.UniqueSources(w) && Incidents.UniqueOpenKeys(w)
  {
    RunKeepsInv(c, ws, steps, i);
    assert Incidents.IncidentKept(ws[i], id);
  }

  /** However many repeats an incident receives, ingest dispatches it at most five times, and once more for
   *  every silence of more than an hour. */
  lemma AlertStormBound(c: Config, ws: seq<World>, steps: seq<Step>, i: nat, id: nat)
    requires Run(c, ws, steps) && i < |ws|
    ensures Count(ws[i].dispatches, Incidents.DispatchOf(id)) <= 5 + Incidents.Gaps(ws[i].answers, id)
  {
    RunKeepsInv(c, ws, steps, i);
    assert Incidents.IncidentKept(ws[i], id);
  }

  /** One notification per incident, contact and channel, over every run. */
  lemma OneNotePerKey(c: Config, ws: seq<World>, steps: seq<Step>, i: nat)
    requires Run(c, ws, steps) && i < |ws|
    ensures Unique(ws[i].notes)
  {
    RunKeepsInv(c, ws, steps, i);
  }

  lemma {:induction false} RunExtendsDlq(c: Config, ws: seq<World>, steps: seq<Step>, i: nat, j: nat)
    requires Run(c, ws, steps) && i <= j < |ws|
    ensures Extends(ws[i].dlq, ws[j].dlq)
  {
    if i == j {
      RunKeepsInv(c, ws, steps, i);
    } else {
      RunExtendsDlq(c, ws, steps, i, j - 1);
      DlqAt(c, ws, steps, j - 1);
    }
  }

  lemma DlqAt(c: Config, ws: seq<World>, steps: seq<Step>, i: nat)
    requires Run(c, ws, steps) && i < |steps|
    ensures Extends(ws[i].dlq, ws[i + 1].dlq)
  {
    assert StepAt(c, ws, steps, i);
    RunKeepsInv(c, ws, steps, i);
    StepKeepsDlq(c, ws[i], steps[i]);
  }

  lemma PushAt(c: Config, ws: seq<World>, steps: seq<Step>, i: nat)
    requires Run(c, ws, steps) && i < |steps| && steps[i].PushDlq?
    ensures |ws[i + 1].dlq.items| <= Max(1, c.dlqMaxItems)
  {
    assert StepAt(c, ws, steps, i);
    RunKeepsInv(c, ws, steps, i);
    StepKeepsDlq(c, ws[i], steps[i]);
  }

  /** DLQ accounting over any mix of pushes, trims, prunes and replays: the list is the pushes that met no
   *  other fate, in push order; every push has one fate, which never changes once it has left the list;
   *  and no push leaves the list longer than its maximum. */
  lemma DlqAccounting(c: Config, ws: seq<World>, steps: seq<Step>, i: nat, j: nat)
    requires Run(c, ws, steps) && i < j < |ws|
    ensures var q := ws[j].dlq;
            && |q.pushed| == |q.fates| && q.items == StillQueued(q.pushed, q.fates)
            && |q.pushed| == |q.items| + Count(q.fates, HasFate(Replayed)) +
                             Count(q.fates, HasFate(Discarded)) + Count(q.fates, HasFate(Trimmed))
            && Extends(ws[i].dlq, q)
    ensures steps[i].PushDlq? ==> |ws[i + 1].dlq.items| <= Max(1, c.dlqMaxItems)
  {
    RunKeepsInv(c, ws, steps, i);
    RunKeepsInv(c, ws, steps, j);
    RunExtendsDlq(c, ws, steps, i, j);
    DlqConservation(ws[j].dlq);
    if steps[i].PushDlq? {
      PushAt(c, ws, steps, i);
    }
  }

  /** What a run pushed, in order. */
  function Pushes(steps: seq<Step>): seq<Raw> {
    if steps == [] then []
    else
      var s := steps[|steps| - 1];
      Pushes(steps[..|steps| - 1]) + (if s.PushDlq? then [s.raw] else [])
  }

  lemma StepPushes(c: Config, w: World, s: Step)
    ensures Apply(c, w, s).dlq.pushed == w.dlq.pushed + (if s.PushDlq? then [s.raw] else [])
  {
    match s
    case Ingest(e) => Incidents.IngestRows(c, w, e);
    case Attempt(n, ch, env, _) => Delivery.SendAccounts(c, w, n, ch, env);
    case _ =>
  }

  lemma {:induction false} PushedArePushes(c: Config, ws: seq<World>, steps: seq<Step>, i: nat)
    requires Run(c, ws, steps) && i < |ws|
    ensures ws[i].dlq.pushed == Pushes(steps[..i])
  {
    if i > 0 {
      PushedArePushes(c, ws, steps, i - 1);
      PushedNext(c, ws, steps, i - 1);
    }
  }

  lemma PushedNext(c: Config, ws: seq<World>, steps: seq<Step>, i: nat)
    requires Run(c, ws, steps) && i < |steps| && ws[i].dlq.pushed == Pushes(steps[..i])
    ensures ws[i + 1].dlq.pushed == Pushes(steps[..i + 1])
  {
    assert StepAt(c, ws, steps, i);
    StepPushes(c, ws[i], steps[i]);
    assert steps[..i + 1][..i] == steps[..i];
  }

  /** Every dead letter carries a fresh stamp, so pushes differ; then no two entries of the queue are ever
   *  equal, and a replay keeps its order (DrainKeepsOrder). */
  lemma QueueIsDistinct(c: Config, ws: seq<World>, steps: seq<Step>, i: nat)
    requires Run(c, ws, steps) && i < |ws| && Distinct(Pushes(steps))
    ensures Distinct(ws[i].dlq.pushed) && Distinct(ws[i].dlq.items)
  {
    assert steps[..|steps|] == steps;
    PushedArePushes(c, ws, steps, |steps|);
    RunExtendsDlq(c, ws, steps, i, |steps|);
    RunKeepsInv(c, ws, steps, i);
    DistinctPushes(ws[i].dlq.pushed, ws[i].dlq.fates);
  }

  /** Once an attempt has suppressed a notification, every later attempt on it is a no-op that a replay
   *  counts as done: an entry kept for that reason is removed by the next replay that reaches it. */
  lemma SuppressedIsSettledLater(c: Config, ws: seq<World>, steps: seq<Step>, i: nat, j: nat, next: Delivery.Attempt)
    requires Run(c, ws, steps) && i < j < |ws| && steps[i].Attempt?
    requires steps[i].out.SuppressedDuplicate? || steps[i].out.SuppressedRateLimit?
    ensures Delivery.Send(c, ws[j], steps[i].note, steps[i].ch, next) == (ws[j], Delivery.AlreadyTerminal)
  {
    var id := steps[i].note;
    assert StepAt(c, ws, steps, i);
    Delivery.SendAccounts(c, ws[i], id, steps[i].ch, steps[i].env);
    TerminalIsForever(c, ws, steps, i + 1, j, id);
    Delivery.TerminalAttemptIsInert(c, ws[j], id, steps[i].ch, next);
  }

  /** DELIVERED does not mean that anyone got the message: the dedupe key is taken before the send, so when
   *  the provider fails the retry finds its own key and marks the notification DELIVERED. */
  lemma SuppressedWithoutDelivery(c: Config) returns (ws: seq<World>, steps: seq<Step>)
    requires c.rateLimit >= 2
    ensures Run(c, ws, steps)
    ensures var w := ws[|steps|]; |w.notes| == 1 && w.notes[0].status == DELIVERED && forall k | k in w.calls :: !k.ok
  {
    var env := Delivery.Attempt(false, true, false, false, false, "text", 300, "svc", Delivery.OtherError("timeout"));
    var key := NoteKey(0, 0, TELEGRAM);
    ws, steps := OneNoteRun(c, key);
    ws, steps := RetryAfterError(c, ws, steps, env);
  }

  lemma OneNoteRun(c: Config, key: NoteKey) returns (ws: seq<World>, steps: seq<Step>)
    ensures Run(c, ws, steps) && ws[|steps|] == EMPTY_WORLD.(notes := [NewNote(key)])
  {
    ws, steps := [EMPTY_WORLD, EMPTY_WORLD.(notes := [NewNote(key)])], [CreateNote(key)];
    assert StepAt(c, ws, steps, 0);
  }

  lemma RetryAfterError(c: Config, ws: seq<World>, steps: seq<Step>, env: Delivery.Attempt)
    returns (ws': seq<World>, steps': seq<Step>)
    requires c.rateLimit >= 2 && Run(c, ws, steps) && env.telegramToken && env.reply.OtherError?
    requires var w := ws[|steps|]; |w.notes| == 1 && w.notes[0].status == PENDING && w.log == [] && w.calls == []
    ensures Run(c, ws', steps')
    ensures var w := ws'[|steps'|]; |w.notes| == 1 && w.notes[0].status == DELIVERED && forall k | k in w.calls :: !k.ok
  {
    var w1, w2 := Delivery.RaisedThenSuppressed(c, ws[|steps|], env);
    ws', steps' := AttemptSnoc(c, ws, steps, 0, env, w1);
    ws', steps' := AttemptSnoc(c, ws', steps', 0, env, w2);
  }

  lemma AttemptSnoc(c: Config, ws: seq<World>, steps: seq<Step>, id: nat, env: Delivery.Attempt, w: World)
    returns (ws': seq<World>, steps': seq<Step>)
    requires Run(c, ws, steps) && w == Delivery.Send(c, ws[|steps|], id, TELEGRAM, env).0
    ensures Run(c, ws', steps') && ws'[|steps'|] == w
  {
    var s := Attempt(id, TELEGRAM, env, Delivery.Send(c, ws[|steps|], id, TELEGRAM, env).1);
    ws', steps' := ws + [w], steps + [s];
    RunSnoc(c, ws, steps, s, w);
  }
}

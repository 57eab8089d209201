/** One attempt to send one notification, as the transaction worker.py commits. */
module Delivery {
  import opened Prelude
  import opened Guards
  import opened State

  datatype Reply = Delivered(id: string) | RuntimeError(message: string) | OtherError(message: string)

  /** What an attempt finds outside the tables: configuration, the contact, the texts derived from the
   *  incident and the rule, and how the provider answers. */
  datatype Attempt = Attempt(
    voiceConfigured: bool, telegramToken: bool, resendConfigured: bool,
    hasPhone: bool, hasEmail: bool,
    digest: string, dedupeWindow: nat, service: string,
    reply: Reply)

  datatype Outcome =
    | Sent | AlreadyTerminal | SkippedCircuit | SkippedRateLimit
    | SuppressedDuplicate | SuppressedRateLimit | SendFailed | Raised(error: string)

  const NOT_FOUND := "notification not found"

  function MarkSent(c: Config, w: World, id: nat, ch: Channel, provider: Option<string>): (World, Outcome)
    requires id < |w.notes|
  {
    if Terminal(w.notes[id].status) then (w, AlreadyTerminal)
    else
      var row := w.notes[id].(status := SENT, providerId := provider);
      var w1 := w.(notes := w.notes[id := row], audits := w.audits + [NotificationSent(id, false)]);
      (Guard(c, w1, Success(ch)).0, Sent)
  }

  function MarkFailed(c: Config, w: World, id: nat, ch: Channel, error: string): World
    requires id < |w.notes|
  {
    if Terminal(w.notes[id].status) then w
    else
      var row := w.notes[id].(status := FAILED, error := Some(error));
      var w1 := Guard(c, w.(notes := w.notes[id := row]), Failure(ch)).0;
      w1.(audits := w1.audits + [NotificationFailed(Some(id), Some(w.notes[id].incident))])
  }

  function MarkSuppressed(w: World, id: nat, reason: string): World
    requires id < |w.notes|
  {
    if Terminal(w.notes[id].status) then w
    else
      var row := w.notes[id].(status := DELIVERED, providerId := Some("suppressed:" + reason));
      w.(notes := w.notes[id := row], audits := w.audits + [NotificationSent(id, true)])
  }

  function CallProvider(w: World, id: nat, ch: Channel, a: Attempt): World {
    w.(calls := w.calls + [Call(id, ch, w.now, a.reply.Delivered?, a.service, a.digest, |w.log|)])
  }

  function SendVoice(c: Config, w: World, id: nat, a: Attempt): (World, Outcome)
    requires id < |w.notes|
  {
    if !a.voiceConfigured then MarkSent(c, w, id, VOICE, None)
    else if !a.hasPhone then (w, Raised("Contact phone is not available for voice dispatch"))
    else
      var called := CallProvider(w, id, VOICE, a);
      match a.reply
      case Delivered(pid) => MarkSent(c, called, id, VOICE, Some(pid))
      case _ => (called, Raised(a.reply.message))
  }

  function SendTelegram(c: Config, w: World, id: nat, a: Attempt): (World, Outcome)
    requires id < |w.notes|
  {
    if !a.telegramToken then
      (MarkFailed(c, w, id, TELEGRAM, "Telegram bot token is not configured"), SendFailed)
    else
      var (w1, fresh1) := Guard(c, w, Acquire(TelegramGate(a.digest), Max(1, a.dedupeWindow) * SECOND));
      if !fresh1 then (MarkSuppressed(w1, id, "dedupe_window"), SuppressedDuplicate)
      else
        var (w2, admitted) := Guard(c, w1, ServiceHit(a.service));
        if !admitted then (MarkSuppressed(w2, id, "service_rate_limit"), SuppressedRateLimit)
        else
          var called := CallProvider(w2, id, TELEGRAM, a);
          match a.reply
          case Delivered(pid) => MarkSent(c, called, id, TELEGRAM, Some(pid))
          case _ => (called, Raised(a.reply.message))
  }

  function SendEmail(c: Config, w: World, id: nat, a: Attempt): (World, Outcome)
    requires id < |w.notes|
  {
    if !a.hasEmail then
      (MarkFailed(c, w, id, EMAIL, "Contact email is not available for email dispatch"), SendFailed)
    else if !a.resendConfigured then
      (MarkFailed(c, w, id, EMAIL, "Resend is not configured (missing RESEND_API_KEY)"), SendFailed)
    else
      var called := CallProvider(w, id, EMAIL, a);
      match a.reply
      case Delivered(pid) => MarkSent(c, called, id, EMAIL, Some(pid))
      case RuntimeError(error) => (MarkFailed(c, called, id, EMAIL, error), SendFailed)
      case OtherError(error) => (called, Raised(error))
  }

  function RateLimited(w: World, id: nat): World
    requires id < |w.notes|
  {
    w.(audits := w.audits + [NotificationFailed(Some(id), Some(w.notes[id].incident))])
  }

  function SendVia(c: Config, w: World, id: nat, ch: Channel, a: Attempt): (World, Outcome)
    requires id < |w.notes| && Guarded(ch)
  {
    if ch == VOICE then SendVoice(c, w, id, a)
    else if ch == TELEGRAM then SendTelegram(c, w, id, a)
    else SendEmail(c, w, id, a)
  }

  /** Terminal check, circuit breaker, channel rate limit, then the channel's own guards and provider. */
  function Send(c: Config, w: World, id: nat, ch: Channel, a: Attempt): (World, Outcome) {
    if |w.notes| <= id then (w, Raised(NOT_FOUND))
    else if Terminal(w.notes[id].status) then (w, AlreadyTerminal)
    else if !Guarded(ch) then MarkSent(c, w, id, ch, None)
    else
      var (w1, closed) := Guard(c, w, CircuitCheck(ch));
      if !closed then (w1, SkippedCircuit)
      else
        var (w2, admitted) := Guard(c, w1, ChannelHit(ch));
        if !admitted then
          (RateLimited(w2, id), SkippedRateLimit)
        else SendVia(c, w2, id, ch, a)
  }

  /** The row of a task that failed for good, unless it is terminal; the failure counts for its channel. */
  function FailRow(c: Config, w: World, id: nat, error: string): World
    requires id < |w.notes|
  {
    var row := w.notes[id];
    if Terminal(row.status) then w
    else
      var w1 := w.(notes := w.notes[id := row.(status := FAILED, error := Some(error))]);
      if Guarded(row.channel) then Guard(c, w1, Failure(row.channel)).0 else w1
  }

  /** What the database learns when a task has failed for good. */
  function RecordFinalFailure(c: Config, w: World, note: Option<nat>, incident: Option<nat>, error: string): World {
    if note.Some? && note.value < |w.notes| then
      var w1 := FailRow(c, w, note.value, error);
      var about := if incident.Some? then incident else Some(w.notes[note.value].incident);
      w1.(audits := w1.audits + [NotificationFailed(note, about)])
    else w.(audits := w.audits + [NotificationFailed(note, incident)])
  }

  // ---------------------------------------------------------------- what an attempt does

  /** Everything but one notification row, the audit trail, the calls and the Redis history is untouched. */
  predicate OnlyDelivery(w: World, w': World) {
    w' == w.(notes := w'.notes, audits := w'.audits, calls := w'.calls, log := w'.log)
  }

  /** Row id takes the status; every other row, and what the row is about, stays. */
  predicate RowBecomes(w: World, w': World, id: nat, status: NotificationStatus)
    requires id < |w.notes|
  {
    |w'.notes| == |w.notes| &&
    var r, r' := w.notes[id], w'.notes[id];
    w'.notes == w.notes[id := r'] && r' == r.(status := status, providerId := r'.providerId, error := r'.error)
  }

  /** The attempt called no provider, or called one for this row with this result. */
  predicate CalledAtMostOnce(w: World, w': World, id: nat, ok: bool) {
    w'.calls == w.calls ||
    (|w'.calls| == |w.calls| + 1 && var k := w'.calls[|w.calls|];
     w'.calls == w.calls + [k] && k.note == id && k.ok == ok)
  }

  /** What the outcome of an attempt says about the rows, the audit trail and the calls. */
  predicate Accounts(w: World, w': World, id: nat, o: Outcome) {
    OnlyDelivery(w, w') &&
    if |w.notes| <= id then w' == w && o == Raised(NOT_FOUND)
    else
      var failed := NotificationFailed(Some(id), Some(w.notes[id].incident));
      match o
      case AlreadyTerminal => w' == w && Terminal(w.notes[id].status)
      case _ =>
        !Terminal(w.notes[id].status) &&
        match o
        case AlreadyTerminal => false
        case Sent => RowBecomes(w, w', id, SENT) && w'.audits == w.audits + [NotificationSent(id, false)] &&
                     CalledAtMostOnce(w, w', id, true)
        case SuppressedDuplicate => RowBecomes(w, w', id, DELIVERED) &&
                     w'.audits == w.audits + [NotificationSent(id, true)] && w'.calls == w.calls
        case SuppressedRateLimit => RowBecomes(w, w', id, DELIVERED) &&
                     w'.audits == w.audits + [NotificationSent(id, true)] && w'.calls == w.calls
        case SendFailed => RowBecomes(w, w', id, FAILED) && w'.audits == w.audits + [failed] &&
                     CalledAtMostOnce(w, w', id, false)
        case SkippedCircuit => w' == w.(log := w'.log)
        case SkippedRateLimit => w'.notes == w.notes && w'.audits == w.audits + [failed] && w'.calls == w.calls
        case Raised(_) => w'.notes == w.notes && w'.audits == w.audits && CalledAtMostOnce(w, w', id, false)
  }

  predicate Pending(w: World, id: nat) {
    id < |w.notes| && !Terminal(w.notes[id].status)
  }

  lemma VoiceAccounts(c: Config, w: World, id: nat, a: Attempt)
    requires Pending(w, id)
    ensures var (w', o) := SendVoice(c, w, id, a); Accounts(w, w', id, o)
  {
  }

  lemma TelegramAccounts(c: Config, w: World, id: nat, a: Attempt)
    requires Pending(w, id)
    ensures var (w', o) := SendTelegram(c, w, id, a); Accounts(w, w', id, o)
  {
  }

  lemma EmailAccounts(c: Config, w: World, id: nat, a: Attempt)
    requires Pending(w, id)
    ensures var (w', o) := SendEmail(c, w, id, a); Accounts(w, w', id, o)
  {
  }

  lemma ViaAccounts(c: Config, w: World, id: nat, ch: Channel, a: Attempt)
    requires Pending(w, id) && Guarded(ch)
    ensures var (w', o) := SendVia(c, w, id, ch, a); Accounts(w, w', id, o) && !o.AlreadyTerminal?
  {
    VoiceAccounts(c, w, id, a);
    TelegramAccounts(c, w, id, a);
    EmailAccounts(c, w, id, a);
  }

  lemma AccountsFrom(w: World, w2: World, w': World, id: nat, o: Outcome)
    requires Pending(w, id) && w2 == w.(log := w2.log) && Accounts(w2, w', id, o)
    ensures Accounts(w, w', id, o)
  {
  }

  lemma SendAccounts(c: Config, w: World, id: nat, ch: Channel, a: Attempt)
    ensures var (w', o) := Send(c, w, id, ch, a); Accounts(w, w', id, o)
  {
    if Pending(w, id) && Guarded(ch) {
      var (w1, closed) := Guard(c, w, CircuitCheck(ch));
      var (w2, admitted) := Guard(c, w1, ChannelHit(ch));
      if closed && admitted {
        var (w', o) := SendVia(c, w2, id, ch, a);
        ViaAccounts(c, w2, id, ch, a);
        AccountsFrom(w, w2, w', id, o);
      }
    }
  }

  /** An attempt on a terminal notification calls nobody and changes nothing; any other attempt on an
   *  existing row reports something else. */
  lemma TerminalAttemptIsInert(c: Config, w: World, id: nat, ch: Channel, a: Attempt)
    requires id < |w.notes|
    ensures var s := w.notes[id].status;
            s == SENT || s == DELIVERED || s == ANSWERED_VOICE <==> Send(c, w, id, ch, a) == (w, AlreadyTerminal)
    ensures Terminal(w.notes[id].status) <==> Send(c, w, id, ch, a) == (w, AlreadyTerminal)
  {
    SendAccounts(c, w, id, ch, a);
  }

  /** The channel's circuit was opened less than CB_OPEN_SECONDS ago. */
  predicate CircuitIsOpen(c: Config, w: World, ch: Channel) {
    var last := LastOpening(w.log, ch);
    last.Some? && w.now < last.value + c.cbOpenSeconds * SECOND
  }

  /** The current bucket has seen as many attempts on the channel as the limit allows. */
  predicate BucketIsFull(c: Config, w: World, ch: Channel) {
    c.rateLimit <= Count(w.log, HitsIn(c, ch, Bucket(c, w.now)))
  }

  lemma ViaNeverSkips(c: Config, w: World, id: nat, ch: Channel, a: Attempt)
    requires Pending(w, id) && Guarded(ch)
    ensures var o := SendVia(c, w, id, ch, a).1; !o.SkippedCircuit? && !o.SkippedRateLimit?
  {
  }

  /** Which attempts are skipped, and for which reason, told from the history alone. */
  lemma SkipsAreDecided(c: Config, w: World, id: nat, ch: Channel, a: Attempt)
    requires Timed(c, w)
    ensures var o := Send(c, w, id, ch, a).1; var tried := Pending(w, id) && Guarded(ch);
            && (o.SkippedCircuit? <==> tried && CircuitIsOpen(c, w, ch))
            && (o.SkippedRateLimit? <==> tried && !CircuitIsOpen(c, w, ch) && BucketIsFull(c, w, ch))
  {
    var (w1, closed) := Guard(c, w, CircuitCheck(ch));
    GuardKeepsTime(c, w, CircuitCheck(ch));
    CircuitRefinesHistory(c, w.log, w.now, ch);
    ChannelAdmitsIffRoom(c, w1.log, w1.now, ch);
    CountSnoc(w.log, Event(w.now, CircuitCheck(ch), closed), HitsIn(c, ch, Bucket(c, w.now)));
    if Pending(w, id) && Guarded(ch) {
      ViaNeverSkips(c, Guard(c, w1, ChannelHit(ch)).0, id, ch, a);
    }
  }

  // ---------------------------------------------------------------- what a send that gets through does

  /** The attempt was neither skipped by a guard nor suppressed. */
  predicate GotThrough(o: Outcome) {
    !o.SkippedCircuit? && !o.SkippedRateLimit? && !o.SuppressedDuplicate? && !o.SuppressedRateLimit?
  }

  /** The channel is configured, and the contact can be reached on it. */
  predicate CanCall(ch: Channel, a: Attempt) {
    match ch
    case VOICE => a.voiceConfigured && a.hasPhone
    case TELEGRAM => a.telegramToken
    case EMAIL => a.hasEmail && a.resendConfigured
    case _ => false
  }

  predicate BecomesSent(w: World, w': World, id: nat, provider: Option<string>)
    requires id < |w.notes|
  {
    w'.notes == w.notes[id := w.notes[id].(status := SENT, providerId := provider)]
  }

  predicate BecomesFailed(w: World, w': World, id: nat, text: string)
    requires id < |w.notes|
  {
    w'.notes == w.notes[id := w.notes[id].(status := FAILED, error := Some(text))]
  }

  /** The provider was called once for the row, and its reply decides. */
  predicate ReplyDecides(w: World, w': World, id: nat, ch: Channel, a: Attempt, o: Outcome)
    requires id < |w.notes|
  {
    && |w'.calls| == |w.calls| + 1 && w.calls <= w'.calls
    && (var k := w'.calls[|w.calls|];
        k.note == id && k.channel == ch && k.t == w.now && k.ok == a.reply.Delivered?)
    && match a.reply
       case Delivered(pid) => o == Sent && BecomesSent(w, w', id, Some(pid))
       case RuntimeError(text) =>
         if ch == EMAIL then o == SendFailed && BecomesFailed(w, w', id, text)
         else o == Raised(text) && w'.notes == w.notes
       case OtherError(text) => o == Raised(text) && w'.notes == w.notes
  }

  /** Nobody was called, and what is missing decides. A channel without a provider counts as sent. */
  predicate LackDecides(w: World, w': World, id: nat, ch: Channel, a: Attempt, o: Outcome)
    requires id < |w.notes|
  {
    w'.calls == w.calls &&
    match ch
    case VOICE =>
      if a.voiceConfigured then o == Raised("Contact phone is not available for voice dispatch") && w'.notes == w.notes
      else o == Sent && BecomesSent(w, w', id, None)
    case TELEGRAM => o == SendFailed && BecomesFailed(w, w', id, "Telegram bot token is not configured")
    case EMAIL =>
      o == SendFailed &&
      BecomesFailed(w, w', id, if a.hasEmail then "Resend is not configured (missing RESEND_API_KEY)"
                               else "Contact email is not available for email dispatch")
    case _ => o == Sent && BecomesSent(w, w', id, None)
  }

  predicate Decides(w: World, w': World, id: nat, ch: Channel, a: Attempt, o: Outcome)
    requires id < |w.notes|
  {
    if CanCall(ch, a) then ReplyDecides(w, w', id, ch, a, o) else LackDecides(w, w', id, ch, a, o)
  }

  /** A suppressed row is DELIVERED, and says why. */
  predicate SaysWhy(w: World, w': World, id: nat, reason: string)
    requires id < |w.notes|
  {
    w'.notes == w.notes[id := w.notes[id].(status := DELIVERED, providerId := Some("suppressed:" + reason))]
  }

  lemma VoiceDecides(c: Config, w: World, id: nat, a: Attempt)
    requires Pending(w, id)
    ensures var (w', o) := SendVoice(c, w, id, a); GotThrough(o) && Decides(w, w', id, VOICE, a, o)
  {
  }

  lemma EmailDecides(c: Config, w: World, id: nat, a: Attempt)
    requires Pending(w, id)
    ensures var (w', o) := SendEmail(c, w, id, a); GotThrough(o) && Decides(w, w', id, EMAIL, a, o)
  {
  }

  lemma TelegramDecides(c: Config, w: World, id: nat, a: Attempt)
    requires Pending(w, id)
    ensures var (w', o) := SendTelegram(c, w, id, a);
            && (GotThrough(o) ==> Decides(w, w', id, TELEGRAM, a, o))
            && (o.SuppressedDuplicate? ==> SaysWhy(w, w', id, "dedupe_window"))
            && (o.SuppressedRateLimit? ==> SaysWhy(w, w', id, "service_rate_limit"))
  {
  }

  lemma ViaDecides(c: Config, w: World, id: nat, ch: Channel, a: Attempt)
    requires Pending(w, id) && Guarded(ch)
    ensures var (w', o) := SendVia(c, w, id, ch, a);
            && (GotThrough(o) ==> Decides(w, w', id, ch, a, o))
            && (o.SuppressedDuplicate? ==> SaysWhy(w, w', id, "dedupe_window"))
            && (o.SuppressedRateLimit? ==> SaysWhy(w, w', id, "service_rate_limit"))
  {
    VoiceDecides(c, w, id, a);
    EmailDecides(c, w, id, a);
    TelegramDecides(c, w, id, a);
  }

  /** An attempt on a row that is not terminal, on any channel, which is neither skipped nor suppressed: it
   *  calls the provider exactly when the channel's configuration and the contact allow it; then the reply
   *  decides the outcome and the row, else what is missing does. */
  lemma SendDecides(c: Config, w: World, id: nat, ch: Channel, a: Attempt)
    requires Pending(w, id)
    ensures var (w', o) := Send(c, w, id, ch, a);
            && (GotThrough(o) ==>
                  && (w'.calls != w.calls <==> CanCall(ch, a))
                  && (CanCall(ch, a) ==> ReplyDecides(w, w', id, ch, a, o))
                  && (!CanCall(ch, a) ==> LackDecides(w, w', id, ch, a, o)))
            && (o.SuppressedDuplicate? ==> SaysWhy(w, w', id, "dedupe_window"))
            && (o.SuppressedRateLimit? ==> SaysWhy(w, w', id, "service_rate_limit"))
  {
    if Guarded(ch) {
      var (w1, closed) := Guard(c, w, CircuitCheck(ch));
      var (w2, admitted) := Guard(c, w1, ChannelHit(ch));
      if closed && admitted {
        ViaDecides(c, w2, id, ch, a);
      }
    }
  }

  /** What a final failure writes: one FAILED audit about the incident given, or else the row's; and the row,
   *  unless it is terminal, with the error. */
  lemma FinalFailureWrites(c: Config, w: World, note: Option<nat>, incident: Option<nat>, error: string)
    ensures var w' := RecordFinalFailure(c, w, note, incident, error);
            && OnlyDelivery(w, w') && w'.calls == w.calls
            && if note.Some? && note.value < |w.notes| then
                 var row := w.notes[note.value];
                 && w'.audits == w.audits + [NotificationFailed(note, Some(incident.GetOr(row.incident)))]
                 && (if row.status == SENT || row.status == DELIVERED || row.status == ANSWERED_VOICE
                     then w'.notes == w.notes else BecomesFailed(w, w', note.value, error))
               else w'.audits == w.audits + [NotificationFailed(note, incident)] && w'.notes == w.notes
  {
  }

  // ---------------------------------------------------------------- at most once

  function SentAudit(id: nat): Audit -> bool {
    (a: Audit) => a.NotificationSent? && a.note == id
  }

  function OkCall(id: nat): Call -> bool {
    (k: Call) => k.note == id && k.ok
  }

  /** A notification's history agrees with its status. */
  ghost predicate NoteKept(w: World, id: nat) {
    var audits, calls := Count(w.audits, SentAudit(id)), Count(w.calls, OkCall(id));
    && calls <= audits <= 1
    && (if id < |w.notes| then
          var s := w.notes[id].status;
          && (s == SENT || s == DELIVERED ==> audits == 1)
          && (s == DELIVERED ==> calls == 0)
          && (!Terminal(s) ==> audits == 0)
        else audits == 0)
  }

  lemma AccountsKeepNote(w: World, w': World, id: nat, o: Outcome, j: nat)
    requires Accounts(w, w', id, o) && NoteKept(w, j)
    ensures NoteKept(w', j)
  {
    if |w'.calls| == |w.calls| + 1 {
      CountSnoc(w.calls, w'.calls[|w.calls|], OkCall(j));
    }
    if |w'.audits| == |w.audits| + 1 {
      CountSnoc(w.audits, w'.audits[|w.audits|], SentAudit(j));
    }
  }

  lemma FailRowKeepsNote(c: Config, w: World, id: nat, error: string, j: nat)
    requires NoteKept(w, j)
    ensures id < |w.notes| ==> NoteKept(FailRow(c, w, id, error), j)
  {
  }

  lemma FinalFailureKeepsNote(c: Config, w: World, note: Option<nat>, incident: Option<nat>, error: string, j: nat)
    requires NoteKept(w, j)
    ensures NoteKept(RecordFinalFailure(c, w, note, incident, error), j)
  {
    FailRowKeepsNote(c, w, note.GetOr(j), error, j);
    var w1 := if note.Some? && note.value < |w.notes| then FailRow(c, w, note.value, error) else w;
    var w' := RecordFinalFailure(c, w, note, incident, error);
    var last := w'.audits[|w.audits|];
    assert w'.audits == w1.audits + [last] && !last.NotificationSent?;
    CountSnoc(w1.audits, last, SentAudit(j));
  }

  lemma FinalFailureKeepsTime(c: Config, w: World, note: Option<nat>, incident: Option<nat>, error: string)
    requires Timed(c, w)
    ensures var w' := RecordFinalFailure(c, w, note, incident, error); Timed(c, w') && w.log <= w'.log
  {
    if note.Some? && note.value < |w.notes| {
      GuardKeepsTime(c, w, Failure(w.notes[note.value].channel));
    }
  }

  // ---------------------------------------------------------------- calls are paid for by guards

  function CallOn(ch: Channel, from: nat, to: int): Call -> bool {
    (k: Call) => k.channel == ch && from <= k.t < to
  }

  function TelegramFor(service: string, from: nat, to: int): Call -> bool {
    (k: Call) => k.channel == TELEGRAM && k.service == service && from <= k.t < to
  }

  function TelegramOf(digest: string, from: nat, to: int): Call -> bool {
    (k: Call) => k.channel == TELEGRAM && k.digest == digest && from <= k.t < to
  }

  /** Every provider call of an interval has its own admission in the Redis history. */
  ghost predicate CallsPaid(w: World, ch: Channel, service: string, digest: string, from: nat, to: int) {
    && (Guarded(ch) ==> Count(w.calls, CallOn(ch, from, to)) <= Count(w.log, AdmittedBetween(ch, from, to)))
    && Count(w.calls, TelegramFor(service, from, to)) <= Count(w.log, ServicePass(service, from, to))
    && Count(w.calls, TelegramOf(digest, from, to)) <= Count(w.log, PassesBetween(TelegramGate(digest), from, to))
  }

  /** When it was made, the channel's circuit had been closed for CB_OPEN_SECONDS or never opened. */
  ghost predicate CallWhileClosed(c: Config, log: seq<Event>, k: Call) {
    k.mark <= |log| &&
    match LastOpening(log[..k.mark], k.channel)
    case None => true
    case Some(o) => o + c.cbOpenSeconds * SECOND <= k.t
  }

  function CommonGuards(now: nat, ch: Channel): seq<Event> {
    [Event(now, CircuitCheck(ch), true), Event(now, ChannelHit(ch), true)]
  }

  function OwnGuards(now: nat, ch: Channel, a: Attempt): seq<Event> {
    if ch == TELEGRAM then
      [Event(now, Acquire(TelegramGate(a.digest), Max(1, a.dedupeWindow) * SECOND), true),
       Event(now, ServiceHit(a.service), true)]
    else []
  }

  /** The guards a call must have passed, in order: the channel's own, after the two common ones. */
  function AllGuards(now: nat, ch: Channel, a: Attempt): seq<Event> {
    CommonGuards(now, ch) + OwnGuards(now, ch, a)
  }

  /** Any call made between w and w' came right after the guards passed, at the time of w. */
  ghost predicate CallsAfter(w: World, w': World, id: nat, ch: Channel, a: Attempt, passed: seq<Event>) {
    w.log <= w'.log &&
    (w'.calls == w.calls ||
     (w.log + passed <= w'.log &&
      w'.calls == w.calls + [Call(id, ch, w.now, a.reply.Delivered?, a.service, a.digest, |w.log| + |passed|)]))
  }

  lemma MarksKeepTime(c: Config, w: World, id: nat, ch: Channel, p: Option<string>, text: string)
    requires Timed(c, w) && Pending(w, id)
    ensures var s, f := MarkSent(c, w, id, ch, p).0, MarkFailed(c, w, id, ch, text);
            Timed(c, s) && w.log <= s.log && Timed(c, f) && w.log <= f.log
  {
    GuardKeepsTime(c, w, Success(ch));
    GuardKeepsTime(c, w, Failure(ch));
  }

  lemma CalledIsGuarded(c: Config, w: World, id: nat, ch: Channel, a: Attempt)
    requires Timed(c, w) && Pending(w, id)
    ensures var called := CallProvider(w, id, ch, a);
            && Timed(c, called)
            && (a.reply.Delivered? ==>
                  var s := MarkSent(c, called, id, ch, Some(a.reply.id)).0;
                  Timed(c, s) && CallsAfter(w, s, id, ch, a, []))
            && (!a.reply.Delivered? ==>
                  var f := MarkFailed(c, called, id, ch, a.reply.message);
                  CallsAfter(w, called, id, ch, a, []) && Timed(c, f) && CallsAfter(w, f, id, ch, a, []))
  {
    MarksKeepTime(c, CallProvider(w, id, ch, a), id, ch, None, "");
  }

  lemma CallsAfterMore(w: World, w2: World, w': World, id: nat, ch: Channel, a: Attempt, g1: seq<Event>, g2: seq<Event>)
    requires w2.log == w.log + g1 && w2.now == w.now && w2.calls == w.calls
    requires CallsAfter(w2, w', id, ch, a, g2)
    ensures CallsAfter(w, w', id, ch, a, g1 + g2)
  {
    Associates(w.log, g1, g2);
  }

  lemma CalledAfterOwn(c: Config, w: World, w2: World, id: nat, a: Attempt)
    requires Timed(c, w2) && Pending(w2, id) && w2.now == w.now && w2.calls == w.calls
    requires w2.log == w.log + OwnGuards(w.now, TELEGRAM, a)
    ensures var called := CallProvider(w2, id, TELEGRAM, a);
            var w' := if a.reply.Delivered? then MarkSent(c, called, id, TELEGRAM, Some(a.reply.id)).0 else called;
            Timed(c, w') && CallsAfter(w, w', id, TELEGRAM, a, OwnGuards(w.now, TELEGRAM, a))
  {
    var own, called := OwnGuards(w.now, TELEGRAM, a), CallProvider(w2, id, TELEGRAM, a);
    var w' := if a.reply.Delivered? then MarkSent(c, called, id, TELEGRAM, Some(a.reply.id)).0 else called;
    CalledIsGuarded(c, w2, id, TELEGRAM, a);
    CallsAfterMore(w, w2, w', id, TELEGRAM, a, own, []);
    assert own + [] == own;
  }

  lemma TelegramCalls(c: Config, w: World, id: nat, a: Attempt)
    requires Timed(c, w) && Pending(w, id) && a.telegramToken
    ensures var w' := SendTelegram(c, w, id, a).0;
            Timed(c, w') && CallsAfter(w, w', id, TELEGRAM, a, OwnGuards(w.now, TELEGRAM, a))
  {
    var op1, op2 := Acquire(TelegramGate(a.digest), Max(1, a.dedupeWindow) * SECOND), ServiceHit(a.service);
    var (w1, acquired) := Guard(c, w, op1);
    var (w2, admitted) := Guard(c, w1, op2);
    GuardKeepsTime(c, w, op1);
    GuardKeepsTime(c, w1, op2);
    if acquired && admitted {
      assert OwnGuards(w.now, TELEGRAM, a) == [Event(w.now, op1, true)] + [Event(w.now, op2, true)];
      Associates(w.log, [Event(w.now, op1, true)], [Event(w.now, op2, true)]);
      CalledAfterOwn(c, w, w2, id, a);
    }
  }

  lemma TelegramIsGuarded(c: Config, w: World, id: nat, a: Attempt)
    requires Timed(c, w) && Pending(w, id)
    ensures var w' := SendTelegram(c, w, id, a).0;
            Timed(c, w') && CallsAfter(w, w', id, TELEGRAM, a, OwnGuards(w.now, TELEGRAM, a))
  {
    if a.telegramToken {
      TelegramCalls(c, w, id, a);
    } else {
      MarksKeepTime(c, w, id, TELEGRAM, None, "Telegram bot token is not configured");
    }
  }

  lemma VoiceIsGuarded(c: Config, w: World, id: nat, a: Attempt)
    requires Timed(c, w) && Pending(w, id)
    ensures var w' := SendVoice(c, w, id, a).0; Timed(c, w') && CallsAfter(w, w', id, VOICE, a, [])
  {
    if a.voiceConfigured {
      CalledIsGuarded(c, w, id, VOICE, a);
    } else {
      MarksKeepTime(c, w, id, VOICE, None, "");
    }
  }

  lemma EmailIsGuarded(c: Config, w: World, id: nat, a: Attempt)
    requires Timed(c, w) && Pending(w, id)
    ensures var w' := SendEmail(c, w, id, a).0; Timed(c, w') && CallsAfter(w, w', id, EMAIL, a, [])
  {
    if !a.hasEmail {
      MarksKeepTime(c, w, id, EMAIL, None, "Contact email is not available for email dispatch");
    } else if !a.resendConfigured {
      MarksKeepTime(c, w, id, EMAIL, None, "Resend is not configured (missing RESEND_API_KEY)");
    } else {
      CalledIsGuarded(c, w, id, EMAIL, a);
    }
  }

  lemma ViaIsGuarded(c: Config, w: World, id: nat, ch: Channel, a: Attempt)
    requires Timed(c, w) && Pending(w, id) && Guarded(ch)
    ensures var w' := SendVia(c, w, id, ch, a).0;
            Timed(c, w') && CallsAfter(w, w', id, ch, a, OwnGuards(w.now, ch, a))
  {
    VoiceIsGuarded(c, w, id, a);
    TelegramIsGuarded(c, w, id, a);
    EmailIsGuarded(c, w, id, a);
  }

  lemma GuardedVia(c: Config, w: World, w2: World, id: nat, ch: Channel, a: Attempt)
    requires Timed(c, w2) && Pending(w2, id) && Guarded(ch) && w2.now == w.now && w2.calls == w.calls
    requires w2.log == w.log + [Event(w.now, CircuitCheck(ch), true)] + [Event(w.now, ChannelHit(ch), true)]
    ensures var w' := SendVia(c, w2, id, ch, a).0;
            Timed(c, w') && CallsAfter(w, w', id, ch, a, AllGuards(w.now, ch, a))
  {
    var common := CommonGuards(w.now, ch);
    assert w2.log == w.log + common;
    ViaIsGuarded(c, w2, id, ch, a);
    CallsAfterMore(w, w2, SendVia(c, w2, id, ch, a).0, id, ch, a, common, OwnGuards(w.now, ch, a));
  }

  /** Whatever an attempt does, the Redis history stays legal, and it calls a provider only after the
   *  circuit check, the channel limit and, on Telegram, the dedupe gate and the service limit. */
  lemma SendIsGuarded(c: Config, w: World, id: nat, ch: Channel, a: Attempt)
    requires Timed(c, w)
    ensures var w' := Send(c, w, id, ch, a).0;
            Timed(c, w') && CallsAfter(w, w', id, ch, a, AllGuards(w.now, ch, a))
    ensures Send(c, w, id, ch, a).0.calls != w.calls ==> Guarded(ch) && Verdict(c, w.log, w.now, CircuitCheck(ch))
  {
    if Pending(w, id) && Guarded(ch) {
      var (w1, closed) := Guard(c, w, CircuitCheck(ch));
      GuardKeepsTime(c, w, CircuitCheck(ch));
      var (w2, admitted) := Guard(c, w1, ChannelHit(ch));
      GuardKeepsTime(c, w1, ChannelHit(ch));
      if closed && admitted {
        GuardedVia(c, w, w2, id, ch, a);
      }
    } else if Pending(w, id) {
      MarksKeepTime(c, w, id, ch, None, "");
    }
  }

  lemma GuardsPay(w: World, ch: Channel, a: Attempt, service: string, digest: string, from: nat, to: int)
    ensures var g := AllGuards(w.now, ch, a);
            && (from <= w.now < to ==> Count(g, AdmittedBetween(ch, from, to)) >= 1)
            && (ch == TELEGRAM && a.service == service && from <= w.now < to ==>
                  Count(g, ServicePass(service, from, to)) >= 1)
            && (ch == TELEGRAM && a.digest == digest && from <= w.now < to ==>
                  Count(g, PassesBetween(TelegramGate(digest), from, to)) >= 1)
  {
    var common := CommonGuards(w.now, ch);
    var own := OwnGuards(w.now, ch, a);
    CountAppend(common, own, AdmittedBetween(ch, from, to));
    CountAppend(common, own, ServicePass(service, from, to));
    CountAppend(common, own, PassesBetween(TelegramGate(digest), from, to));
    CountAppend([common[0]], [common[1]], AdmittedBetween(ch, from, to));
    assert [common[0]] + [common[1]] == common;
    if ch == TELEGRAM {
      CountAppend([own[0]], [own[1]], ServicePass(service, from, to));
      CountAppend([own[0]], [own[1]], PassesBetween(TelegramGate(digest), from, to));
      assert [own[0]] + [own[1]] == own;
    }
  }

  lemma SendPays(c: Config, w: World, id: nat, ch: Channel, a: Attempt,
                 other: Channel, service: string, digest: string, from: nat, to: int)
    requires Timed(c, w) && CallsPaid(w, other, service, digest, from, to)
    ensures CallsPaid(Send(c, w, id, ch, a).0, other, service, digest, from, to)
  {
    var w' := Send(c, w, id, ch, a).0;
    SendIsGuarded(c, w, id, ch, a);
    var before := w.log;
    if w'.calls != w.calls {
      var g := AllGuards(w.now, ch, a);
      var k := w'.calls[|w.calls|];
      CountSnoc(w.calls, k, CallOn(other, from, to));
      CountSnoc(w.calls, k, TelegramFor(service, from, to));
      CountSnoc(w.calls, k, TelegramOf(digest, from, to));
      CountAppend(w.log, g, AdmittedBetween(other, from, to));
      CountAppend(w.log, g, ServicePass(service, from, to));
      CountAppend(w.log, g, PassesBetween(TelegramGate(digest), from, to));
      GuardsPay(w, ch, a, service, digest, from, to);
      before := w.log + g;
    }
    CountPrefix(before, w'.log, AdmittedBetween(other, from, to));
    CountPrefix(before, w'.log, ServicePass(service, from, to));
    CountPrefix(before, w'.log, PassesBetween(TelegramGate(digest), from, to));
  }

  lemma OpeningAfterTwo(log: seq<Event>, e: Event, f: Event, ch: Channel)
    requires !e.op.Failure? && !f.op.Failure?
    ensures LastOpening(log + [e, f], ch) == LastOpening(log, ch)
  {
    CircuitSnoc(log, e, ch);
    CircuitSnoc(log + [e], f, ch);
    assert log + [e] + [f] == log + [e, f];
  }

  lemma OpeningAfterGuards(log: seq<Event>, now: nat, ch: Channel, a: Attempt)
    ensures LastOpening(log + AllGuards(now, ch, a), ch) == LastOpening(log, ch)
  {
    var common, own := CommonGuards(now, ch), OwnGuards(now, ch, a);
    OpeningAfterTwo(log, common[0], common[1], ch);
    Associates(log, common, own);
    if ch == TELEGRAM {
      OpeningAfterTwo(log + common, own[0], own[1], ch);
    } else {
      assert log + common + own == log + common;
    }
  }

  /** A send that calls its provider found the circuit closed. */
  lemma SendCallsWhileClosed(c: Config, w: World, id: nat, ch: Channel, a: Attempt)
    requires Timed(c, w) && forall k | k in w.calls :: CallWhileClosed(c, w.log, k)
    ensures var w' := Send(c, w, id, ch, a).0; forall k | k in w'.calls :: CallWhileClosed(c, w'.log, k)
  {
    var w' := Send(c, w, id, ch, a).0;
    SendIsGuarded(c, w, id, ch, a);
    forall k | k in w.calls
      ensures CallWhileClosed(c, w'.log, k)
    {
      assert w'.log[..k.mark] == w.log[..k.mark];
    }
    if w'.calls != w.calls {
      var g := AllGuards(w.now, ch, a);
      var k := w'.calls[|w.calls|];
      assert w'.log[..k.mark] == w.log + g;
      OpeningAfterGuards(w.log, w.now, ch, a);
      CircuitRefinesHistory(c, w.log, w.now, ch);
    }
  }

  // ---------------------------------------------------------------- what an attempt teaches the breakers

  /** Channel x's breaker after an attempt on ch: a sent message clears the streak and leaves the opening
   *  alone, a failed one lengthens the streak or, when that completes it, opens the circuit now; any other
   *  outcome, and any other channel, leaves it as it was. */
  ghost predicate Settles(c: Config, log: seq<Event>, now: nat, log': seq<Event>, ch: Channel, x: Channel, o: Outcome) {
    var streak, opening := Streak(log', x), LastOpening(log', x);
    if x == ch && o.Sent? then
      streak == 0 && opening == LastOpening(log, x)
    else if x == ch && o.SendFailed? && Streak(log, x) + 1 >= c.cbThreshold then
      streak == 0 && opening == Some(now)
    else
      streak == Streak(log, x) + (if x == ch && o.SendFailed? then 1 else 0) && opening == LastOpening(log, x)
  }

  lemma GuardSettles(c: Config, w: World, op: Op, ch: Channel, x: Channel)
    requires Legal(c, w.log) && !(op.Success? && op.ch != ch) && !(op.Failure? && op.ch != ch)
    ensures Settles(c, w.log, w.now, Guard(c, w, op).0.log, ch, x,
                    if op.Success? then Sent else if op.Failure? then SendFailed else AlreadyTerminal)
  {
    CircuitSnoc(w.log, Event(w.now, op, Verdict(c, w.log, w.now, op)), x);
    CircuitRefinesHistory(c, w.log, w.now, x);
  }

  lemma MarksSettle(c: Config, w: World, id: nat, ch: Channel, p: Option<string>, text: string, x: Channel)
    requires Legal(c, w.log) && Pending(w, id)
    ensures Settles(c, w.log, w.now, MarkSent(c, w, id, ch, p).0.log, ch, x, Sent)
    ensures Settles(c, w.log, w.now, MarkFailed(c, w, id, ch, text).log, ch, x, SendFailed)
  {
    GuardSettles(c, w, Success(ch), ch, x);
    GuardSettles(c, w, Failure(ch), ch, x);
  }

  lemma TelegramSettles(c: Config, w: World, id: nat, a: Attempt, x: Channel)
    requires Timed(c, w) && Pending(w, id)
    ensures var (w', o) := SendTelegram(c, w, id, a); Settles(c, w.log, w.now, w'.log, TELEGRAM, x, o)
  {
    var op1, op2 := Acquire(TelegramGate(a.digest), Max(1, a.dedupeWindow) * SECOND), ServiceHit(a.service);
    var (w1, acquired) := Guard(c, w, op1);
    var (w2, admitted) := Guard(c, w1, op2);
    GuardKeepsTime(c, w, op1);
    GuardKeepsTime(c, w1, op2);
    GuardSettles(c, w, op1, TELEGRAM, x);
    GuardSettles(c, w1, op2, TELEGRAM, x);
    if !a.telegramToken {
      MarksSettle(c, w, id, TELEGRAM, None, "Telegram bot token is not configured", x);
    } else if acquired && admitted && a.reply.Delivered? {
      MarksSettle(c, CallProvider(w2, id, TELEGRAM, a), id, TELEGRAM, Some(a.reply.id), "", x);
    }
  }

  lemma VoiceSettles(c: Config, w: World, id: nat, a: Attempt, x: Channel)
    requires Timed(c, w) && Pending(w, id)
    ensures var (w', o) := SendVoice(c, w, id, a); Settles(c, w.log, w.now, w'.log, VOICE, x, o)
  {
    if !a.voiceConfigured {
      MarksSettle(c, w, id, VOICE, None, "", x);
    } else if a.hasPhone && a.reply.Delivered? {
      MarksSettle(c, CallProvider(w, id, VOICE, a), id, VOICE, Some(a.reply.id), "", x);
    }
  }

  lemma EmailSettles(c: Config, w: World, id: nat, a: Attempt, x: Channel)
    requires Timed(c, w) && Pending(w, id)
    ensures var (w', o) := SendEmail(c, w, id, a); Settles(c, w.log, w.now, w'.log, EMAIL, x, o)
  {
    if !a.hasEmail {
      MarksSettle(c, w, id, EMAIL, None, "Contact email is not available for email dispatch", x);
    } else if !a.resendConfigured {
      MarksSettle(c, w, id, EMAIL, None, "Resend is not configured (missing RESEND_API_KEY)", x);
    } else {
      var called := CallProvider(w, id, EMAIL, a);
      match a.reply
      case Delivered(pid) => MarksSettle(c, called, id, EMAIL, Some(pid), "", x);
      case RuntimeError(error) => MarksSettle(c, called, id, EMAIL, None, error, x);
      case OtherError(_) =>
    }
  }

  lemma ViaSettles(c: Config, w: World, id: nat, ch: Channel, a: Attempt, x: Channel)
    requires Timed(c, w) && Pending(w, id) && Guarded(ch)
    ensures var (w', o) := SendVia(c, w, id, ch, a); Settles(c, w.log, w.now, w'.log, ch, x, o)
  {
    if ch == VOICE {
      VoiceSettles(c, w, id, a, x);
    } else if ch == TELEGRAM {
      TelegramSettles(c, w, id, a, x);
    } else {
      EmailSettles(c, w, id, a, x);
    }
  }

  lemma ChecksTeachNothing(c: Config, w: World, ch: Channel, x: Channel)
    requires Timed(c, w)
    ensures var w1 := Guard(c, w, CircuitCheck(ch)).0;
            var w2 := Guard(c, w1, ChannelHit(ch)).0;
            && Streak(w1.log, x) == Streak(w2.log, x) == Streak(w.log, x)
            && LastOpening(w1.log, x) == LastOpening(w2.log, x) == LastOpening(w.log, x)
            && Timed(c, w2)
  {
    var w1 := Guard(c, w, CircuitCheck(ch)).0;
    GuardKeepsTime(c, w, CircuitCheck(ch));
    GuardKeepsTime(c, w1, ChannelHit(ch));
    GuardSettles(c, w, CircuitCheck(ch), ch, x);
    GuardSettles(c, w1, ChannelHit(ch), ch, x);
  }

  /** Every attempt, whatever its outcome: exactly the streaks and openings its outcome stands for. */
  lemma SendSettles(c: Config, w: World, id: nat, ch: Channel, a: Attempt, x: Channel)
    requires Timed(c, w)
    ensures var (w', o) := Send(c, w, id, ch, a); Settles(c, w.log, w.now, w'.log, ch, x, o)
  {
    if Pending(w, id) && Guarded(ch) {
      ChecksTeachNothing(c, w, ch, x);
      var (w1, closed) := Guard(c, w, CircuitCheck(ch));
      var (w2, admitted) := Guard(c, w1, ChannelHit(ch));
      if closed && admitted {
        ViaSettles(c, w2, id, ch, a, x);
      }
    } else if Pending(w, id) {
      MarksSettle(c, w, id, ch, None, "", x);
    }
  }

  /** A task that failed for good counts once more against its row's channel, unless the row is terminal. */
  lemma FinalFailureSettles(c: Config, w: World, id: nat, incident: Option<nat>, error: string, x: Channel)
    requires Timed(c, w) && id < |w.notes|
    ensures var row := w.notes[id];
            Settles(c, w.log, w.now, RecordFinalFailure(c, w, Some(id), incident, error).log, row.channel, x,
                    if Pending(w, id) && Guarded(row.channel) then SendFailed else AlreadyTerminal)
  {
    GuardSettles(c, w, Failure(w.notes[id].channel), w.notes[id].channel, x);
  }

  // ---------------------------------------------------------------- suppression

  /** The latest attempt that passed the gate of the text still covers the time. */
  predicate Covered(log: seq<Event>, t: nat, digest: string) {
    var last := LastPass(log, TelegramGate(digest));
    last.Some? && t < log[last.value].t + log[last.value].op.ttl
  }

  lemma GuardKeepsCover(c: Config, w: World, op: Op, digest: string)
    requires !op.Acquire?
    ensures Covered(Guard(c, w, op).0.log, w.now, digest) == Covered(w.log, w.now, digest)
  {
    var log := Guard(c, w, op).0.log;
    assert log[..|w.log|] == w.log;
    assert LastPass(log, TelegramGate(digest)) == LastPass(w.log, TelegramGate(digest));
  }

  lemma TelegramSuppressedIffCovered(c: Config, w: World, id: nat, a: Attempt)
    requires Timed(c, w) && Pending(w, id)
    ensures SendTelegram(c, w, id, a).1.SuppressedDuplicate? <==> a.telegramToken && Covered(w.log, w.now, a.digest)
  {
    GateRefusesIffCovered(c, w.log, w.now, TelegramGate(a.digest), Max(1, a.dedupeWindow) * SECOND);
  }

  /** Only an attempt on Telegram, on a row that is not terminal, is ever suppressed. */
  lemma OnlyTelegramSuppresses(c: Config, w: World, id: nat, ch: Channel, a: Attempt)
    ensures var o := Send(c, w, id, ch, a).1;
            o.SuppressedDuplicate? || o.SuppressedRateLimit? ==> ch == TELEGRAM && Pending(w, id)
  {
  }

  /** An attempt that gets past the circuit and the channel limit is suppressed as a duplicate exactly when
   *  an earlier attempt with its text holds the gate, whether or not that attempt reached anyone. */
  lemma SuppressedIffCovered(c: Config, w: World, id: nat, a: Attempt)
    requires Timed(c, w) && Pending(w, id)
    ensures var o := Send(c, w, id, TELEGRAM, a).1;
            o.SuppressedDuplicate? <==>
            !o.SkippedCircuit? && !o.SkippedRateLimit? && a.telegramToken && Covered(w.log, w.now, a.digest)
  {
    var (w1, closed) := Guard(c, w, CircuitCheck(TELEGRAM));
    var (w2, admitted) := Guard(c, w1, ChannelHit(TELEGRAM));
    GuardKeepsTime(c, w, CircuitCheck(TELEGRAM));
    GuardKeepsTime(c, w1, ChannelHit(TELEGRAM));
    GuardKeepsCover(c, w, CircuitCheck(TELEGRAM), a.digest);
    GuardKeepsCover(c, w1, ChannelHit(TELEGRAM), a.digest);
    TelegramSuppressedIffCovered(c, w2, id, a);
    SendAccounts(c, w2, id, TELEGRAM, a);
    NeverSkips(c, w2, id, a);
  }

  /** The service's running window has had its five hits. */
  predicate ServiceIsFull(w: World, service: string) {
    var start := WindowStart(w.log, service);
    start.Some? && w.now < start.value + SERVICE_WINDOW && SERVICE_LIMIT <= WindowHits(w.log, service)
  }

  lemma GuardKeepsWindow(c: Config, w: World, op: Op, service: string)
    requires !op.ServiceHit?
    ensures ServiceIsFull(Guard(c, w, op).0, service) == ServiceIsFull(w, service)
  {
    var log := Guard(c, w, op).0.log;
    assert log[..|w.log|] == w.log;
    assert WindowStart(log, service) == WindowStart(w.log, service);
  }

  lemma TelegramSuppressedIffFull(c: Config, w: World, id: nat, a: Attempt)
    requires Timed(c, w) && Pending(w, id)
    ensures SendTelegram(c, w, id, a).1.SuppressedRateLimit? <==>
            a.telegramToken && !Covered(w.log, w.now, a.digest) && ServiceIsFull(w, a.service)
  {
    var op := Acquire(TelegramGate(a.digest), Max(1, a.dedupeWindow) * SECOND);
    var w1 := Guard(c, w, op).0;
    GateRefusesIffCovered(c, w.log, w.now, TelegramGate(a.digest), Max(1, a.dedupeWindow) * SECOND);
    GuardKeepsTime(c, w, op);
    GuardKeepsWindow(c, w, op, a.service);
    ServiceAdmitsIffRoom(c, w1.log, w1.now, a.service);
  }

  /** An attempt that gets past the circuit, the channel limit and the dedupe gate is buffered for the
   *  digest exactly when its service's window is full. */
  lemma SuppressedIffFull(c: Config, w: World, id: nat, a: Attempt)
    requires Timed(c, w) && Pending(w, id)
    ensures var o := Send(c, w, id, TELEGRAM, a).1;
            o.SuppressedRateLimit? <==>
            !o.SkippedCircuit? && !o.SkippedRateLimit? && a.telegramToken &&
            !Covered(w.log, w.now, a.digest) && ServiceIsFull(w, a.service)
  {
    var (w1, closed) := Guard(c, w, CircuitCheck(TELEGRAM));
    var (w2, admitted) := Guard(c, w1, ChannelHit(TELEGRAM));
    GuardKeepsTime(c, w, CircuitCheck(TELEGRAM));
    GuardKeepsTime(c, w1, ChannelHit(TELEGRAM));
    GuardKeepsCover(c, w, CircuitCheck(TELEGRAM), a.digest);
    GuardKeepsCover(c, w1, ChannelHit(TELEGRAM), a.digest);
    GuardKeepsWindow(c, w, CircuitCheck(TELEGRAM), a.service);
    GuardKeepsWindow(c, w1, ChannelHit(TELEGRAM), a.service);
    TelegramSuppressedIffFull(c, w2, id, a);
    NeverSkips(c, w2, id, a);
  }

  lemma NeverSkips(c: Config, w: World, id: nat, a: Attempt)
    requires Pending(w, id)
    ensures var o := SendTelegram(c, w, id, a).1; !o.SkippedCircuit? && !o.SkippedRateLimit?
  {
  }

  /** Two attempts in a row on a fresh Redis whose provider fails: the first raises, the second finds the
   *  first one's key and marks the notification DELIVERED. */
  lemma RaisedThenSuppressed(c: Config, w: World, a: Attempt) returns (w1: World, w2: World)
    requires c.rateLimit >= 2 && |w.notes| == 1 && w.notes[0].status == PENDING
    requires w.log == [] && w.calls == [] && a.telegramToken && a.reply.OtherError?
    ensures w1 == Send(c, w, 0, TELEGRAM, a).0 && w2 == Send(c, w1, 0, TELEGRAM, a).0
    ensures Send(c, w, 0, TELEGRAM, a).1.Raised? && Send(c, w1, 0, TELEGRAM, a).1.SuppressedDuplicate?
    ensures |w2.notes| == 1 && w2.notes[0].status == DELIVERED && forall k | k in w2.calls :: !k.ok
  {
    w1 := FirstRaises(c, w, a);
    SecondGetsThrough(c, w1, a, w.now);
    SuppressedIffCovered(c, w1, 0, a);
    w2 := Send(c, w1, 0, TELEGRAM, a).0;
    SendAccounts(c, w1, 0, TELEGRAM, a);
  }

  function FirstKeys(c: Config, t: nat, a: Attempt): Keyspace {
    map[RateBucket(TELEGRAM, Bucket(c, t)) := Cell(1, Some(t + WindowMs(c))),
        GateKey(TelegramGate(a.digest)) := Cell(1, Some(t + Max(1, a.dedupeWindow) * SECOND)),
        ServiceWindow(a.service) := Cell(1, Some(t + SERVICE_WINDOW))]
  }

  lemma FirstGuards(c: Config, w: World, a: Attempt)
    requires c.rateLimit >= 1 && w.log == []
    ensures var h := AllGuards(w.now, TELEGRAM, a);
            && After(c, h) == FirstKeys(c, w.now, a) && Covered(h, w.now, a.digest)
            && Verdict(c, [], w.now, h[0].op) && Verdict(c, h[..1], w.now, h[1].op)
            && Verdict(c, h[..2], w.now, h[2].op) && Verdict(c, h[..3], w.now, h[3].op)
  {
    var h := AllGuards(w.now, TELEGRAM, a);
    assert h[..1][..0] == [] && h[..2][..1] == h[..1] && h[..3][..2] == h[..2] && h[..4] == h;
    var k, g := RateBucket(TELEGRAM, Bucket(c, w.now)), GateKey(TelegramGate(a.digest));
    var rate, gate := Cell(1, Some(w.now + WindowMs(c))), Cell(1, Some(w.now + Max(1, a.dedupeWindow) * SECOND));
    assert After(c, h[..1]) == map[];
    assert After(c, h[..2]) == map[k := rate];
    assert After(c, h[..3]) == map[k := rate, g := gate];
    assert After(c, h) == FirstKeys(c, w.now, a);
    assert LastPass(h[..3], TelegramGate(a.digest)) == Some(2);
    assert LastPass(h, TelegramGate(a.digest)) == Some(2);
  }

  lemma FirstRaises(c: Config, w: World, a: Attempt) returns (w1: World)
    requires c.rateLimit >= 1 && |w.notes| == 1 && Pending(w, 0) && w.log == [] && w.calls == []
    requires a.telegramToken && a.reply.OtherError?
    ensures w1 == Send(c, w, 0, TELEGRAM, a).0 && Send(c, w, 0, TELEGRAM, a).1.Raised? && Timed(c, w1)
    ensures After(c, w1.log) == FirstKeys(c, w.now, a) && Covered(w1.log, w.now, a.digest)
    ensures w1.notes == w.notes && w1.now == w.now && forall k | k in w1.calls :: !k.ok
  {
    var h := AllGuards(w.now, TELEGRAM, a);
    FirstGuards(c, w, a);
    assert w.log + [h[0]] == h[..1] && h[..1] + [h[1]] == h[..2] && h[..2] + [h[2]] == h[..3] && h[..3] + [h[3]] == h;
    w1 := Send(c, w, 0, TELEGRAM, a).0;
    assert w1 == w.(log := h, calls := [Call(0, TELEGRAM, w.now, false, a.service, a.digest, |h|)]);
    SendIsGuarded(c, w, 0, TELEGRAM, a);
  }

  lemma SecondGetsThrough(c: Config, w: World, a: Attempt, t: nat)
    requires c.rateLimit >= 2 && Pending(w, 0) && w.now == t && After(c, w.log) == FirstKeys(c, t, a) && Timed(c, w)
    ensures var o := Send(c, w, 0, TELEGRAM, a).1; !o.SkippedCircuit? && !o.SkippedRateLimit?
  {
    var (w1, closed) := Guard(c, w, CircuitCheck(TELEGRAM));
    assert w1.log[..|w.log|] == w.log && After(c, w1.log) == After(c, w.log);
    NeverSkips(c, Guard(c, w1, ChannelHit(TELEGRAM)).0, 0, a);
  }
}

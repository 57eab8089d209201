/** Whom a suppressed Telegram notification stands for: what DELIVERED does and does not mean. */
module Reach {
  import opened Prelude
  import opened Guards
  import opened State
  import opened System
  import Delivery
  import Incidents

  /** The events log' adds to log take no gate but, on Telegram and third, the one of the attempt's text. */
  ghost predicate OwnGateOnly(log: seq<Event>, log': seq<Event>, ch: Channel, digest: string) {
    log <= log' &&
    forall l: nat | |log| <= l < |log'| && log'[l].op.Acquire? ::
      ch == TELEGRAM && log'[l].op.gate == TelegramGate(digest) && l == |log| + 2
  }

  lemma OwnGateOnlyOn(c: Config, w0: seq<Event>, w: World, op: Op, ch: Channel, digest: string)
    requires OwnGateOnly(w0, w.log, ch, digest)
    requires op.Acquire? ==> ch == TELEGRAM && op.gate == TelegramGate(digest) && |w.log| == |w0| + 2
    ensures OwnGateOnly(w0, Guard(c, w, op).0.log, ch, digest)
  {
  }

  lemma MarksTakeNoGate(c: Config, log: seq<Event>, w: World, id: nat, ch: Channel, p: Option<string>, text: string,
                        digest: string)
    requires OwnGateOnly(log, w.log, ch, digest) && id < |w.notes|
    ensures OwnGateOnly(log, Delivery.MarkSent(c, w, id, ch, p).0.log, ch, digest)
    ensures OwnGateOnly(log, Delivery.MarkFailed(c, w, id, ch, text).log, ch, digest)
  {
    OwnGateOnlyOn(c, log, w, Success(ch), ch, digest);
    OwnGateOnlyOn(c, log, w, Failure(ch), ch, digest);
  }

  lemma TelegramTakesOwnGate(c: Config, log: seq<Event>, w: World, id: nat, a: Delivery.Attempt)
    requires OwnGateOnly(log, w.log, TELEGRAM, a.digest) && |w.log| == |log| + 2 && id < |w.notes|
    ensures OwnGateOnly(log, Delivery.SendTelegram(c, w, id, a).0.log, TELEGRAM, a.digest)
  {
    var op1, op2 := Acquire(TelegramGate(a.digest), Max(1, a.dedupeWindow) * SECOND), ServiceHit(a.service);
    var w1 := Guard(c, w, op1).0;
    var w2 := Guard(c, w1, op2).0;
    OwnGateOnlyOn(c, log, w, op1, TELEGRAM, a.digest);
    OwnGateOnlyOn(c, log, w1, op2, TELEGRAM, a.digest);
    MarksTakeNoGate(c, log, w, id, TELEGRAM, None, "Telegram bot token is not configured", a.digest);
    if a.reply.Delivered? {
      MarksTakeNoGate(c, log, Delivery.CallProvider(w2, id, TELEGRAM, a), id, TELEGRAM, Some(a.reply.id), "", a.digest);
    }
  }

  lemma VoiceTakesNoGate(c: Config, log: seq<Event>, w: World, id: nat, a: Delivery.Attempt)
    requires OwnGateOnly(log, w.log, VOICE, a.digest) && id < |w.notes|
    ensures OwnGateOnly(log, Delivery.SendVoice(c, w, id, a).0.log, VOICE, a.digest)
  {
    MarksTakeNoGate(c, log, w, id, VOICE, None, "", a.digest);
    if a.reply.Delivered? {
      MarksTakeNoGate(c, log, Delivery.CallProvider(w, id, VOICE, a), id, VOICE, Some(a.reply.id), "", a.digest);
    }
  }

  lemma EmailTakesNoGate(c: Config, log: seq<Event>, w: World, id: nat, a: Delivery.Attempt)
    requires OwnGateOnly(log, w.log, EMAIL, a.digest) && id < |w.notes|
    ensures OwnGateOnly(log, Delivery.SendEmail(c, w, id, a).0.log, EMAIL, a.digest)
  {
    MarksTakeNoGate(c, log, w, id, EMAIL, None, "Contact email is not available for email dispatch", a.digest);
    MarksTakeNoGate(c, log, w, id, EMAIL, None, "Resend is not configured (missing RESEND_API_KEY)", a.digest);
    var called := Delivery.CallProvider(w, id, EMAIL, a);
    if a.reply.Delivered? {
      MarksTakeNoGate(c, log, called, id, EMAIL, Some(a.reply.id), "", a.digest);
    } else {
      MarksTakeNoGate(c, log, called, id, EMAIL, None, a.reply.message, a.digest);
    }
  }

  lemma ViaTakesOwnGate(c: Config, log: seq<Event>, w: World, id: nat, ch: Channel, a: Delivery.Attempt)
    requires OwnGateOnly(log, w.log, ch, a.digest) && |w.log| == |log| + 2 && id < |w.notes| && Guarded(ch)
    ensures OwnGateOnly(log, Delivery.SendVia(c, w, id, ch, a).0.log, ch, a.digest)
  {
    if ch == VOICE {
      VoiceTakesNoGate(c, log, w, id, a);
    } else if ch == TELEGRAM {
      TelegramTakesOwnGate(c, log, w, id, a);
    } else {
      EmailTakesNoGate(c, log, w, id, a);
    }
  }

  lemma SendTakesOwnGate(c: Config, w: World, id: nat, ch: Channel, a: Delivery.Attempt)
    ensures OwnGateOnly(w.log, Delivery.Send(c, w, id, ch, a).0.log, ch, a.digest)
  {
    if Delivery.Pending(w, id) && Guarded(ch) {
      var w1 := Guard(c, w, CircuitCheck(ch)).0;
      var w2 := Guard(c, w1, ChannelHit(ch)).0;
      OwnGateOnlyOn(c, w.log, w, CircuitCheck(ch), ch, a.digest);
      OwnGateOnlyOn(c, w.log, w1, ChannelHit(ch), ch, a.digest);
      ViaTakesOwnGate(c, w.log, w2, id, ch, a);
    } else if Delivery.Pending(w, id) {
      MarksTakeNoGate(c, w.log, w, id, ch, None, "", a.digest);
    }
  }

  /** On Telegram an attempt is Sent exactly when it called the provider and the provider took it. */
  lemma SentIsCalled(c: Config, w: World, id: nat, a: Delivery.Attempt)
    requires Delivery.Pending(w, id)
    ensures var (w', o) := Delivery.SendTelegram(c, w, id, a);
            o.Sent? ==> w'.calls != w.calls
  {
  }

  lemma TelegramSentIsCalled(c: Config, w: World, id: nat, a: Delivery.Attempt)
    requires Timed(c, w)
    ensures var (w', o) := Delivery.Send(c, w, id, TELEGRAM, a);
            o.Sent? ==> w'.calls != w.calls
  {
    if Delivery.Pending(w, id) {
      var w1 := Guard(c, w, CircuitCheck(TELEGRAM)).0;
      SentIsCalled(c, Guard(c, w1, ChannelHit(TELEGRAM)).0, id, a);
    }
  }

  /** What a Telegram attempt's call looks like: it follows the attempt's own pass, and it went well exactly
   *  when the attempt ended Sent. */
  ghost predicate CallFitsPass(w: World, w': World, a: Delivery.Attempt, o: Delivery.Outcome) {
    if w'.calls == w.calls then !o.Sent?
    else
      var l := |w.log| + 2;
      && |w'.calls| > |w.calls| && |w'.log| > l && Passed(w'.log[l], TelegramGate(a.digest))
      && w'.calls == w.calls + [w'.calls[|w'.calls| - 1]]
      && var k := w'.calls[|w'.calls| - 1];
         k.channel == TELEGRAM && k.digest == a.digest && k.mark == l + 2 && (k.ok <==> o.Sent?)
  }

  lemma SendCallFitsPass(c: Config, w: World, id: nat, a: Delivery.Attempt)
    requires Timed(c, w)
    ensures var (w', o) := Delivery.Send(c, w, id, TELEGRAM, a); CallFitsPass(w, w', a, o)
  {
    var (w', o) := Delivery.Send(c, w, id, TELEGRAM, a);
    Delivery.SendIsGuarded(c, w, id, TELEGRAM, a);
    Delivery.SendAccounts(c, w, id, TELEGRAM, a);
    TelegramSentIsCalled(c, w, id, a);
    var g := Delivery.AllGuards(w.now, TELEGRAM, a);
    if w'.calls != w.calls {
      assert w'.log[|w.log| + 2] == g[2];
    }
  }

  // ---------------------------------------------------------------- over a run

  /** The text's gate is passed by attempts with that text alone, once each, as their third guard. */
  lemma PassedByItsText(c: Config, ws: seq<World>, steps: seq<Step>, i: nat, l: nat, digest: string)
    requires Run(c, ws, steps) && i < |steps| && |ws[i].log| <= l < |ws[i + 1].log|
    requires Passed(ws[i + 1].log[l], TelegramGate(digest))
    ensures steps[i].Attempt? && steps[i].ch == TELEGRAM && steps[i].env.digest == digest && l == |ws[i].log| + 2
  {
    var s := steps[i];
    if s.Attempt? {
      assert StepAt(c, ws, steps, i);
      SendTakesOwnGate(c, ws[i], s.note, s.ch, s.env);
    } else {
      OthersPassNothing(c, ws, steps, i, l, digest);
    }
  }

  lemma OthersPassNothing(c: Config, ws: seq<World>, steps: seq<Step>, i: nat, l: nat, digest: string)
    requires Run(c, ws, steps) && i < |steps| && |ws[i].log| <= l < |ws[i + 1].log| && !steps[i].Attempt?
    ensures !Passed(ws[i + 1].log[l], TelegramGate(digest))
  {
    assert StepAt(c, ws, steps, i);
    if steps[i].Ingest? {
      Incidents.IngestLogs(c, ws[i], steps[i].event);
    }
  }

  lemma CallsGrow(c: Config, ws: seq<World>, steps: seq<Step>, i: nat)
    requires Run(c, ws, steps) && i < |steps|
    ensures ws[i].calls <= ws[i + 1].calls && ws[i].log <= ws[i + 1].log
    ensures steps[i].Attempt? && steps[i].ch == TELEGRAM ==> CallFitsPass(ws[i], ws[i + 1], steps[i].env, steps[i].out)
    ensures forall k | k in ws[i + 1].calls && k !in ws[i].calls :: steps[i].Attempt? && k.channel == steps[i].ch
  {
    assert StepAt(c, ws, steps, i);
    RunKeepsInv(c, ws, steps, i);
    StepKeepsTime(c, ws[i], steps[i]);
    if steps[i].Attempt? {
      var s := steps[i];
      Delivery.SendIsGuarded(c, ws[i], s.note, s.ch, s.env);
      if s.ch == TELEGRAM {
        SendCallFitsPass(c, ws[i], s.note, s.env);
      }
    } else {
      StepAdds(c, ws[i], steps[i]);
    }
  }

  lemma {:induction false} RunGrows(c: Config, ws: seq<World>, steps: seq<Step>, i: nat, j: nat)
    requires Run(c, ws, steps) && i <= j < |ws|
    ensures ws[i].calls <= ws[j].calls && ws[i].log <= ws[j].log
  {
    if i < j {
      RunGrows(c, ws, steps, i, j - 1);
      CallsGrow(c, ws, steps, j - 1);
    }
  }

  /** Every event of the history was logged in some step. */
  lemma {:induction false} LoggedBy(c: Config, ws: seq<World>, steps: seq<Step>, i: nat, l: nat) returns (h: nat)
    requires Run(c, ws, steps) && i < |ws| && l < |ws[i].log|
    ensures h < i && |ws[h].log| <= l < |ws[h + 1].log|
  {
    if l < |ws[i - 1].log| {
      h := LoggedBy(c, ws, steps, i - 1, l);
    } else {
      h := i - 1;
    }
  }

  /** Every call was made in some step. */
  lemma {:induction false} MadeBy(c: Config, ws: seq<World>, steps: seq<Step>, i: nat, k: Call) returns (h: nat)
    requires Run(c, ws, steps) && i < |ws| && k in ws[i].calls
    ensures h < i && k in ws[h + 1].calls && k !in ws[h].calls
  {
    if k in ws[i - 1].calls {
      h := MadeBy(c, ws, steps, i - 1, k);
    } else {
      h := i - 1;
    }
  }

  /** Step h took the gate of the text, and nobody has taken it since. */
  ghost predicate Holds(ws: seq<World>, i: nat, h: nat, digest: string)
    requires i < |ws|
  {
    h < i && var last := LastPass(ws[i].log, TelegramGate(digest));
    last.Some? && |ws[h].log| <= last.value < |ws[h + 1].log|
  }

  /** Someone got the text since the gate was taken. */
  ghost predicate SomeoneGot(w: World, digest: string) {
    var last := LastPass(w.log, TelegramGate(digest));
    last.Some? && exists k :: k in w.calls && k.channel == TELEGRAM && k.digest == digest && k.ok && last.value < k.mark
  }

  lemma SuppressedIsCovered(c: Config, ws: seq<World>, steps: seq<Step>, i: nat)
    requires Run(c, ws, steps) && i < |steps| && steps[i].Attempt? && steps[i].out.SuppressedDuplicate?
    ensures steps[i].ch == TELEGRAM && Delivery.Covered(ws[i].log, ws[i].now, steps[i].env.digest)
  {
    var s, w := steps[i], ws[i];
    RunKeepsInv(c, ws, steps, i);
    assert StepAt(c, ws, steps, i);
    Delivery.OnlyTelegramSuppresses(c, w, s.note, s.ch, s.env);
    Delivery.SuppressedIffCovered(c, w, s.note, s.env);
  }

  /** A suppressed duplicate has a holder: an earlier attempt with the same text, whose window still runs. */
  lemma SuppressedHasHolder(c: Config, ws: seq<World>, steps: seq<Step>, i: nat) returns (h: nat)
    requires Run(c, ws, steps) && i < |steps| && steps[i].Attempt? && steps[i].out.SuppressedDuplicate?
    ensures Holds(ws, i, h, steps[i].env.digest)
    ensures steps[h].Attempt? && steps[h].ch == TELEGRAM && steps[h].env.digest == steps[i].env.digest
    ensures Delivery.Covered(ws[i].log, ws[i].now, steps[i].env.digest)
  {
    var s, w := steps[i], ws[i];
    SuppressedIsCovered(c, ws, steps, i);
    var l := LastPass(w.log, TelegramGate(s.env.digest)).value;
    h := LoggedBy(c, ws, steps, i, l);
    RunGrows(c, ws, steps, h + 1, i);
    PassedByItsText(c, ws, steps, h, l, s.env.digest);
  }

  /** The attempt that holds the gate of a text reached someone exactly when it ended Sent: while it holds
   *  the gate nobody else calls with that text. */
  lemma GotIffHolderSent(c: Config, ws: seq<World>, steps: seq<Step>, i: nat, h: nat, digest: string)
    requires Run(c, ws, steps) && i < |ws| && Holds(ws, i, h, digest)
    ensures steps[h].Attempt? && (SomeoneGot(ws[i], digest) <==> steps[h].out.Sent?)
  {
    var gate := TelegramGate(digest);
    var l := LastPass(ws[i].log, gate).value;
    RunGrows(c, ws, steps, h + 1, i);
    PassedByItsText(c, ws, steps, h, l, digest);
    CallsGrow(c, ws, steps, h);
    if steps[h].out.Sent? {
      SentHolderReached(c, ws, steps, i, h, digest);
    }
    forall k | k in ws[i].calls && k.channel == TELEGRAM && k.digest == digest && k.ok && l < k.mark
      ensures steps[h].out.Sent?
    {
      CallIsHolders(c, ws, steps, i, h, digest, k);
    }
  }

  lemma SentHolderReached(c: Config, ws: seq<World>, steps: seq<Step>, i: nat, h: nat, digest: string)
    requires Run(c, ws, steps) && i < |ws| && Holds(ws, i, h, digest)
    requires steps[h].Attempt? && steps[h].ch == TELEGRAM && steps[h].env.digest == digest && steps[h].out.Sent?
    ensures SomeoneGot(ws[i], digest)
  {
    CallsGrow(c, ws, steps, h);
    RunGrows(c, ws, steps, h + 1, i);
    var gate := TelegramGate(digest);
    var l := LastPass(ws[i].log, gate).value;
    var k := ws[h + 1].calls[|ws[h + 1].calls| - 1];
    assert Passed(ws[h + 1].log[|ws[h].log| + 2], gate) && ws[i].log[|ws[h].log| + 2] == ws[h + 1].log[|ws[h].log| + 2];
    PassedByItsText(c, ws, steps, h, l, digest);
    assert k in ws[i].calls;
  }

  lemma CallIsHolders(c: Config, ws: seq<World>, steps: seq<Step>, i: nat, h: nat, digest: string, k: Call)
    requires Run(c, ws, steps) && i < |ws| && Holds(ws, i, h, digest)
    requires var l := LastPass(ws[i].log, TelegramGate(digest)).value;
             k in ws[i].calls && k.channel == TELEGRAM && k.digest == digest && k.ok && l < k.mark
    ensures steps[h].Attempt? && steps[h].out.Sent?
  {
    var gate := TelegramGate(digest);
    var l := LastPass(ws[i].log, gate).value;
    var j := MadeBy(c, ws, steps, i, k);
    CallsGrow(c, ws, steps, j);
    RunGrows(c, ws, steps, j + 1, i);
    var m := |ws[j].log| + 2;
    assert k == ws[j + 1].calls[|ws[j + 1].calls| - 1];
    assert Passed(ws[i].log[m], gate);
    LastPassIsLast(ws[i].log, gate);
    RunGrows(c, ws, steps, h + 1, i);
    PassedByItsText(c, ws, steps, h, l, digest);
    if j < h {
      RunGrows(c, ws, steps, j + 1, h);
    } else if j > h {
      RunGrows(c, ws, steps, h + 1, j);
    }
  }

  // ---------------------------------------------------------------- DELIVERED

  /** What a suppressed attempt logs: a gate refused, or a gate passed and a full service window. */
  ghost predicate SuppressionLogged(w: World, w': World, digest: string, o: Delivery.Outcome) {
    && w.log <= w'.log && |w'.log| == |w.log| + (if o.SuppressedDuplicate? then 3 else 4)
    && var e := w'.log[|w.log| + 2];
       e.op.Acquire? && e.op.gate == TelegramGate(digest) && (e.ok <==> o.SuppressedRateLimit?)
  }

  lemma TelegramSuppressionLogs(c: Config, w: World, id: nat, a: Delivery.Attempt)
    requires Delivery.Pending(w, id)
    ensures var (w', o) := Delivery.SendTelegram(c, w, id, a);
            o.SuppressedDuplicate? || o.SuppressedRateLimit? ==>
              && w.log <= w'.log && |w'.log| == |w.log| + (if o.SuppressedDuplicate? then 1 else 2)
              && var e := w'.log[|w.log|];
                 e.op.Acquire? && e.op.gate == TelegramGate(a.digest) && (e.ok <==> o.SuppressedRateLimit?)
  {
  }

  lemma SuppressionLogs(c: Config, w: World, id: nat, a: Delivery.Attempt)
    ensures var (w', o) := Delivery.Send(c, w, id, TELEGRAM, a);
            o.SuppressedDuplicate? || o.SuppressedRateLimit? ==> SuppressionLogged(w, w', a.digest, o)
  {
    if Delivery.Pending(w, id) {
      var w1 := Guard(c, w, CircuitCheck(TELEGRAM)).0;
      var w2 := Guard(c, w1, ChannelHit(TELEGRAM)).0;
      TelegramSuppressionLogs(c, w2, id, a);
    }
  }

  lemma {:induction false} LastPassStays(log: seq<Event>, log': seq<Event>, g: Gate)
    requires log <= log' && forall l: nat | |log| <= l < |log'| :: !Passed(log'[l], g)
    ensures LastPass(log', g) == LastPass(log, g)
  {
    if |log| < |log'| {
      LastPassStays(log, log'[..|log'| - 1], g);
    } else {
      assert log' == log;
    }
  }

  /** After a suppressed attempt the gate has a holder: itself if the service window was full, else the
   *  earlier attempt that made it a duplicate. */
  lemma SuppressionHasHolder(c: Config, ws: seq<World>, steps: seq<Step>, i: nat) returns (h: nat)
    requires Run(c, ws, steps) && i < |steps| && steps[i].Attempt?
    requires steps[i].out.SuppressedDuplicate? || steps[i].out.SuppressedRateLimit?
    ensures steps[i].ch == TELEGRAM && Holds(ws, i + 1, h, steps[i].env.digest)
    ensures h == i <==> steps[i].out.SuppressedRateLimit?
  {
    SuppressionAt(c, ws, steps, i);
    if steps[i].out.SuppressedRateLimit? {
      LastPassIsLast(ws[i + 1].log, TelegramGate(steps[i].env.digest));
      h := i;
    } else {
      h := SuppressedHasHolder(c, ws, steps, i);
      RefusedPassesNothing(c, ws, steps, i);
    }
  }

  lemma SuppressionAt(c: Config, ws: seq<World>, steps: seq<Step>, i: nat)
    requires Run(c, ws, steps) && i < |steps| && steps[i].Attempt?
    requires steps[i].out.SuppressedDuplicate? || steps[i].out.SuppressedRateLimit?
    ensures steps[i].ch == TELEGRAM && Delivery.Pending(ws[i], steps[i].note)
    ensures SuppressionLogged(ws[i], ws[i + 1], steps[i].env.digest, steps[i].out)
  {
    var s := steps[i];
    assert StepAt(c, ws, steps, i);
    Delivery.OnlyTelegramSuppresses(c, ws[i], s.note, s.ch, s.env);
    SuppressionLogs(c, ws[i], s.note, s.env);
  }

  lemma RefusedPassesNothing(c: Config, ws: seq<World>, steps: seq<Step>, i: nat)
    requires Run(c, ws, steps) && i < |steps| && steps[i].Attempt? && steps[i].out.SuppressedDuplicate?
    ensures var gate := TelegramGate(steps[i].env.digest); LastPass(ws[i + 1].log, gate) == LastPass(ws[i].log, gate)
  {
    SuppressionAt(c, ws, steps, i);
    var log, log', gate := ws[i].log, ws[i + 1].log, TelegramGate(steps[i].env.digest);
    forall l: nat | |log| <= l < |log'| ensures !Passed(log'[l], gate) {
      if Passed(log'[l], gate) {
        PassedByItsText(c, ws, steps, i, l, steps[i].env.digest);
      }
    }
    LastPassStays(log, log', gate);
  }

  predicate Suppressing(s: Step, note: nat) {
    s.Attempt? && s.note == note && (s.out.SuppressedDuplicate? || s.out.SuppressedRateLimit?)
  }

  lemma DeliveredInStep(c: Config, w: World, s: Step, w': World, note: nat)
    requires Leads(c, w, s, w') && note < |w'.notes| && w'.notes[note].status == DELIVERED
    ensures Suppressing(s, note) || (note < |w.notes| && w.notes[note].status == DELIVERED)
  {
    StepAdds(c, w, s);
    if s.Attempt? {
      Delivery.SendAccounts(c, w, s.note, s.ch, s.env);
    }
  }

  /** A notification becomes DELIVERED only by a suppressed attempt of its own. */
  lemma {:induction false} DeliveredBySuppression(c: Config, ws: seq<World>, steps: seq<Step>, j: nat, note: nat)
    returns (i: nat)
    requires Run(c, ws, steps) && j < |ws| && note < |ws[j].notes| && ws[j].notes[note].status == DELIVERED
    ensures i < j && Suppressing(steps[i], note)
  {
    assert StepAt(c, ws, steps, j - 1);
    DeliveredInStep(c, ws[j - 1], steps[j - 1], ws[j], note);
    if Suppressing(steps[j - 1], note) {
      i := j - 1;
    } else {
      i := DeliveredBySuppression(c, ws, steps, j - 1, note);
    }
  }

  /** What DELIVERED means, in every run: the notification itself was never sent, and when it was suppressed
   *  someone had got its text since the gate was taken exactly when the attempt that holds the gate ended
   *  Sent. That attempt is the notification's own, and never Sent, when the service window was full. */
  lemma DeliveredMeans(c: Config, ws: seq<World>, steps: seq<Step>, j: nat, note: nat) returns (i: nat, h: nat)
    requires Run(c, ws, steps) && j < |ws| && note < |ws[j].notes| && ws[j].notes[note].status == DELIVERED
    ensures h <= i < j && Suppressing(steps[i], note) && Holds(ws, i + 1, h, steps[i].env.digest)
    ensures steps[h].Attempt? && (SomeoneGot(ws[i + 1], steps[i].env.digest) <==> steps[h].out.Sent?)
    ensures h == i <==> steps[i].out.SuppressedRateLimit?
    ensures Count(ws[j].calls, Delivery.OkCall(note)) == 0
  {
    i := DeliveredBySuppression(c, ws, steps, j, note);
    h := SuppressionHasHolder(c, ws, steps, i);
    GotIffHolderSent(c, ws, steps, i + 1, h, steps[i].env.digest);
    AtMostOnce(c, ws, steps, j, note);
  }

  lemma SuppressedStep(c: Config, ws: seq<World>, steps: seq<Step>, i: nat, note: nat)
    requires Run(c, ws, steps) && i < |steps| && Suppressing(steps[i], note)
    ensures note < |ws[i + 1].notes| && ws[i + 1].notes[note].status == DELIVERED
  {
    assert StepAt(c, ws, steps, i);
    var s := steps[i];
    SuppressionAt(c, ws, steps, i);
    Delivery.SendAccounts(c, ws[i], s.note, s.ch, s.env);
  }

  lemma TerminalIsNotCalled(c: Config, ws: seq<World>, steps: seq<Step>, i: nat, note: nat)
    requires Run(c, ws, steps) && i < |steps| && note < |ws[i].notes| && Terminal(ws[i].notes[note].status)
    ensures Count(ws[i + 1].calls, Delivery.OkCall(note)) == Count(ws[i].calls, Delivery.OkCall(note))
  {
    assert StepAt(c, ws, steps, i);
    var s, w, w' := steps[i], ws[i], ws[i + 1];
    StepAdds(c, w, s);
    if s.Attempt? {
      Delivery.SendAccounts(c, w, s.note, s.ch, s.env);
      if w'.calls != w.calls {
        CountSnoc(w.calls, w'.calls[|w.calls|], Delivery.OkCall(note));
      }
    }
  }

  /** A suppressed notification has no successful call of its own, before or ever after. */
  lemma {:induction false} SuppressedIsNeverCalled(c: Config, ws: seq<World>, steps: seq<Step>, i: nat, j: nat,
                                                   note: nat)
    requires Run(c, ws, steps) && i < |steps| && j < |ws| && Suppressing(steps[i], note)
    ensures Count(ws[j].calls, Delivery.OkCall(note)) == 0
    decreases j
  {
    SuppressedStep(c, ws, steps, i, note);
    AtMostOnce(c, ws, steps, i + 1, note);
    if j <= i + 1 {
      RunGrows(c, ws, steps, j, i + 1);
      CountPrefix(ws[j].calls, ws[i + 1].calls, Delivery.OkCall(note));
    } else {
      SuppressedIsNeverCalled(c, ws, steps, i, j - 1, note);
      TerminalIsForever(c, ws, steps, i + 1, j - 1, note);
      TerminalIsNotCalled(c, ws, steps, j - 1, note);
    }
  }
}

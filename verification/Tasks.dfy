/** A channel task as part of a run: its attempts, the delays between them and its end, with any other steps,
 *  of callbacks, replays or other tasks for the same row, in between.
 */
module ChannelTasks {
  import opened Prelude
  import opened Guards
  import opened State
  import opened DeadLetters
  import opened System
  import opened ReplayWalk
  import Delivery
  import Retry

  /** A task for one row and channel; the stamp and the draws are what chance will give it. */
  datatype Job = Job(id: nat, ch: Channel, trace: nat, stamp: nat, policy: Retry.Policy, draw: nat -> nat)

  /** Where a task stands: about to attempt for the retries-th time again, about to push its dead letter, about
   *  to tell the database, or over. */
  datatype Phase = Waiting(retries: nat, notBefore: nat) | Pushing(error: string) | Recording(error: string) | Over

  const START := Waiting(0, 0)

  function Letter(t: Job, error: string): Raw {
    Payload(Entry(WorkerOf(t.ch), [t.id, t.trace], error, t.stamp))
  }

  predicate IsTry(t: Job, s: Step) { s.Attempt? && s.note == t.id && s.ch == t.ch }

  /** The step is one the task may take where it stands. */
  predicate Takes(t: Job, p: Phase, w: World, s: Step) {
    match p
    case Waiting(_, notBefore) => IsTry(t, s) && notBefore <= w.now
    case Pushing(error) => s == PushDlq(Letter(t, error))
    case Recording(error) => s == FinalFailure(Some(t.id), None, error)
    case Over => false
  }

  /** Where a step that ends at time now takes the task. Only an attempt that raised is retried, and only
   *  while the policy has a retry left; else its error is handled as final. */
  function Next(t: Job, p: Phase, s: Step, now: nat): Phase {
    match p
    case Waiting(retries, _) =>
      if !s.Attempt? || !s.out.Raised? then Over
      else if retries < t.policy.maxRetries then
        Waiting(retries + 1, now + Retry.Delay(t.policy, retries, t.draw(retries)) * SECOND)
      else Pushing(s.out.error)
    case Pushing(error) => Recording(error)
    case _ => Over
  }

  /** The steps numbered own are the task's, with any other steps of the run in between. */
  predicate Follows(ws: seq<World>, steps: seq<Step>, t: Job, own: seq<nat>)
    decreases |own|, 0
  {
    |ws| == |steps| + 1 &&
    (own == [] ||
     var n := |own| - 1;
     Follows(ws, steps, t, own[..n]) && TakesAt(ws, steps, t, PhaseAfter(ws, steps, t, own[..n]), own[..n], own[n]))
  }

  predicate TakesAt(ws: seq<World>, steps: seq<Step>, t: Job, p: Phase, before: seq<nat>, m: nat)
    requires |ws| == |steps| + 1
  {
    m < |steps| && (before == [] || before[|before| - 1] < m) && Takes(t, p, ws[m], steps[m])
  }

  function PhaseAfter(ws: seq<World>, steps: seq<Step>, t: Job, own: seq<nat>): Phase
    requires Follows(ws, steps, t, own)
    decreases |own|, 1
  {
    if own == [] then START
    else
      var m := own[|own| - 1];
      Next(t, PhaseAfter(ws, steps, t, own[..|own| - 1]), steps[m], ws[m + 1].now)
  }

  lemma FollowsOn(ws: seq<World>, steps: seq<Step>, t: Job, own: seq<nat>, m: nat)
    requires Follows(ws, steps, t, own) && TakesAt(ws, steps, t, PhaseAfter(ws, steps, t, own), own, m)
    ensures Follows(ws, steps, t, own + [m])
    ensures PhaseAfter(ws, steps, t, own + [m]) == Next(t, PhaseAfter(ws, steps, t, own), steps[m], ws[m + 1].now)
  {
    assert (own + [m])[..|own|] == own;
  }

  lemma {:induction false} FollowsPrefix(ws: seq<World>, steps: seq<Step>, t: Job, own: seq<nat>, n: nat)
    requires Follows(ws, steps, t, own) && n <= |own|
    ensures Follows(ws, steps, t, own[..n])
  {
    if n == |own| {
      assert own[..n] == own;
    } else {
      FollowsPrefix(ws, steps, t, own[..|own| - 1], n);
      assert own[..|own| - 1][..n] == own[..n];
    }
  }

  // ---------------------------------------------------------------- how a task ends

  /** The k-th own step is an attempt of the task that raised. */
  predicate RaisedAt(steps: seq<Step>, t: Job, own: seq<nat>, k: nat)
    requires k < |own|
  {
    own[k] < |steps| && IsTry(t, steps[own[k]]) && steps[own[k]].out.Raised?
  }

  predicate FirstRaised(steps: seq<Step>, t: Job, own: seq<nat>, n: nat) {
    n <= |own| && forall k: nat | k < n :: RaisedAt(steps, t, own, k)
  }

  /** The first max_retries + 1 attempts all raised. */
  predicate Doomed(steps: seq<Step>, t: Job, own: seq<nat>) {
    FirstRaised(steps, t, own, t.policy.maxRetries + 1)
  }

  /** The error of the last attempt the policy allows. */
  function LastError(steps: seq<Step>, t: Job, own: seq<nat>): string
    requires Doomed(steps, t, own)
  {
    assert RaisedAt(steps, t, own, t.policy.maxRetries);
    steps[own[t.policy.maxRetries]].out.error
  }

  function Tries(steps: seq<Step>, t: Job): nat -> bool { (m: nat) => m < |steps| && IsTry(t, steps[m]) }

  function PushesIn(steps: seq<Step>): nat -> bool { (m: nat) => m < |steps| && steps[m].PushDlq? }

  function RecordsIn(steps: seq<Step>): nat -> bool { (m: nat) => m < |steps| && steps[m].FinalFailure? }

  function ExactLetter(steps: seq<Step>, raw: Raw): nat -> bool { (m: nat) => m < |steps| && steps[m] == PushDlq(raw) }

  /** How many of its own steps of each kind the task has taken. */
  ghost predicate Took(steps: seq<Step>, t: Job, own: seq<nat>, tries: nat, pushes: nat, records: nat) {
    && Count(own, Tries(steps, t)) == tries
    && Count(own, PushesIn(steps)) == pushes
    && Count(own, RecordsIn(steps)) == records
    && |own| == tries + pushes + records
  }

  /** What the steps behind a task tell of where it stands. */
  ghost predicate Stood(steps: seq<Step>, t: Job, own: seq<nat>, p: Phase) {
    var most := t.policy.maxRetries + 1;
    match p
    case Waiting(retries, _) =>
      retries < most && FirstRaised(steps, t, own, retries) && Took(steps, t, own, retries, 0, 0)
    case Pushing(error) =>
      Doomed(steps, t, own) && Took(steps, t, own, most, 0, 0) && error == LastError(steps, t, own)
    case Recording(error) =>
      Doomed(steps, t, own) && Took(steps, t, own, most, 1, 0) && error == LastError(steps, t, own) &&
      Count(own, ExactLetter(steps, Letter(t, error))) == 1
    case Over =>
      if Doomed(steps, t, own) then
        Took(steps, t, own, most, 1, 1) && Count(own, ExactLetter(steps, Letter(t, LastError(steps, t, own)))) == 1
      else
        1 <= |own| <= most && FirstRaised(steps, t, own, |own| - 1) && Took(steps, t, own, |own|, 0, 0)
  }

  lemma TookOn(steps: seq<Step>, t: Job, own: seq<nat>, m: nat, tries: nat, pushes: nat, records: nat)
    requires Took(steps, t, own, tries, pushes, records) && m < |steps|
    ensures IsTry(t, steps[m]) ==> Took(steps, t, own + [m], tries + 1, pushes, records)
    ensures steps[m].PushDlq? ==> Took(steps, t, own + [m], tries, pushes + 1, records)
    ensures steps[m].FinalFailure? ==> Took(steps, t, own + [m], tries, pushes, records + 1)
  {
    CountSnoc<nat>(own, m, Tries(steps, t));
    CountSnoc<nat>(own, m, PushesIn(steps));
    CountSnoc<nat>(own, m, RecordsIn(steps));
  }

  lemma FirstRaisedOn(steps: seq<Step>, t: Job, own: seq<nat>, m: nat, n: nat)
    requires n <= |own|
    ensures FirstRaised(steps, t, own + [m], n) <==> FirstRaised(steps, t, own, n)
  {
    assert forall k: nat | k < n :: RaisedAt(steps, t, own + [m], k) == RaisedAt(steps, t, own, k);
  }

  lemma {:induction false} NoLetterAmongTries(steps: seq<Step>, raw: Raw, own: seq<nat>)
    requires Count(own, PushesIn(steps)) == 0
    ensures Count(own, ExactLetter(steps, raw)) == 0
  {
    if own != [] {
      NoLetterAmongTries(steps, raw, own[..|own| - 1]);
    }
  }

  lemma TryStands(steps: seq<Step>, t: Job, own: seq<nat>, p: Phase, m: nat, now: nat)
    requires p.Waiting? && Stood(steps, t, own, p) && m < |steps| && IsTry(t, steps[m])
    ensures Stood(steps, t, own + [m], Next(t, p, steps[m], now))
  {
    var own' := own + [m];
    TookOn(steps, t, own, m, |own|, 0, 0);
    FirstRaisedOn(steps, t, own, m, |own|);
    assert RaisedAt(steps, t, own', |own|) <==> steps[m].out.Raised?;
  }

  lemma PushStands(steps: seq<Step>, t: Job, own: seq<nat>, p: Phase, m: nat)
    requires p.Pushing? && Stood(steps, t, own, p) && m < |steps| && steps[m] == PushDlq(Letter(t, p.error))
    ensures Stood(steps, t, own + [m], Recording(p.error))
  {
    TookOn(steps, t, own, m, |own|, 0, 0);
    FirstRaisedOn(steps, t, own, m, |own|);
    NoLetterAmongTries(steps, Letter(t, p.error), own);
    CountSnoc<nat>(own, m, ExactLetter(steps, Letter(t, p.error)));
  }

  lemma RecordStands(steps: seq<Step>, t: Job, own: seq<nat>, p: Phase, m: nat)
    requires p.Recording? && Stood(steps, t, own, p) && m < |steps| && steps[m].FinalFailure?
    ensures Stood(steps, t, own + [m], Over)
  {
    TookOn(steps, t, own, m, t.policy.maxRetries + 1, 1, 0);
    FirstRaisedOn(steps, t, own, m, t.policy.maxRetries + 1);
    CountSnoc<nat>(own, m, ExactLetter(steps, Letter(t, p.error)));
  }

  lemma {:induction false} TaskStands(ws: seq<World>, steps: seq<Step>, t: Job, own: seq<nat>)
    requires Follows(ws, steps, t, own)
    ensures Stood(steps, t, own, PhaseAfter(ws, steps, t, own))
  {
    if own != [] {
      var front, m := own[..|own| - 1], own[|own| - 1];
      TaskStands(ws, steps, t, front);
      StandsNext(ws, steps, t, front, m);
      assert front + [m] == own;
    }
  }

  lemma StandsNext(ws: seq<World>, steps: seq<Step>, t: Job, own: seq<nat>, m: nat)
    requires Follows(ws, steps, t, own) && Stood(steps, t, own, PhaseAfter(ws, steps, t, own))
    requires TakesAt(ws, steps, t, PhaseAfter(ws, steps, t, own), own, m)
    ensures Follows(ws, steps, t, own + [m]) && Stood(steps, t, own + [m], PhaseAfter(ws, steps, t, own + [m]))
  {
    var p := PhaseAfter(ws, steps, t, own);
    FollowsOn(ws, steps, t, own, m);
    match p
    case Waiting(_, _) => TryStands(steps, t, own, p, m, ws[m + 1].now);
    case Pushing(_) => PushStands(steps, t, own, p, m);
    case Recording(_) => RecordStands(steps, t, own, p, m);
  }

  /** Whatever falls in between: a task makes at most max_retries + 1 attempts. It goes on to its dead letter
   *  if and only if as many have all raised, and then makes no further attempt. A task that is over has
   *  pushed its letter, with the last error, and told the database exactly once each if they all raised,
   *  and never otherwise. */
  lemma TaskFailsIffAllRaised(ws: seq<World>, steps: seq<Step>, t: Job, own: seq<nat>)
    requires Follows(ws, steps, t, own)
    ensures var p, most := PhaseAfter(ws, steps, t, own), t.policy.maxRetries + 1;
            var tries, pushes, records :=
              Count(own, Tries(steps, t)), Count(own, PushesIn(steps)), Count(own, RecordsIn(steps));
            && tries <= most && records <= pushes <= 1 && |own| == tries + pushes + records
            && (Doomed(steps, t, own) <==> p.Pushing? || p.Recording? || pushes == 1)
            && (Doomed(steps, t, own) ==> tries == most)
            && (pushes == 1 ==> Count(own, ExactLetter(steps, Letter(t, LastError(steps, t, own)))) == 1)
            && (p.Over? ==> (pushes == 1 <==> Doomed(steps, t, own)) && (records == 1 <==> Doomed(steps, t, own)))
  {
    TaskStands(ws, steps, t, own);
  }

  // ---------------------------------------------------------------- the row

  predicate Skipped(o: Delivery.Outcome) { o.SkippedCircuit? || o.SkippedRateLimit? }

  lemma TryLeaves(c: Config, ws: seq<World>, steps: seq<Step>, t: Job, m: nat)
    requires Run(c, ws, steps) && m < |steps| && IsTry(t, steps[m]) && !steps[m].out.Raised? && !Skipped(steps[m].out)
    ensures t.id < |ws[m + 1].notes|
    ensures var s := ws[m + 1].notes[t.id].status; Terminal(s) || (s == FAILED && steps[m].out.SendFailed?)
  {
    assert StepAt(c, ws, steps, m);
    Delivery.SendAccounts(c, ws[m], t.id, t.ch, steps[m].env);
  }

  lemma RecordLeaves(c: Config, ws: seq<World>, steps: seq<Step>, m: nat, id: nat, error: string)
    requires Run(c, ws, steps) && m < |steps| && steps[m] == FinalFailure(Some(id), None, error)
    ensures |ws[m + 1].notes| == |ws[m].notes|
    ensures id < |ws[m].notes| ==>
              if Terminal(ws[m].notes[id].status) then ws[m + 1].notes[id] == ws[m].notes[id]
              else ws[m + 1].notes[id].status == FAILED && ws[m + 1].notes[id].error == Some(error)
  {
    assert StepAt(c, ws, steps, m);
  }

  lemma LastStep(ws: seq<World>, steps: seq<Step>, t: Job, own: seq<nat>)
    requires Follows(ws, steps, t, own) && PhaseAfter(ws, steps, t, own).Over?
    ensures own != [] && own[|own| - 1] < |steps|
    ensures var s := steps[own[|own| - 1]];
            if Doomed(steps, t, own) then s == FinalFailure(Some(t.id), None, LastError(steps, t, own))
            else IsTry(t, s) && !s.out.Raised?
  {
    var n := |own| - 1;
    TaskStands(ws, steps, t, own);
    TaskStands(ws, steps, t, own[..n]);
    var p, s := PhaseAfter(ws, steps, t, own[..n]), steps[own[n]];
    assert own == own[..n] + [own[n]];
    if p.Recording? {
      FirstRaisedOn(steps, t, own[..n], own[n], t.policy.maxRetries + 1);
      assert RaisedAt(steps, t, own[..n], t.policy.maxRetries);
    }
  }

  /** How a task that is over leaves its row, whatever falls in between: terminal or FAILED, FAILED with the
   *  last error if all its attempts raised and nothing had made the row terminal; unless its last attempt
   *  was skipped by the circuit or the channel limit. */
  lemma TaskLeavesRow(c: Config, ws: seq<World>, steps: seq<Step>, t: Job, own: seq<nat>)
    requires Run(c, ws, steps) && Follows(ws, steps, t, own) && PhaseAfter(ws, steps, t, own).Over?
    ensures own != [] && own[|own| - 1] < |steps|
    ensures var f := own[|own| - 1];
            if Doomed(steps, t, own) then
              |ws[f + 1].notes| == |ws[f].notes| &&
              (t.id < |ws[f].notes| ==>
                 if Terminal(ws[f].notes[t.id].status) then ws[f + 1].notes[t.id] == ws[f].notes[t.id]
                 else ws[f + 1].notes[t.id].status == FAILED &&
                      ws[f + 1].notes[t.id].error == Some(LastError(steps, t, own)))
            else
              (steps[f].Attempt? && Skipped(steps[f].out)) ||
              (t.id < |ws[f + 1].notes| &&
               (Terminal(ws[f + 1].notes[t.id].status) || ws[f + 1].notes[t.id].status == FAILED))
  {
    LastStep(ws, steps, t, own);
    var f := own[|own| - 1];
    if Doomed(steps, t, own) {
      RecordLeaves(c, ws, steps, f, t.id, LastError(steps, t, own));
    } else if !Skipped(steps[f].out) {
      TryLeaves(c, ws, steps, t, f);
    }
  }

  /** A row that something else made terminal ends the task: the attempt that finds it is the last. */
  lemma TerminalEndsTask(c: Config, ws: seq<World>, steps: seq<Step>, t: Job, own: seq<nat>, k: nat, i: nat)
    requires Run(c, ws, steps) && Follows(ws, steps, t, own) && k < |own| && own[k] < |steps|
    requires IsTry(t, steps[own[k]]) && i <= own[k]
    requires t.id < |ws[i].notes| && Terminal(ws[i].notes[t.id].status)
    ensures steps[own[k]].out == Delivery.AlreadyTerminal && k == |own| - 1
  {
    var m := own[k];
    TerminalIsForever(c, ws, steps, i, m, t.id);
    assert StepAt(c, ws, steps, m);
    Delivery.TerminalAttemptIsInert(c, ws[m], t.id, t.ch, steps[m].env);
    UnraisedIsLast(ws, steps, t, own, k);
  }

  lemma UnraisedIsLast(ws: seq<World>, steps: seq<Step>, t: Job, own: seq<nat>, k: nat)
    requires Follows(ws, steps, t, own) && k < |own| && own[k] < |steps|
    requires IsTry(t, steps[own[k]]) && !steps[own[k]].out.Raised?
    ensures k == |own| - 1
  {
    var j := Min(k + 2, |own|);
    FollowsPrefix(ws, steps, t, own, k + 1);
    FollowsPrefix(ws, steps, t, own, j);
    assert own[..k + 1][..k] == own[..k] && own[..j][..j - 1] == own[..j - 1];
  }

  // ---------------------------------------------------------------- the time it takes

  lemma ClockRuns(c: Config, ws: seq<World>, steps: seq<Step>, i: nat, j: nat)
    requires Run(c, ws, steps) && i <= j < |ws|
    ensures ws[i].now <= ws[j].now
  {
    RunAges(c, ws, steps, i, j);
  }

  /** Jitter is drawn from its range. */
  ghost predicate Drawable(policy: Retry.Policy, draw: nat -> nat) {
    forall r :: draw(r) <= Retry.JitterMax(policy, r)
  }

  /** Whatever falls in between, a task that has retried n times waits for a time at least the policy's
   *  jitter-free backoff after its first attempt. */
  lemma {:induction false} TaskTakesItsTime(c: Config, ws: seq<World>, steps: seq<Step>, t: Job, own: seq<nat>)
    requires Run(c, ws, steps) && Follows(ws, steps, t, own) && Drawable(t.policy, t.draw)
    requires own != [] && PhaseAfter(ws, steps, t, own).Waiting?
    ensures own[0] < |steps|
    ensures var p := PhaseAfter(ws, steps, t, own);
            p.retries == |own| && ws[own[0]].now + Retry.TotalBase(t.policy, p.retries) * SECOND <= p.notBefore
  {
    var n := |own| - 1;
    var m, p := own[n], PhaseAfter(ws, steps, t, own[..n]);
    TaskStands(ws, steps, t, own);
    Retry.DelayBounds(t.policy, p.retries, t.draw(p.retries));
    ClockRuns(c, ws, steps, m, m + 1);
    if n > 0 {
      TaskTakesItsTime(c, ws, steps, t, own[..n]);
    }
  }

  // ---------------------------------------------------------------- a task on its own

  /** What a task does when nothing falls in between: an attempt, then for each delay a pause and another. */
  function Plan(id: nat, ch: Channel, env: nat -> Delivery.Attempt, delays: seq<nat>, outs: seq<Delivery.Outcome>)
    : (r: seq<Step>)
    requires |outs| == |delays| + 1
    ensures |r| == 2 * |delays| + 1
  {
    var n := |delays|;
    if n == 0 then [Attempt(id, ch, env(0), outs[0])]
    else Plan(id, ch, env, delays[..n - 1], outs[..n]) +
         [Tick(delays[n - 1] * SECOND), Attempt(id, ch, env(n), outs[n])]
  }

  /** A task that has failed for good: one dead letter, then the database. */
  function FinalSteps(task: TaskName, args: seq<nat>, error: string, stamp: nat): seq<Step> {
    var note := if args != [] && task != EscalationWorker then Some(args[0]) else None;
    var incident := if args != [] && task == EscalationWorker then Some(args[0]) else None;
    [PushDlq(Payload(Entry(task, args, error, stamp))), FinalFailure(note, incident, error)]
  }

  /** Every retry was for an attempt that raised. */
  predicate RaisedBefore(outs: seq<Delivery.Outcome>) {
    forall k: nat | k + 1 < |outs| :: outs[k].Raised?
  }

  /** So far the run since past was the plan, and every retry was for an attempt that raised. */
  ghost predicate Planned(past: seq<Step>, steps: seq<Step>, id: nat, ch: Channel, env: nat -> Delivery.Attempt,
                          delays: seq<nat>, outs: seq<Delivery.Outcome>) {
    |outs| == |delays| + 1 && RaisedBefore(outs) && steps == past + Plan(id, ch, env, delays, outs)
  }

  lemma PlannedOn(past: seq<Step>, steps: seq<Step>, steps': seq<Step>, id: nat, ch: Channel,
                  env: nat -> Delivery.Attempt,
                  delays: seq<nat>, outs: seq<Delivery.Outcome>, d: nat, o: Delivery.Outcome)
    requires Planned(past, steps, id, ch, env, delays, outs) && outs[|delays|].Raised?
    requires steps' == steps + [Tick(d * SECOND)] + [Attempt(id, ch, env(|delays| + 1), o)]
    ensures Planned(past, steps', id, ch, env, delays + [d], outs + [o])
  {
    var n := |delays|;
    assert (delays + [d])[..n] == delays && (outs + [o])[..n + 1] == outs;
    assert Plan(id, ch, env, delays + [d], outs + [o]) ==
           Plan(id, ch, env, delays, outs) + [Tick(d * SECOND), Attempt(id, ch, env(n + 1), o)];
  }

  lemma {:induction false} PlanAt(id: nat, ch: Channel, env: nat -> Delivery.Attempt, delays: seq<nat>,
                                  outs: seq<Delivery.Outcome>, k: nat)
    requires |outs| == |delays| + 1 && k <= |delays|
    ensures var r := Plan(id, ch, env, delays, outs);
            && r[2 * k] == Attempt(id, ch, env(k), outs[k])
            && (k < |delays| ==> r[2 * k + 1] == Tick(delays[k] * SECOND))
  {
    var n := |delays|;
    if n > 0 {
      if k < n {
        PlanAt(id, ch, env, delays[..n - 1], outs[..n], k);
      }
    }
  }

  /** The own steps of a task on its own that began at step base and retried n times. */
  function AloneOwn(base: nat, n: nat): (own: seq<nat>)
    ensures |own| == n + 1
  {
    seq(n + 1, k requires 0 <= k => base + 2 * k)
  }

  /** The k-th attempt of a task on its own, and its pause if there is one. */
  predicate AloneAt(steps: seq<Step>, base: nat, id: nat, ch: Channel, env: nat -> Delivery.Attempt,
                    delays: seq<nat>, outs: seq<Delivery.Outcome>, k: nat)
    requires |outs| == |delays| + 1 && k <= |delays|
  {
    && base + 2 * |delays| < |steps| && steps[base + 2 * k] == Attempt(id, ch, env(k), outs[k])
    && (k < |delays| ==> steps[base + 2 * k + 1] == Tick(delays[k] * SECOND))
  }

  lemma TickPasses(c: Config, ws: seq<World>, steps: seq<Step>, i: nat, d: nat)
    requires Run(c, ws, steps) && i < |steps| && steps[i] == Tick(d)
    ensures ws[i + 1].now == ws[i].now + d
  {
    assert StepAt(c, ws, steps, i);
  }

  lemma PlannedAt(steps: seq<Step>, past: seq<Step>, id: nat, ch: Channel, env: nat -> Delivery.Attempt,
                  delays: seq<nat>, outs: seq<Delivery.Outcome>, k: nat)
    requires |outs| == |delays| + 1 && past + Plan(id, ch, env, delays, outs) <= steps && k <= |delays|
    ensures AloneAt(steps, |past|, id, ch, env, delays, outs, k)
  {
    PlanAt(id, ch, env, delays, outs, k);
    var r := Plan(id, ch, env, delays, outs);
    assert steps[|past| + 2 * k] == r[2 * k];
    assert k < |delays| ==> steps[|past| + 2 * k + 1] == r[2 * k + 1];
  }

  /** Where a task on its own stands after its k-th attempt. */
  ghost predicate AloneStands(ws: seq<World>, steps: seq<Step>, t: Job, base: nat, k: nat, o: Delivery.Outcome) {
    && Follows(ws, steps, t, AloneOwn(base, k)) && base + 2 * k + 1 < |ws|
    && PhaseAfter(ws, steps, t, AloneOwn(base, k)) ==
       (if !o.Raised? then Over
        else if k < t.policy.maxRetries then
          Waiting(k + 1, ws[base + 2 * k + 1].now + Retry.Delay(t.policy, k, t.draw(k)) * SECOND)
        else Pushing(o.error))
  }

  lemma FirstStands(ws: seq<World>, steps: seq<Step>, t: Job, base: nat, env: Delivery.Attempt, o: Delivery.Outcome)
    requires |ws| == |steps| + 1 && base < |steps| && steps[base] == Attempt(t.id, t.ch, env, o)
    ensures AloneStands(ws, steps, t, base, 0, o)
  {
    assert AloneOwn(base, 0) == [] + [base];
    FollowsOn(ws, steps, t, [], base);
  }

  lemma RetryStands(c: Config, ws: seq<World>, steps: seq<Step>, t: Job, base: nat, k: nat, last: Delivery.Outcome,
                    env: Delivery.Attempt, o: Delivery.Outcome)
    requires Run(c, ws, steps) && AloneStands(ws, steps, t, base, k, last) && last.Raised? && k < t.policy.maxRetries
    requires base + 2 * k + 2 < |steps| && steps[base + 2 * k + 2] == Attempt(t.id, t.ch, env, o)
    requires steps[base + 2 * k + 1] == Tick(Retry.Delay(t.policy, k, t.draw(k)) * SECOND)
    ensures AloneStands(ws, steps, t, base, k + 1, o)
  {
    TickPasses(c, ws, steps, base + 2 * k + 1, Retry.Delay(t.policy, k, t.draw(k)) * SECOND);
    assert AloneOwn(base, k + 1) == AloneOwn(base, k) + [base + 2 * k + 2];
    FollowsOn(ws, steps, t, AloneOwn(base, k), base + 2 * k + 2);
  }

  ghost predicate Alone(steps: seq<Step>, base: nat, t: Job, env: nat -> Delivery.Attempt,
                        delays: seq<nat>, outs: seq<Delivery.Outcome>) {
    && |outs| == |delays| + 1 && RaisedBefore(outs) && |delays| <= t.policy.maxRetries
    && Retry.Drawn(t.policy, delays, t.draw)
    && forall k: nat | k <= |delays| :: AloneAt(steps, base, t.id, t.ch, env, delays, outs, k)
  }

  lemma {:induction false} PlanStands(c: Config, ws: seq<World>, steps: seq<Step>, base: nat, t: Job,
                                      env: nat -> Delivery.Attempt, delays: seq<nat>, outs: seq<Delivery.Outcome>,
                                          k: nat)
    requires Run(c, ws, steps) && Alone(steps, base, t, env, delays, outs) && k <= |delays|
    ensures AloneStands(ws, steps, t, base, k, outs[k])
  {
    assert AloneAt(steps, base, t.id, t.ch, env, delays, outs, k);
    if k == 0 {
      FirstStands(ws, steps, t, base, env(0), outs[0]);
    } else {
      assert AloneAt(steps, base, t.id, t.ch, env, delays, outs, k - 1);
      PlanStands(c, ws, steps, base, t, env, delays, outs, k - 1);
      RetryStands(c, ws, steps, t, base, k - 1, outs[k - 1], env(k), outs[k]);
    }
  }

  lemma PlanIsAlone(steps: seq<Step>, past: seq<Step>, t: Job, env: nat -> Delivery.Attempt, delays: seq<nat>,
                    outs: seq<Delivery.Outcome>)
    requires |outs| == |delays| + 1 && past + Plan(t.id, t.ch, env, delays, outs) <= steps
    requires RaisedBefore(outs) && |delays| <= t.policy.maxRetries && Retry.Drawn(t.policy, delays, t.draw)
    ensures Alone(steps, |past|, t, env, delays, outs)
  {
    forall k: nat | k <= |delays| ensures AloneAt(steps, |past|, t.id, t.ch, env, delays, outs, k) {
      PlannedAt(steps, past, t.id, t.ch, env, delays, outs, k);
    }
  }

  /** The last attempt's error is final: the dead letter and the database's step end the task. */
  lemma FailureFollows(ws: seq<World>, steps: seq<Step>, t: Job, base: nat, n: nat, o: Delivery.Outcome)
    requires AloneStands(ws, steps, t, base, n, o) && o.Raised? && n == t.policy.maxRetries
    requires base + 2 * n + 2 < |steps| && steps[base + 2 * n + 1] == PushDlq(Letter(t, o.error))
    requires steps[base + 2 * n + 2] == FinalFailure(Some(t.id), None, o.error)
    ensures var own := AloneSteps(base, n, true); Follows(ws, steps, t, own) && PhaseAfter(ws, steps, t, own) == Over
  {
    var own, tail := AloneOwn(base, n), base + 2 * n;
    FollowsOn(ws, steps, t, own, tail + 1);
    FollowsOn(ws, steps, t, own + [tail + 1], tail + 2);
    Associates(own, [tail + 1], [tail + 2]);
  }

  /** All own steps of a task on its own. */
  function AloneSteps(base: nat, n: nat, failed: bool): seq<nat> {
    AloneOwn(base, n) + (if failed then [base + 2 * n + 1] + [base + 2 * n + 2] else [])
  }

  /** So a task on its own, which retries what raises and handles the last error as final, is a task of the
   *  run, and over. */
  lemma PlanFollows(c: Config, ws: seq<World>, steps: seq<Step>, past: seq<Step>, t: Job,
                    env: nat -> Delivery.Attempt, delays: seq<nat>, outs: seq<Delivery.Outcome>)
    requires Run(c, ws, steps) && PlannedWhole(steps, past, t, env, delays, outs)
    ensures var own := AloneSteps(|past|, |delays|, outs[|delays|].Raised?);
            Follows(ws, steps, t, own) && PhaseAfter(ws, steps, t, own) == Over
  {
    WholeIsAlone(steps, past, t, env, delays, outs);
    AloneEnds(c, ws, steps, |past|, t, env, delays, outs);
  }

  /** All that the task does follows past: its plan and, when the last attempt has raised too, its end. */
  ghost predicate PlannedWhole(steps: seq<Step>, past: seq<Step>, t: Job, env: nat -> Delivery.Attempt,
                               delays: seq<nat>, outs: seq<Delivery.Outcome>) {
    && Guarded(t.ch) && |outs| == |delays| + 1 && RaisedBefore(outs)
    && |delays| <= t.policy.maxRetries && Retry.Drawn(t.policy, delays, t.draw)
    && past + Plan(t.id, t.ch, env, delays, outs) <= steps
    && (outs[|delays|].Raised? ==>
          && |delays| == t.policy.maxRetries
          && past + Plan(t.id, t.ch, env, delays, outs) +
             FinalSteps(WorkerOf(t.ch), [t.id, t.trace], outs[|delays|].error, t.stamp) <= steps)
  }

  lemma WholeIsAlone(steps: seq<Step>, past: seq<Step>, t: Job, env: nat -> Delivery.Attempt, delays: seq<nat>,
                     outs: seq<Delivery.Outcome>)
    requires PlannedWhole(steps, past, t, env, delays, outs)
    ensures Alone(steps, |past|, t, env, delays, outs) && EndsAlone(steps, |past|, t, delays, outs)
  {
    PlanIsAlone(steps, past, t, env, delays, outs);
    if outs[|delays|].Raised? {
      PlanEnds(steps, past, t, env, delays, outs);
    }
  }

  predicate EndsAlone(steps: seq<Step>, base: nat, t: Job, delays: seq<nat>, outs: seq<Delivery.Outcome>)
    requires |outs| == |delays| + 1
  {
    var n := |delays|;
    var o := outs[n];
    o.Raised? ==>
      && n == t.policy.maxRetries && base + 2 * n + 2 < |steps|
      && steps[base + 2 * n + 1] == PushDlq(Letter(t, o.error))
      && steps[base + 2 * n + 2] == FinalFailure(Some(t.id), None, o.error)
  }

  lemma PlanEnds(steps: seq<Step>, past: seq<Step>, t: Job, env: nat -> Delivery.Attempt, delays: seq<nat>,
                 outs: seq<Delivery.Outcome>)
    requires Guarded(t.ch) && |outs| == |delays| + 1 && outs[|delays|].Raised?
    requires past + Plan(t.id, t.ch, env, delays, outs) +
             FinalSteps(WorkerOf(t.ch), [t.id, t.trace], outs[|delays|].error, t.stamp) <= steps
    ensures var n := |past| + 2 * |delays|;
            && n + 2 < |steps| && steps[n + 1] == PushDlq(Letter(t, outs[|delays|].error))
            && steps[n + 2] == FinalFailure(Some(t.id), None, outs[|delays|].error)
  {
    FinalAfter(steps, past, Plan(t.id, t.ch, env, delays, outs), t, outs[|delays|].error);
  }

  lemma AloneEnds(c: Config, ws: seq<World>, steps: seq<Step>, base: nat, t: Job, env: nat -> Delivery.Attempt,
                  delays: seq<nat>, outs: seq<Delivery.Outcome>)
    requires Run(c, ws, steps) && Alone(steps, base, t, env, delays, outs) && EndsAlone(steps, base, t, delays, outs)
    ensures var own := AloneSteps(base, |delays|, outs[|delays|].Raised?);
            Follows(ws, steps, t, own) && PhaseAfter(ws, steps, t, own) == Over
  {
    var n := |delays|;
    PlanStands(c, ws, steps, base, t, env, delays, outs, n);
    if outs[n].Raised? {
      FailureFollows(ws, steps, t, base, n, outs[n]);
    } else {
      assert AloneOwn(base, n) + [] == AloneOwn(base, n);
    }
  }

  lemma FinalAfter(steps: seq<Step>, past: seq<Step>, plan: seq<Step>, t: Job, error: string)
    requires Guarded(t.ch)
    requires past + plan + FinalSteps(WorkerOf(t.ch), [t.id, t.trace], error, t.stamp) <= steps
    ensures var n := |past| + |plan|;
            && n + 1 < |steps| && steps[n] == PushDlq(Letter(t, error))
            && steps[n + 1] == FinalFailure(Some(t.id), None, error)
  {
    var f := FinalSteps(WorkerOf(t.ch), [t.id, t.trace], error, t.stamp);
    assert (past + plan + f)[|past| + |plan|] == f[0] && (past + plan + f)[|past| + |plan| + 1] == f[1];
  }
}

/** Provider calls that follow their checks after some time.
 *
 *  In System an attempt takes no time: its checks and its call share one instant. Here a call may be made up
 *  to d later than the first of its checks, while other workers go on. Each call still has its own checks in
 *  the Redis history, so the bounds hold with d added.
 */
module LateCalls {
  import opened Prelude
  import opened Guards

  /** A call, with the places of its checks in the history: the circuit check, the channel's admission and,
   *  on Telegram, the pass of the gate of its text and the service's admission. */
  datatype Late = Late(t: nat, channel: Channel, check: nat, hit: nat, pass: nat, message: nat,
                       digest: string, service: string)

  predicate CheckedBy(h: seq<Event>, i: nat, op: Op) {
    i < |h| && h[i].op == op && h[i].ok
  }

  /** The call's checks passed, and it is made at most d after each of them. */
  predicate Checked(h: seq<Event>, k: Late, d: nat) {
    && CheckedBy(h, k.check, CircuitCheck(k.channel)) && Soon(h[k.check], k, d)
    && CheckedBy(h, k.hit, ChannelHit(k.channel)) && Soon(h[k.hit], k, d)
    && (k.channel == TELEGRAM ==>
          && k.pass < |h| && Passed(h[k.pass], TelegramGate(k.digest)) && Soon(h[k.pass], k, d)
          && CheckedBy(h, k.message, ServiceHit(k.service)) && Soon(h[k.message], k, d))
  }

  predicate Soon(e: Event, k: Late, d: nat) { e.t <= k.t <= e.t + d }

  /** No two calls share a check. */
  predicate Apart(k: Late, l: Late) {
    k.hit != l.hit && (k.channel == TELEGRAM && l.channel == TELEGRAM ==> k.pass != l.pass && k.message != l.message)
  }

  ghost predicate Made(h: seq<Event>, calls: seq<Late>, d: nat) {
    && (forall i: nat | i < |calls| :: Checked(h, calls[i], d))
    && (forall i: nat, j: nat | i < j < |calls| :: Apart(calls[i], calls[j]))
  }

  function On(ch: Channel, from: nat, to: int): Late -> bool {
    (k: Late) => k.channel == ch && from <= k.t < to
  }

  function For(service: string, from: nat, to: int): Late -> bool {
    (k: Late) => k.channel == TELEGRAM && k.service == service && from <= k.t < to
  }

  function With(digest: string, from: nat, to: int): Late -> bool {
    (k: Late) => k.channel == TELEGRAM && k.digest == digest && from <= k.t < to
  }

  function Earlier(from: nat, d: nat): nat { if from < d then 0 else from - d }

  // ---------------------------------------------------------------- every call pays

  /** What p finds in the places that at picks, for the calls that q picks. */
  function Places(calls: seq<Late>, q: Late -> bool, at: Late -> nat): set<nat> {
    if calls == [] then {}
    else
      var n := |calls| - 1;
      Places(calls[..n], q, at) + (if q(calls[n]) then {at(calls[n])} else {})
  }

  lemma {:induction false} PlacesAre(calls: seq<Late>, q: Late -> bool, at: Late -> nat, x: nat)
    ensures x in Places(calls, q, at) <==> exists i: nat :: i < |calls| && q(calls[i]) && at(calls[i]) == x
  {
    if calls != [] {
      var n := |calls| - 1;
      PlacesAre(calls[..n], q, at, x);
      assert forall i: nat | i < n :: calls[..n][i] == calls[i];
    }
  }

  lemma {:induction false} PlacesCount(calls: seq<Late>, q: Late -> bool, at: Late -> nat)
    requires forall i: nat, j: nat | i < j < |calls| && q(calls[i]) && q(calls[j]) :: at(calls[i]) != at(calls[j])
    ensures |Places(calls, q, at)| == Count(calls, q)
  {
    if calls != [] {
      var n := |calls| - 1;
      PlacesCount(calls[..n], q, at);
      PlacesAre(calls[..n], q, at, at(calls[n]));
    }
  }

  lemma {:induction false} PlacesFit(h: seq<Event>, places: set<nat>, p: Event -> bool)
    requires forall i | i in places :: i < |h| && p(h[i])
    ensures |places| <= Count(h, p)
  {
    if h == [] {
      assert places == {};
    } else {
      var n := |h| - 1;
      var rest := places - {n};
      PlacesFit(h[..n], rest, p);
      if n in places {
        assert |rest| == |places| - 1;
      } else {
        assert rest == places;
      }
    }
  }

  /** Calls with checks of their own are at most as many as the checks. */
  lemma CallsPay(h: seq<Event>, calls: seq<Late>, q: Late -> bool, at: Late -> nat, p: Event -> bool)
    requires forall i: nat, j: nat | i < j < |calls| && q(calls[i]) && q(calls[j]) :: at(calls[i]) != at(calls[j])
    requires forall i: nat | i < |calls| && q(calls[i]) :: at(calls[i]) < |h| && p(h[at(calls[i])])
    ensures Count(calls, q) <= Count(h, p)
  {
    PlacesCount(calls, q, at);
    forall x | x in Places(calls, q, at) ensures x < |h| && p(h[x]) {
      PlacesAre(calls, q, at, x);
    }
    PlacesFit(h, Places(calls, q, at), p);
  }

  // ---------------------------------------------------------------- the bounds

  /** On a channel a window holds at most the limit for each bucket it and the delay before it reach into:
   *  (m + 2) times the limit when d is at most m windows, and twice the limit without delay. */
  lemma LateChannelBound(c: Config, h: seq<Event>, calls: seq<Late>, d: nat, ch: Channel, from: nat, m: nat)
    requires Legal(c, h) && Made(h, calls, d) && d <= m * WindowMs(c)
    ensures Count(calls, On(ch, from, from + WindowMs(c))) <= (m + 2) * Max(0, c.rateLimit)
  {
    var w, start := WindowMs(c), Earlier(from, d);
    var to := start + (m + 1) * w;
    assert (m + 1) * w == m * w + w;
    CallsPay(h, calls, On(ch, from, from + w), (k: Late) => k.hit, AdmittedBetween(ch, start, to));
    ChannelRateOver(c, h, ch, start, m + 1);
  }

  /** Any k hours hold at most (k + m + 1) * 5 Telegram calls of one service when d is at most m hours. */
  lemma LateServiceBound(c: Config, h: seq<Event>, calls: seq<Late>, d: nat, service: string, from: nat, k: nat, m: nat)
    requires Legal(c, h) && Made(h, calls, d) && d <= m * SERVICE_WINDOW
    ensures Count(calls, For(service, from, from + k * SERVICE_WINDOW)) <= (k + m + 1) * SERVICE_LIMIT
  {
    var start := Earlier(from, d);
    var to := start + (k + m) * SERVICE_WINDOW;
    CallsPay(h, calls, For(service, from, from + k * SERVICE_WINDOW), (x: Late) => x.message,
             ServicePass(service, start, to));
    ServiceRateBound(c, h, service, start, k + m);
  }

  /** Telegram calls with one text are bounded by elapsed time and d over the smallest window asked for. */
  lemma LateGateBound(c: Config, h: seq<Event>, calls: seq<Late>, d: nat, digest: string, from: nat, to: nat, w: nat)
    requires Legal(c, h) && Made(h, calls, d)
    requires forall e | e in h && Passed(e, TelegramGate(digest)) :: w <= e.op.ttl
    ensures var n := Count(calls, With(digest, from, to)); n >= 1 ==> (n - 1) * w < to - from + d
  {
    var start := Earlier(from, d);
    var n, passes := Count(calls, With(digest, from, to)), Count(h, PassesBetween(TelegramGate(digest), start, to));
    CallsPay(h, calls, With(digest, from, to), (x: Late) => x.pass, PassesBetween(TelegramGate(digest), start, to));
    GateRateBound(c, h, TelegramGate(digest), start, to, w);
    if n >= 1 {
      Grows(n - 1, passes - 1, w);
    }
  }

  lemma Grows(x: nat, y: nat, w: nat)
    requires x <= y
    ensures x * w <= y * w
  {
  }

  /** A call is made at most d after any opening of its channel's circuit, or not before CB_OPEN_SECONDS after
   *  it: an opening can be overtaken only by calls that were checked before it. */
  lemma LateCircuitBound(c: Config, h: seq<Event>, k: Late, d: nat, o: nat)
    requires Legal(c, h) && Checked(h, k, d)
    requires CheckedBy(h, o, Failure(k.channel))
    ensures k.t <= h[o].t + d || h[o].t + c.cbOpenSeconds * SECOND <= k.t
  {
    if o < k.check {
      OpenedBefore(h[..k.check], k.channel, o);
      LegalPrefix(c, h, k.check + 1);
      LegalPrefix(c, h, k.check);
      assert h[..k.check + 1][..k.check] == h[..k.check];
      CircuitRefinesHistory(c, h[..k.check], h[k.check].t, k.channel);
      LastIsLatest(c, h[..k.check], k.channel, o);
    } else {
      Ordered(c, h, k.check, o);
    }
  }

  lemma {:induction false} OpenedBefore(h: seq<Event>, ch: Channel, o: nat)
    requires CheckedBy(h, o, Failure(ch))
    ensures LastOpening(h, ch).Some?
  {
    if o < |h| - 1 {
      OpenedBefore(h[..|h| - 1], ch, o);
    }
  }

  lemma {:induction false} LastIsLatest(c: Config, h: seq<Event>, ch: Channel, o: nat)
    requires Legal(c, h) && CheckedBy(h, o, Failure(ch))
    ensures LastOpening(h, ch).Some? && h[o].t <= LastOpening(h, ch).value
  {
    if h[|h| - 1].op == Failure(ch) && h[|h| - 1].ok {
      Ordered(c, h, o, |h| - 1);
    } else {
      LastIsLatest(c, h[..|h| - 1], ch, o);
    }
  }
}

/** The Redis keys that guard a send, as a history of guard operations.
 *
 *  Every guard in worker.py is a short operation on one or two Redis keys. An Event is one such
 *  operation with its time and verdict; a history is any interleaving of the operations of all
 *  workers. After replays a history on the keyspace, Legal says that the verdicts are the ones
 *  Redis gives. The theorems bound what a legal history can admit.
 *
 *  An operation of two commands is taken as one event: INCR with EXPIRE, SETNX with EXPIRE, the
 *  replay lock's GET with DEL (ReplayLockProtocol takes them apart), and a failure's INCR with the
 *  opening it calls for (CircuitProtocol takes them apart).
 *
 *  Time is in milliseconds, the resolution at which Redis expires keys.
 */
module Guards {
  import opened Prelude

  datatype Channel = VOICE | EMAIL | WHATSAPP | TELEGRAM | CALENDAR

  /** What a set-if-absent protects: an incoming event key, or one Telegram text for one chat. */
  datatype Gate = EventGate(key: string) | TelegramGate(digest: string)

  datatype Key =
    | CircuitOpen(ch: Channel)
    | CircuitFailures(ch: Channel)
    | RateBucket(ch: Channel, bucket: nat)
    | ServiceWindow(service: string)
    | GateKey(gate: Gate)
    | ReplayLock

  datatype Cell = Cell(n: int, expiry: Option<nat>)

  type Keyspace = map<Key, Cell>

  datatype RawConfig = RawConfig(
    cbThreshold: int, cbOpenSeconds: nat,
    rateLimit: int, rateWindowSeconds: nat,
    lockTtlSeconds: nat,
    dlqMaxItems: int, replayBatch: int, opsMaxLimit: int, dryRun: bool,
    staleMinutes: nat)

  /** The deployment's settings; Redis refuses a zero TTL and the bucket number divides by the window. */
  type Config = c: RawConfig
    | c.cbOpenSeconds >= 1 && c.rateWindowSeconds >= 1 && c.lockTtlSeconds >= 1
    witness RawConfig(5, 60, 60, 60, 60, 1000, 10, 100, false, 30)

  const SECOND: nat := 1000
  const SERVICE_LIMIT: nat := 5
  const SERVICE_WINDOW: nat := 3600 * SECOND
  const EVENT_TTL: nat := 300 * SECOND

  datatype Op =
    | CircuitCheck(ch: Channel)             // passes when the circuit is not open
    | Failure(ch: Channel)                  // true when this failure opened the circuit
    | Success(ch: Channel)
    | ChannelHit(ch: Channel)               // true when the channel limit admits the send
    | ServiceHit(service: string)           // true when the service limit admits the send
    | Acquire(gate: Gate, ttl: nat)         // true when the key was absent
    | Lock(token: int)
    | Unlock(token: int)

  datatype Event = Event(t: nat, op: Op, ok: bool)

  predicate Live(ks: Keyspace, t: nat, k: Key) {
    k in ks && (ks[k].expiry.Some? ==> t < ks[k].expiry.value)
  }

  /** INCR: an absent or expired key counts from zero and has no expiry. */
  function Incr(ks: Keyspace, t: nat, k: Key): Cell {
    if Live(ks, t, k) then Cell(ks[k].n + 1, ks[k].expiry) else Cell(1, None)
  }

  /** INCR, then EXPIRE when the count is one. */
  function Hit(ks: Keyspace, t: nat, k: Key, ttl: nat): Cell {
    var cell := Incr(ks, t, k);
    if cell.n == 1 then Cell(1, Some(t + ttl)) else cell
  }

  function WindowMs(c: Config): nat { c.rateWindowSeconds * SECOND }

  function Bucket(c: Config, t: nat): nat { t / SECOND / c.rateWindowSeconds }

  function Exec(c: Config, ks: Keyspace, t: nat, op: Op): (Keyspace, bool) {
    match op
    case CircuitCheck(ch) => (ks, !Live(ks, t, CircuitOpen(ch)))
    case Failure(ch) =>
      var cell := Incr(ks, t, CircuitFailures(ch));
      if cell.n >= c.cbThreshold then
        (ks[CircuitOpen(ch) := Cell(1, Some(t + c.cbOpenSeconds * SECOND))] - {CircuitFailures(ch)}, true)
      else
        (ks[CircuitFailures(ch) := cell], false)
    case Success(ch) => (ks - {CircuitFailures(ch)}, true)
    case ChannelHit(ch) =>
      var k := RateBucket(ch, Bucket(c, t));
      var cell := Hit(ks, t, k, WindowMs(c));
      (ks[k := cell], cell.n <= c.rateLimit)
    case ServiceHit(s) =>
      var cell := Hit(ks, t, ServiceWindow(s), SERVICE_WINDOW);
      (ks[ServiceWindow(s) := cell], cell.n <= SERVICE_LIMIT)
    case Acquire(g, ttl) =>
      if Live(ks, t, GateKey(g)) then (ks, false)
      else (ks[GateKey(g) := Cell(1, Some(t + ttl))], true)
    case Lock(token) =>
      if Live(ks, t, ReplayLock) then (ks, false)
      else (ks[ReplayLock := Cell(token, Some(t + c.lockTtlSeconds * SECOND))], true)
    case Unlock(token) =>
      if Live(ks, t, ReplayLock) && ks[ReplayLock].n == token then (ks - {ReplayLock}, true)
      else (ks, false)
  }

  /** The keyspace a history leaves behind. */
  function After(c: Config, h: seq<Event>): Keyspace {
    if h == [] then map[]
    else Exec(c, After(c, h[..|h| - 1]), h[|h| - 1].t, h[|h| - 1].op).0
  }

  function Verdict(c: Config, h: seq<Event>, t: nat, op: Op): bool {
    Exec(c, After(c, h), t, op).1
  }

  function Clock(h: seq<Event>): nat { if h == [] then 0 else h[|h| - 1].t }

  /** Time never runs backwards and every verdict is the one Redis gave. */
  predicate Legal(c: Config, h: seq<Event>) {
    h == [] ||
    var p, e := h[..|h| - 1], h[|h| - 1];
    Legal(c, p) && Clock(p) <= e.t && e.ok == Verdict(c, p, e.t, e.op)
  }

  lemma {:induction false} LegalPrefix(c: Config, h: seq<Event>, n: nat)
    requires Legal(c, h) && n <= |h|
    ensures Legal(c, h[..n])
  {
    if n == |h| {
      assert h[..n] == h;
    } else {
      LegalPrefix(c, h[..|h| - 1], n);
      assert h[..|h| - 1][..n] == h[..n];
    }
  }

  lemma {:induction false} ClockIsLatest(c: Config, h: seq<Event>)
    requires Legal(c, h)
    ensures forall e | e in h :: e.t <= Clock(h)
  {
    if h != [] {
      ClockIsLatest(c, h[..|h| - 1]);
    }
  }

  lemma {:induction false} Ordered(c: Config, h: seq<Event>, i: nat, j: nat)
    requires Legal(c, h) && i <= j < |h|
    ensures h[i].t <= h[j].t
  {
    LegalPrefix(c, h, j + 1);
    ClockIsLatest(c, h[..j + 1]);
    assert h[i] in h[..j + 1];
  }

  // ---------------------------------------------------------------- channel rate limit

  function HitsIn(c: Config, ch: Channel, b: nat): Event -> bool {
    (e: Event) => e.op == ChannelHit(ch) && Bucket(c, e.t) == b
  }

  function AdmittedIn(c: Config, ch: Channel, b: nat): Event -> bool {
    (e: Event) => e.op == ChannelHit(ch) && Bucket(c, e.t) == b && e.ok
  }

  function AdmittedBetween(ch: Channel, from: nat, to: int): Event -> bool {
    (e: Event) => e.op == ChannelHit(ch) && e.ok && from <= e.t < to
  }

  function BucketEnd(c: Config, b: nat): nat { (b + 1) * WindowMs(c) }

  /** A millisecond lies in the bucket its whole second lies in. */
  lemma BucketSpan(c: Config, t: nat)
    ensures Bucket(c, t) * WindowMs(c) <= t < BucketEnd(c, Bucket(c, t)) == Bucket(c, t) * WindowMs(c) + WindowMs(c)
  {
    var w, s := c.rateWindowSeconds, t / SECOND;
    var b := s / w;
    assert s == b * w + s % w;
    assert b * WindowMs(c) == b * w * SECOND;
  }

  /** The key of a bucket holds the number of hits in it and cannot expire before the bucket ends. */
  ghost predicate BucketKept(c: Config, h: seq<Event>, ch: Channel, b: nat) {
    var n, k, ks := Count(h, HitsIn(c, ch, b)), RateBucket(ch, b), After(c, h);
    if n == 0 then k !in ks
    else k in ks && ks[k].n == n && ks[k].expiry.Some? && BucketEnd(c, b) <= ks[k].expiry.value
  }

  lemma {:induction false} BucketCounts(c: Config, h: seq<Event>, ch: Channel, b: nat)
    requires Legal(c, h)
    ensures BucketKept(c, h, ch, b)
    ensures Count(h, AdmittedIn(c, ch, b)) == Min(Count(h, HitsIn(c, ch, b)), Max(0, c.rateLimit))
  {
    if h != [] {
      BucketCounts(c, h[..|h| - 1], ch, b);
      BucketSpan(c, h[|h| - 1].t);
    }
  }

  /** A send is admitted exactly while its bucket has seen fewer attempts than the limit. */
  lemma ChannelAdmitsIffRoom(c: Config, h: seq<Event>, t: nat, ch: Channel)
    requires Legal(c, h)
    ensures Verdict(c, h, t, ChannelHit(ch)) <==> Count(h, HitsIn(c, ch, Bucket(c, t))) < c.rateLimit
  {
    BucketCounts(c, h, ch, Bucket(c, t));
    BucketSpan(c, t);
  }

  /** The bound documented as "per minute": no interval of one window admits more than twice the limit. */
  lemma ChannelRateBound(c: Config, h: seq<Event>, ch: Channel, from: nat)
    requires Legal(c, h)
    ensures Count(h, AdmittedBetween(ch, from, from + WindowMs(c))) <= 2 * Max(0, c.rateLimit)
  {
    ChannelRateOver(c, h, ch, from, 1);
  }

  lemma Neighbours(b: nat, d: nat, w: nat, from: nat, t: nat)
    requires b * w <= from < b * w + w && d * w <= t < d * w + w && from <= t < from + w
    ensures b <= d <= b + 1
  {
    assert (d + 1) * w == d * w + w && (b + 2) * w == b * w + w + w;
    Cancel(b, d + 1, w);
    Cancel(d, b + 2, w);
  }

  lemma Cancel(x: nat, y: nat, w: nat)
    requires x * w < y * w
    ensures x < y
  {
  }

  function Burst(h: seq<Event>, ch: Channel, t: nat, n: nat): seq<Event> {
    if n == 0 then h else Burst(h, ch, t, n - 1) + [Event(t, ChannelHit(ch), true)]
  }

  /** g is h with n more hits admitted at t. */
  ghost predicate Bursts(c: Config, h: seq<Event>, g: seq<Event>, ch: Channel, t: nat, n: nat, from: nat, to: int) {
    Legal(c, g) && Clock(g) <= t && Count(g, HitsIn(c, ch, Bucket(c, t))) == n &&
    Count(g, AdmittedBetween(ch, from, to)) == Count(h, AdmittedBetween(ch, from, to)) + n
  }

  lemma HitAdmitted(c: Config, h: seq<Event>, g: seq<Event>, ch: Channel, t: nat, n: nat, from: nat, to: int)
    requires Bursts(c, h, g, ch, t, n, from, to) && n < c.rateLimit && from <= t < to
    ensures Bursts(c, h, g + [Event(t, ChannelHit(ch), true)], ch, t, n + 1, from, to)
  {
    var e := Event(t, ChannelHit(ch), true);
    BucketCounts(c, g, ch, Bucket(c, t));
    BucketSpan(c, t);
    CountSnoc(g, e, HitsIn(c, ch, Bucket(c, t)));
    CountSnoc(g, e, AdmittedBetween(ch, from, to));
    assert (g + [e])[..|g|] == g;
  }

  /** A bucket nobody has used yet admits a burst of the whole limit at one instant. */
  lemma {:induction false} BurstAdmitted(c: Config, h: seq<Event>, ch: Channel, t: nat, n: nat, from: nat, to: int)
    requires Legal(c, h) && Clock(h) <= t && n <= c.rateLimit && from <= t < to
    requires Count(h, HitsIn(c, ch, Bucket(c, t))) == 0
    ensures Bursts(c, h, Burst(h, ch, t, n), ch, t, n, from, to)
  {
    if n > 0 {
      BurstAdmitted(c, h, ch, t, n - 1, from, to);
      HitAdmitted(c, h, Burst(h, ch, t, n - 1), ch, t, n - 1, from, to);
    }
  }

  /** An interval that reaches into two buckets can admit twice the limit, so ChannelRateBound is exact. */
  lemma TwiceTheLimitInOneWindow(c: Config, ch: Channel, from: nat, to: nat) returns (h: seq<Event>)
    requires c.rateLimit >= 0 && from < to && Bucket(c, from) != Bucket(c, to - 1)
    ensures Legal(c, h) && Count(h, AdmittedBetween(ch, from, to)) == 2 * c.rateLimit
  {
    var g := Burst([], ch, from, c.rateLimit);
    BurstAdmitted(c, [], ch, from, c.rateLimit, from, to);
    BurstInBucket(c, ch, from, c.rateLimit);
    CountNone(g, HitsIn(c, ch, Bucket(c, to - 1)));
    h := Burst(g, ch, to - 1, c.rateLimit);
    BurstAdmitted(c, g, ch, to - 1, c.rateLimit, from, to);
  }

  function AdmittedFrom(c: Config, ch: Channel, b: nat, n: nat): Event -> bool {
    (e: Event) => e.op == ChannelHit(ch) && e.ok && b <= Bucket(c, e.t) < b + n
  }

  /** n buckets together admit at most n times the limit. */
  lemma {:induction false} BucketsTogether(c: Config, h: seq<Event>, ch: Channel, b: nat, n: nat)
    requires Legal(c, h)
    ensures Count(h, AdmittedFrom(c, ch, b, n)) <= n * Max(0, c.rateLimit)
  {
    if n == 0 {
      CountNone(h, AdmittedFrom(c, ch, b, 0));
    } else {
      BucketsTogether(c, h, ch, b, n - 1);
      BucketCounts(c, h, ch, b + n - 1);
      CountCovered(h, AdmittedFrom(c, ch, b, n), AdmittedFrom(c, ch, b, n - 1), AdmittedIn(c, ch, b + n - 1));
      assert (n - 1) * Max(0, c.rateLimit) + Max(0, c.rateLimit) == n * Max(0, c.rateLimit);
    }
  }

  /** k windows in a row admit at most k + 1 times the limit. */
  lemma ChannelRateOver(c: Config, h: seq<Event>, ch: Channel, from: nat, k: nat)
    requires Legal(c, h)
    ensures Count(h, AdmittedBetween(ch, from, from + k * WindowMs(c))) <= (k + 1) * Max(0, c.rateLimit)
  {
    var b, to := Bucket(c, from), from + k * WindowMs(c);
    forall e | e in h && AdmittedBetween(ch, from, to)(e) ensures AdmittedFrom(c, ch, b, k + 1)(e) {
      BucketsGrow(c, from, e.t);
      BucketsApart(c, from, e.t, k);
    }
    CountCovered(h, AdmittedBetween(ch, from, to), AdmittedFrom(c, ch, b, k + 1), Nothing());
    CountNone(h, Nothing());
    BucketsTogether(c, h, ch, b, k + 1);
  }

  lemma BucketsApart(c: Config, from: nat, t: nat, k: nat)
    requires t < from + k * WindowMs(c)
    ensures Bucket(c, t) <= Bucket(c, from) + k
  {
    BucketSpan(c, from);
    BucketSpan(c, t);
    var b, w := Bucket(c, from), WindowMs(c);
    assert (b + 1 + k) * w == b * w + w + k * w;
    Cancel(Bucket(c, t), b + 1 + k, w);
  }

  ghost predicate KeepsLimit(c: Config, ch: Channel, from: nat, to: nat) {
    forall h | Legal(c, h) :: Count(h, AdmittedBetween(ch, from, to)) <= c.rateLimit
  }

  lemma BucketsGrow(c: Config, s: nat, t: nat)
    requires s <= t
    ensures Bucket(c, s) <= Bucket(c, t)
  {
    BucketSpan(c, s);
    BucketSpan(c, t);
    var w := WindowMs(c);
    assert (Bucket(c, t) + 1) * w == Bucket(c, t) * w + w;
    Cancel(Bucket(c, s), Bucket(c, t) + 1, w);
  }

  /** The limit holds of an interval, over every history, exactly when the interval lies in one bucket. */
  lemma LimitHoldsIffOneBucket(c: Config, ch: Channel, from: nat, to: nat)
    requires c.rateLimit >= 1 && from < to
    ensures KeepsLimit(c, ch, from, to) <==> Bucket(c, from) == Bucket(c, to - 1)
  {
    var b := Bucket(c, from);
    if b == Bucket(c, to - 1) {
      forall h | Legal(c, h) ensures Count(h, AdmittedBetween(ch, from, to)) <= c.rateLimit {
        forall e | e in h && AdmittedBetween(ch, from, to)(e) ensures AdmittedIn(c, ch, b)(e) {
          BucketsGrow(c, from, e.t);
          BucketsGrow(c, e.t, to - 1);
        }
        CountCovered(h, AdmittedBetween(ch, from, to), AdmittedIn(c, ch, b), Nothing());
        CountNone(h, Nothing());
        BucketCounts(c, h, ch, b);
      }
    } else {
      var h := TwiceTheLimitInOneWindow(c, ch, from, to);
    }
  }

  function Nothing(): Event -> bool { (e: Event) => false }

  /** The limit named "per minute" holds of the windows that begin at a bucket boundary, and of no other. */
  lemma WindowKeepsLimitIffAligned(c: Config, ch: Channel, from: nat)
    requires c.rateLimit >= 1
    ensures KeepsLimit(c, ch, from, from + WindowMs(c)) <==> from % WindowMs(c) == 0
  {
    var w := WindowMs(c);
    LimitHoldsIffOneBucket(c, ch, from, from + w);
    BucketSpan(c, from);
    BucketSpan(c, from + w - 1);
    Aligned(from, Bucket(c, from), Bucket(c, from + w - 1), w);
  }

  lemma Aligned(from: nat, b: nat, d: nat, w: nat)
    requires w > 0 && b * w <= from < b * w + w && d * w <= from + w - 1 < d * w + w
    ensures b == d <==> from % w == 0
  {
    Remainder(from, b, w);
    Neighbours(b, d, w, from, from + w - 1);
    assert (b + 1) * w == b * w + w;
  }

  lemma Remainder(from: nat, b: nat, w: nat)
    requires w > 0 && b * w <= from < b * w + w
    ensures from % w == from - b * w
  {
    var q := from / w;
    assert from == q * w + from % w;
    assert (q + 1) * w == q * w + w && (b + 1) * w == b * w + w;
    Cancel(b, q + 1, w);
    Cancel(q, b + 1, w);
  }

  lemma {:induction false} BurstInBucket(c: Config, ch: Channel, t: nat, n: nat)
    ensures forall e | e in Burst([], ch, t, n) :: e.t == t
  {
    if n > 0 {
      BurstInBucket(c, ch, t, n - 1);
    }
  }

  // ---------------------------------------------------------------- Telegram service limit

  /** When the service's current window began: the latest hit that found no live window. */
  function WindowStart(h: seq<Event>, s: string): Option<nat>
    decreases |h|, 1
  {
    if h == [] then None
    else if Opens(h, s) then Some(h[|h| - 1].t)
    else WindowStart(h[..|h| - 1], s)
  }

  /** The last event of h opens a window for the service. */
  predicate Opens(h: seq<Event>, s: string)
    requires h != []
    decreases |h|, 0
  {
    var p, e := h[..|h| - 1], h[|h| - 1];
    e.op == ServiceHit(s) &&
    match WindowStart(p, s)
    case None => true
    case Some(start) => start + SERVICE_WINDOW <= e.t
  }

  function WindowHits(h: seq<Event>, s: string): nat {
    if h == [] then 0
    else if Opens(h, s) then 1
    else WindowHits(h[..|h| - 1], s) + (if h[|h| - 1].op == ServiceHit(s) then 1 else 0)
  }

  /** How many windows began at or after from. */
  function Windows(h: seq<Event>, s: string, from: nat): nat {
    if h == [] then 0
    else Windows(h[..|h| - 1], s, from) + (if Opens(h, s) && from <= h[|h| - 1].t then 1 else 0)
  }

  function ServicePass(s: string, from: nat, to: int): Event -> bool {
    (e: Event) => e.op == ServiceHit(s) && e.ok && from <= e.t < to
  }

  /** The service key is the window of the history: same start, same number of hits. */
  lemma {:induction false} ServiceKeyIsWindow(c: Config, h: seq<Event>, s: string)
    requires Legal(c, h)
    ensures var k, ks := ServiceWindow(s), After(c, h);
            match WindowStart(h, s)
            case None => k !in ks && WindowHits(h, s) == 0
            case Some(start) =>
              start <= Clock(h) && k in ks && WindowHits(h, s) >= 1 &&
              ks[k] == Cell(WindowHits(h, s), Some(start + SERVICE_WINDOW))
  {
    if h != [] {
      ServiceKeyIsWindow(c, h[..|h| - 1], s);
    }
  }

  /** A message is admitted exactly when its service's window is over or has fewer than five hits. */
  lemma ServiceAdmitsIffRoom(c: Config, h: seq<Event>, t: nat, s: string)
    requires Legal(c, h)
    ensures Verdict(c, h, t, ServiceHit(s)) <==>
            match WindowStart(h, s)
            case None => true
            case Some(start) => start + 3600 * 1000 <= t || WindowHits(h, s) < 5
  {
    ServiceKeyIsWindow(c, h, s);
  }

  /** Windows are disjoint and each admits at most SERVICE_LIMIT, so passes are paid for by windows:
   *  those begun since from, and the one that was already running. */
  lemma {:induction false} PassesPerWindow(c: Config, h: seq<Event>, s: string, from: nat, to: int)
    requires Legal(c, h) && Clock(h) < to
    ensures var passes, windows := Count(h, ServicePass(s, from, to)), Windows(h, s, from);
            (Clock(h) < from ==> passes == 0) &&
            match WindowStart(h, s)
            case None => passes == 0 && windows == 0
            case Some(start) =>
              if start < from then windows == 0 && passes <= Min(SERVICE_LIMIT, WindowHits(h, s))
              else windows >= 1 && from + (windows - 1) * SERVICE_WINDOW <= start &&
                   passes <= SERVICE_LIMIT * windows + Min(SERVICE_LIMIT, WindowHits(h, s))
  {
    if h != [] {
      PassesPerWindow(c, h[..|h| - 1], s, from, to);
      ServiceKeyIsWindow(c, h[..|h| - 1], s);
    }
  }

  /** Any k windows' worth of time lets at most (k + 1) * 5 messages of one service through. */
  lemma {:induction false} ServiceRateBound(c: Config, h: seq<Event>, s: string, from: nat, k: nat)
    requires Legal(c, h)
    ensures Count(h, ServicePass(s, from, from + k * SERVICE_WINDOW)) <= (k + 1) * SERVICE_LIMIT
  {
    var to := from + k * SERVICE_WINDOW;
    if h != [] {
      if to <= Clock(h) {
        ServiceRateBound(c, h[..|h| - 1], s, from, k);
      } else {
        PassesPerWindow(c, h, s, from, to);
        ServiceKeyIsWindow(c, h, s);
      }
    }
  }

  // ---------------------------------------------------------------- set-if-absent gates

  predicate Passed(e: Event, g: Gate) {
    e.op.Acquire? && e.op.gate == g && e.ok
  }

  /** The latest event that passed the gate. */
  function LastPass(h: seq<Event>, g: Gate): (r: Option<nat>)
    ensures r.Some? ==> r.value < |h| && Passed(h[r.value], g)
  {
    if h == [] then None
    else if Passed(h[|h| - 1], g) then Some(|h| - 1)
    else LastPass(h[..|h| - 1], g)
  }

  lemma {:induction false} LastPassIsLast(h: seq<Event>, g: Gate)
    ensures match LastPass(h, g)
            case None => forall i: nat | i < |h| :: !Passed(h[i], g)
            case Some(l) => forall i: nat | l < i < |h| :: !Passed(h[i], g)
  {
    if h != [] {
      LastPassIsLast(h[..|h| - 1], g);
    }
  }

  lemma {:induction false} GateKeyIsLastPass(c: Config, h: seq<Event>, g: Gate)
    requires Legal(c, h)
    ensures var k, ks := GateKey(g), After(c, h);
            match LastPass(h, g)
            case None => k !in ks
            case Some(l) => k in ks && ks[k].expiry == Some(h[l].t + h[l].op.ttl)
  {
    LastPassIsLast(h, g);
    if h != [] {
      LastPassIsLast(h[..|h| - 1], g);
      GateKeyIsLastPass(c, h[..|h| - 1], g);
    }
  }

  /** An attempt is refused exactly when the latest pass still covers its time. */
  lemma {:induction false} GateRefusesIffCovered(c: Config, h: seq<Event>, t: nat, g: Gate, ttl: nat)
    requires Legal(c, h)
    ensures !Verdict(c, h, t, Acquire(g, ttl)) <==>
            LastPass(h, g).Some? && var e := h[LastPass(h, g).value]; t < e.t + e.op.ttl
  {
    LastPassIsLast(h, g);
    GateKeyIsLastPass(c, h, g);
  }

  /** Two passes of one gate are at least the earlier one's window apart, whatever the later one asks for. */
  lemma {:induction false} GateSpacing(c: Config, h: seq<Event>, g: Gate, i: nat, j: nat)
    requires Legal(c, h) && i < j < |h| && Passed(h[i], g) && Passed(h[j], g)
    ensures h[i].t + h[i].op.ttl <= h[j].t
    decreases |h|
  {
    var p := h[..|h| - 1];
    if j < |p| {
      GateSpacing(c, p, g, i, j);
    } else {
      LastPassIsLast(p, g);
      GateKeyIsLastPass(c, p, g);
      var l := LastPass(p, g).value;
      if i < l {
        GateSpacing(c, p, g, i, l);
        Ordered(c, h, l, j);
      }
    }
  }

  function PassesBetween(g: Gate, from: nat, to: int): Event -> bool {
    (e: Event) => Passed(e, g) && from <= e.t < to
  }

  /** n passes since from put the latest at least n - 1 windows later. */
  ghost predicate SpreadOut(h: seq<Event>, g: Gate, from: nat, w: nat, n: nat) {
    match LastPass(h, g)
    case None => n == 0
    case Some(l) => if h[l].t < from then n == 0 else n >= 1 && from + (n - 1) * w <= h[l].t
  }

  lemma SpreadStep(c: Config, p: seq<Event>, e: Event, g: Gate, from: nat, w: nat, n: nat)
    requires Legal(c, p + [e]) && SpreadOut(p, g, from, w, n)
    requires Passed(e, g) && (LastPass(p, g).Some? ==> w <= p[LastPass(p, g).value].op.ttl)
    ensures if from <= e.t then SpreadOut(p + [e], g, from, w, n + 1) else n == 0 && SpreadOut(p + [e], g, from, w, 0)
  {
    if LastPass(p, g).Some? {
      GateSpacing(c, p + [e], g, LastPass(p, g).value, |p|);
      assert n >= 1 ==> (n - 1) * w + w == n * w;
    }
  }

  lemma {:induction false} PassesSpread(c: Config, h: seq<Event>, g: Gate, from: nat, to: int, w: nat)
    requires Legal(c, h) && Clock(h) < to
    requires forall e | e in h && Passed(e, g) :: w <= e.op.ttl
    ensures SpreadOut(h, g, from, w, Count(h, PassesBetween(g, from, to)))
  {
    if h != [] {
      var p, e := h[..|h| - 1], h[|h| - 1];
      PassesSpread(c, p, g, from, to, w);
      if Passed(e, g) {
        assert p + [e] == h;
        SpreadStep(c, p, e, g, from, w, Count(p, PassesBetween(g, from, to)));
      }
    }
  }

  /** Sends that pass one gate are bounded by elapsed time over the smallest window asked for. */
  lemma {:induction false} GateRateBound(c: Config, h: seq<Event>, g: Gate, from: nat, to: nat, w: nat)
    requires Legal(c, h)
    requires forall e | e in h && Passed(e, g) :: w <= e.op.ttl
    ensures var n := Count(h, PassesBetween(g, from, to)); n >= 1 ==> (n - 1) * w < to - from
  {
    if h != [] {
      if to <= Clock(h) {
        GateRateBound(c, h[..|h| - 1], g, from, to, w);
      } else {
        PassesSpread(c, h, g, from, to, w);
        if LastPass(h, g).Some? {
          Ordered(c, h, LastPass(h, g).value, |h| - 1);
        }
      }
    }
  }

  // ---------------------------------------------------------------- circuit breaker

  /** Failures recorded on the channel since its last success or opening. */
  function Streak(h: seq<Event>, ch: Channel): nat {
    if h == [] then 0
    else
      var p, e := h[..|h| - 1], h[|h| - 1];
      if e.op == Success(ch) || (e.op == Failure(ch) && e.ok) then 0
      else if e.op == Failure(ch) then Streak(p, ch) + 1
      else Streak(p, ch)
  }

  /** When the channel's circuit was last opened. A success does not close an open circuit. */
  function LastOpening(h: seq<Event>, ch: Channel): Option<nat> {
    if h == [] then None
    else if h[|h| - 1].op == Failure(ch) && h[|h| - 1].ok then Some(h[|h| - 1].t)
    else LastOpening(h[..|h| - 1], ch)
  }

  /** The stored counter is the streak, and is always below the threshold. */
  lemma {:induction false} CounterIsStreak(c: Config, h: seq<Event>, ch: Channel)
    requires Legal(c, h)
    ensures var k, ks := CircuitFailures(ch), After(c, h);
            if Streak(h, ch) == 0 then k !in ks else k in ks && ks[k] == Cell(Streak(h, ch), None)
    ensures Streak(h, ch) < Max(1, c.cbThreshold)
  {
    if h != [] {
      CounterIsStreak(c, h[..|h| - 1], ch);
    }
  }

  lemma {:induction false} OpenKeyIsLastOpening(c: Config, h: seq<Event>, ch: Channel)
    requires Legal(c, h)
    ensures var k, ks := CircuitOpen(ch), After(c, h);
            match LastOpening(h, ch)
            case None => k !in ks
            case Some(t) => k in ks && ks[k] == Cell(1, Some(t + c.cbOpenSeconds * SECOND))
  {
    if h != [] {
      OpenKeyIsLastOpening(c, h[..|h| - 1], ch);
    }
  }

  /** The breaker refines its history: it opens exactly on the failure that completes the streak,
   *  and lets a send through exactly when the last opening is CB_OPEN_SECONDS old. */
  lemma CircuitRefinesHistory(c: Config, h: seq<Event>, t: nat, ch: Channel)
    requires Legal(c, h)
    ensures Verdict(c, h, t, Failure(ch)) <==> Streak(h, ch) + 1 >= c.cbThreshold
    ensures Verdict(c, h, t, CircuitCheck(ch)) <==>
            match LastOpening(h, ch) case None => true case Some(o) => o + c.cbOpenSeconds * SECOND <= t
  {
    CounterIsStreak(c, h, ch);
    OpenKeyIsLastOpening(c, h, ch);
  }

  predicate OfCircuit(op: Op, ch: Channel) {
    op == Failure(ch) || op == Success(ch) || op == CircuitCheck(ch)
  }

  function CircuitEvents(h: seq<Event>, ch: Channel): seq<Event> {
    if h == [] then []
    else CircuitEvents(h[..|h| - 1], ch) + (if OfCircuit(h[|h| - 1].op, ch) then [h[|h| - 1]] else [])
  }

  lemma CircuitSnoc(h: seq<Event>, e: Event, ch: Channel)
    ensures Streak(h + [e], ch) ==
            if e.op == Success(ch) || (e.op == Failure(ch) && e.ok) then 0
            else Streak(h, ch) + (if e.op == Failure(ch) then 1 else 0)
    ensures LastOpening(h + [e], ch) == if e.op == Failure(ch) && e.ok then Some(e.t) else LastOpening(h, ch)
    ensures CircuitEvents(h + [e], ch) == CircuitEvents(h, ch) + (if OfCircuit(e.op, ch) then [e] else [])
  {
    assert (h + [e])[..|h|] == h;
  }

  lemma CircuitEventsStep(h: seq<Event>, own: seq<Event>, e: Event, ch: Channel)
    requires own == CircuitEvents(h, ch) && Streak(own, ch) == Streak(h, ch) &&
             LastOpening(own, ch) == LastOpening(h, ch)
    ensures var g := CircuitEvents(h + [e], ch);
            Streak(g, ch) == Streak(h + [e], ch) && LastOpening(g, ch) == LastOpening(h + [e], ch)
  {
    CircuitSnoc(h, e, ch);
    CircuitSnoc(own, e, ch);
    assert own + [] == own;
  }

  lemma {:induction false} CircuitEventsSuffice(h: seq<Event>, ch: Channel)
    ensures Streak(CircuitEvents(h, ch), ch) == Streak(h, ch)
    ensures LastOpening(CircuitEvents(h, ch), ch) == LastOpening(h, ch)
  {
    if h != [] {
      var p, e := h[..|h| - 1], h[|h| - 1];
      CircuitEventsSuffice(p, ch);
      CircuitEventsStep(p, CircuitEvents(p, ch), e, ch);
      assert p + [e] == h;
    }
  }

  /** A channel's breaker answers by its own events alone: two histories that agree on them agree on
   *  every verdict, whatever the other channels, limits and gates did in between. */
  lemma CircuitsAreIndependent(c: Config, h: seq<Event>, g: seq<Event>, t: nat, ch: Channel)
    requires Legal(c, h) && Legal(c, g) && CircuitEvents(h, ch) == CircuitEvents(g, ch)
    ensures Verdict(c, h, t, Failure(ch)) == Verdict(c, g, t, Failure(ch))
    ensures Verdict(c, h, t, CircuitCheck(ch)) == Verdict(c, g, t, CircuitCheck(ch))
  {
    CircuitEventsSuffice(h, ch);
    CircuitEventsSuffice(g, ch);
    CircuitRefinesHistory(c, h, t, ch);
    CircuitRefinesHistory(c, g, t, ch);
  }

  // ---------------------------------------------------------------- replay lock

  /** Who took the replay lock, and when. */
  datatype Hold = Hold(token: int, since: nat)

  function LockTtl(c: Config): nat { c.lockTtlSeconds * SECOND }

  /** The latest Lock that succeeded, unless an Unlock of its own token came before its time was over. */
  function Holder(c: Config, h: seq<Event>): Option<Hold> {
    if h == [] then None
    else
      var before, e := Holder(c, h[..|h| - 1]), h[|h| - 1];
      match e.op
      case Lock(token) => if e.ok then Some(Hold(token, e.t)) else before
      case Unlock(token) => if Holds(c, before, e.t, token) then None else before
      case _ => before
  }

  /** The holder's time still runs. */
  predicate Runs(c: Config, o: Option<Hold>, t: nat) {
    o.Some? && t < o.value.since + LockTtl(c)
  }

  predicate Holds(c: Config, o: Option<Hold>, t: nat, token: int) {
    Runs(c, o, t) && o.value.token == token
  }

  /** The lock's key is the holder: absent when there is none, else its token until its time is over. */
  lemma {:induction false} LockKeyIsHolder(c: Config, h: seq<Event>)
    requires Legal(c, h)
    ensures match Holder(c, h)
            case None => ReplayLock !in After(c, h)
            case Some(o) =>
              o.since <= Clock(h) && ReplayLock in After(c, h) &&
              After(c, h)[ReplayLock] == Cell(o.token, Some(o.since + c.lockTtlSeconds * 1000))
  {
    if h != [] {
      LockKeyIsHolder(c, h[..|h| - 1]);
    }
  }

  /** The lock is given exactly when no holder's time still runs, and released exactly by the holder whose
   *  time still runs. */
  lemma LockRefinesHistory(c: Config, h: seq<Event>, t: nat, token: int)
    requires Legal(c, h)
    ensures Verdict(c, h, t, Lock(token)) <==> !Runs(c, Holder(c, h), t)
    ensures Verdict(c, h, t, Unlock(token)) <==> Holds(c, Holder(c, h), t, token)
  {
    LockKeyIsHolder(c, h);
  }

  /** A lock given makes a holder, a release that succeeds leaves none, and nothing else changes who holds. */
  lemma HolderAfter(c: Config, h: seq<Event>, e: Event)
    requires Legal(c, h + [e])
    ensures Holder(c, h + [e]) ==
            if e.op.Lock? && e.ok then Some(Hold(e.op.token, e.t))
            else if e.op.Unlock? && e.ok then None
            else Holder(c, h)
  {
    assert (h + [e])[..|h|] == h;
    if e.op.Unlock? {
      LockRefinesHistory(c, h, e.t, e.op.token);
    }
  }

  /** While a holder's time runs nobody else releases the lock, and nobody is given it. */
  lemma {:induction false} OnlyHolderReleases(c: Config, h: seq<Event>, i: nat, j: nat)
    requires Legal(c, h) && i < j < |h|
    requires h[i].op.Lock? && h[i].ok && h[j].t < h[i].t + c.lockTtlSeconds * 1000
    requires forall k: nat | i < k < j :: h[k].op != Unlock(h[i].op.token)
    ensures (h[j].op.Lock? ==> !h[j].ok) && (h[j].op.Unlock? ==> (h[j].ok <==> h[j].op.token == h[i].op.token))
  {
    HolderStays(c, h, i, j);
    LegalPrefix(c, h, j + 1);
    assert h[..j + 1][..j] == h[..j];
    LockRefinesHistory(c, h[..j], h[j].t, if h[j].op.Unlock? then h[j].op.token else 0);
  }

  lemma {:induction false} HolderStays(c: Config, h: seq<Event>, i: nat, j: nat)
    requires Legal(c, h) && i < j < |h|
    requires h[i].op.Lock? && h[i].ok && h[j].t < h[i].t + LockTtl(c)
    requires forall k: nat | i < k < j :: h[k].op != Unlock(h[i].op.token)
    ensures Holder(c, h[..j]) == Some(Hold(h[i].op.token, h[i].t))
  {
    LegalPrefix(c, h, j);
    assert h[..j] == h[..j - 1] + [h[j - 1]];
    HolderAfter(c, h[..j - 1], h[j - 1]);
    if i < j - 1 {
      Ordered(c, h, j - 1, j);
      HolderStays(c, h, i, j - 1);
      OnlyHolderStep(c, h[..j - 1], h[j - 1]);
    }
  }

  lemma OnlyHolderStep(c: Config, h: seq<Event>, e: Event)
    requires Legal(c, h + [e]) && Runs(c, Holder(c, h), e.t) && e.op != Unlock(Holder(c, h).value.token)
    ensures Holder(c, h + [e]) == Holder(c, h)
  {
    assert (h + [e])[..|h|] == h;
    LockRefinesHistory(c, h, e.t, if e.op.Unlock? || e.op.Lock? then e.op.token else 0);
  }
}

/** The shared Redis connection: redis_client.py and the guard operations of worker.py.
 *
 *  The cells are the server's keys, changed in place. The ghost log records every guard operation
 *  with its verdict, and Valid says that the cells are what the log leaves behind and that the log
 *  is legal, so every theorem of Guards holds of the connection at any moment.
 */
module Redis {
  import opened Prelude
  import opened Guards

  class RedisConn {
    const config: Config
    var now: nat
    var cells: Keyspace
    ghost var log: seq<Event>

    ghost predicate Valid()
      reads this
    {
      Legal(config, log) && Clock(log) <= now && cells == After(config, log)
    }

    constructor (config: Config)
      ensures Valid() && now == 0 && log == [] && this.config == config
    {
      this.config := config;
      now, cells, log := 0, map[], [];
    }

    /** Time passes. */
    method Advance(d: nat)
      requires Valid()
      modifies this`now
      ensures Valid() && now == old(now) + d
    {
      now := now + d;
    }

    ghost predicate Logged(before: seq<Event>, op: Op, ok: bool)
      reads this
    {
      log == before + [Event(now, op, ok)] && ok == Verdict(config, before, now, op)
    }

    ghost method Record(op: Op, ok: bool)
      requires Legal(config, log) && Clock(log) <= now
      requires (cells, ok) == Exec(config, After(config, log), now, op)
      modifies this`log
      ensures Valid() && Logged(old(log), op, ok)
    {
      log := log + [Event(now, op, ok)];
      assert log[..|log| - 1] == old(log);
    }

    function Lookup(k: Key): (r: Option<int>)
      reads this
      ensures r.Some? <==> Live(cells, now, k)
    {
      if k in cells && (cells[k].expiry.Some? ==> now < cells[k].expiry.value) then Some(cells[k].n) else None
    }

    // SET key value NX EX ttl
    method SetIfAbsent(k: Key, value: int, ttl: nat) returns (isNew: bool)
      modifies this`cells
      ensures isNew == !Live(old(cells), now, k)
      ensures cells == if isNew then old(cells)[k := Cell(value, Some(now + ttl))] else old(cells)
    {
      isNew := Lookup(k).None?;
      if isNew {
        cells := cells[k := Cell(value, Some(now + ttl))];
      }
    }

    method Increment(k: Key) returns (count: int)
      modifies this`cells
      ensures cells == old(cells)[k := Incr(old(cells), now, k)] && count == cells[k].n
    {
      match Lookup(k)
      case Some(n) =>
        count := n + 1;
        cells := cells[k := cells[k].(n := count)];
      case None =>
        count := 1;
        cells := cells[k := Cell(1, None)];
    }

    method Expire(k: Key, ttl: nat)
      requires k in cells
      modifies this`cells
      ensures cells == old(cells)[k := Cell(old(cells)[k].n, Some(now + ttl))]
    {
      cells := cells[k := cells[k].(expiry := Some(now + ttl))];
    }

    method Delete(k: Key)
      modifies this`cells
      ensures cells == old(cells) - {k}
    {
      cells := cells - {k};
    }

    /** The first event with a key within EVENT_TTL is new; an empty key is never a duplicate. */
    method IsDuplicate(key: string) returns (duplicate: bool)
      requires Valid()
      modifies this`cells, this`log
      ensures Valid()
      ensures if key == "" then !duplicate && log == old(log)
              else Logged(old(log), Acquire(EventGate(key), 300 * 1000), !duplicate)
    {
      if key == "" {
        return false;
      }
      var isNew := SetIfAbsent(GateKey(EventGate(key)), 1, EVENT_TTL);
      Record(Acquire(EventGate(key), EVENT_TTL), isNew);
      return !isNew;
    }

    method AcquireTelegramDedupe(digest: string, windowSeconds: nat) returns (acquired: bool)
      requires Valid()
      modifies this`cells, this`log
      ensures Valid() && Logged(old(log), Acquire(TelegramGate(digest), windowSeconds * 1000), acquired)
    {
      acquired := SetIfAbsent(GateKey(TelegramGate(digest)), 1, windowSeconds * SECOND);
      Record(Acquire(TelegramGate(digest), windowSeconds * SECOND), acquired);
    }

    method ChannelCircuitClosed(ch: Channel) returns (closed: bool)
      requires Valid()
      modifies this`log
      ensures Valid() && Logged(old(log), CircuitCheck(ch), closed)
    {
      closed := Lookup(CircuitOpen(ch)).None?;
      Record(CircuitCheck(ch), closed);
    }

    method ResetChannelCircuitState(ch: Channel)
      requires Valid()
      modifies this`cells, this`log
      ensures Valid() && Logged(old(log), Success(ch), true)
    {
      Delete(CircuitFailures(ch));
      Record(Success(ch), true);
    }

    method RecordChannelFailure(ch: Channel) returns (tripped: bool)
      requires Valid()
      modifies this`cells, this`log
      ensures Valid() && Logged(old(log), Failure(ch), tripped)
    {
      var failures := Increment(CircuitFailures(ch));
      tripped := failures >= config.cbThreshold;
      if tripped {
        cells := cells[CircuitOpen(ch) := Cell(1, Some(now + config.cbOpenSeconds * SECOND))];
        Delete(CircuitFailures(ch));
        assert cells == old(cells)[CircuitOpen(ch) := cells[CircuitOpen(ch)]] - {CircuitFailures(ch)};
      }
      Record(Failure(ch), tripped);
    }

    method ChannelRateLimitAdmits(ch: Channel) returns (admitted: bool)
      requires Valid()
      modifies this`cells, this`log
      ensures Valid() && Logged(old(log), ChannelHit(ch), admitted)
    {
      var window := config.rateWindowSeconds;
      var epoch := now / SECOND;
      var k := RateBucket(ch, epoch / window);
      var count := Increment(k);
      if count == 1 {
        Expire(k, WindowMs(config));
      }
      assert cells == old(cells)[k := Hit(old(cells), now, k, WindowMs(config))];
      admitted := count <= config.rateLimit;
      Record(ChannelHit(ch), admitted);
    }

    method TelegramServiceRateLimitAdmits(service: string) returns (admitted: bool)
      requires Valid()
      modifies this`cells, this`log
      ensures Valid() && Logged(old(log), ServiceHit(service), admitted)
    {
      var k := ServiceWindow(service);
      var count := Increment(k);
      if count == 1 {
        Expire(k, SERVICE_WINDOW);
      }
      assert cells == old(cells)[k := Hit(old(cells), now, k, SERVICE_WINDOW)];
      admitted := count <= SERVICE_LIMIT;
      Record(ServiceHit(service), admitted);
    }

    method AcquireDlqReplayLock(token: int) returns (acquired: bool)
      requires Valid()
      modifies this`cells, this`log
      ensures Valid() && Logged(old(log), Lock(token), acquired)
      ensures acquired == !Live(old(cells), now, ReplayLock)
      ensures cells == if acquired then old(cells)[ReplayLock := Cell(token, Some(now + config.lockTtlSeconds * 1000))]
                       else old(cells)
    {
      acquired := SetIfAbsent(ReplayLock, token, config.lockTtlSeconds * SECOND);
      Record(Lock(token), acquired);
    }

    method ReleaseDlqReplayLock(token: int) returns (released: bool)
      requires Valid()
      modifies this`cells, this`log
      ensures Valid() && Logged(old(log), Unlock(token), released)
      ensures released == (Live(old(cells), now, ReplayLock) && old(cells)[ReplayLock].n == token)
      ensures cells == if released then old(cells) - {ReplayLock} else old(cells)
    {
      released := Lookup(ReplayLock) == Some(token);
      if released {
        Delete(ReplayLock);
      }
      Record(Unlock(token), released);
    }
  }
}

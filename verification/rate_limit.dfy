/**
 * The fixed-window rate limiter. One module-level store maps a request key to a
 * counter and the time its window ends; every limiter created by `rateLimit(options)`
 * shares that store and brings its own window length, maximum and message. The clock
 * is a parameter (`now`, in milliseconds), and the periodic cleanup is the `Sweep` method.
 */
module RateLimit {
  import opened Common

  datatype Entry = Entry(count: int, resetTime: int)

  datatype Options = Options(windowMs: int, max: int, message: Option<string>)

  datatype Verdict = Allowed | Rejected(status: int, message: string)

  const DEFAULT_MESSAGE: string := "Too many requests, please try again later"

  /** `keyGenerator(req)` when a generator is configured, else `req.ip || 'unknown'`. */
  function KeyFor(generated: Option<string>, ip: Option<string>): (key: string)
    ensures generated.Some? ==> key == generated.value
    ensures generated.None? && ip.Some? && ip.value != "" ==> key == ip.value
    ensures generated.None? && (ip.None? || ip.value == "") ==> key == "unknown"
  {
    if generated.Some? then generated.value else Present(ip).GetOr("unknown")
  }

  function Lookup(m: map<string, Entry>, key: string): Option<Entry>
  {
    if key in m then Some(m[key]) else None
  }

  /** A request at `now` opens a new window when the key has no entry or its window has ended. */
  predicate Expired(e: Option<Entry>, now: int)
  {
    e.None? || e.value.resetTime < now
  }

  /**
   * One request against one key's entry: whether it is let through, and the entry
   * afterwards. An absent or ended window is replaced by a fresh one counting this
   * request; a live window admits while its count is below `max` and then counts one
   * more. A rejected request leaves the entry as it was, every entry counts at least one
   * request, and a limiter with `max >= 1` never lifts a count above `max`.
   */
  function Step(e: Option<Entry>, now: int, windowMs: int, max: int): (r: (bool, Entry))
    ensures !r.0 ==> e.Some? && r.1 == e.value
    ensures e.None? || e.value.count >= 1 ==> r.1.count >= 1
    ensures max >= 1 && (e.None? || e.value.count <= max) ==> r.1.count <= max
    ensures Expired(e, now) ==> r == (true, Entry(1, now + windowMs))
    ensures !Expired(e, now) ==> (r.0 <==> e.value.count < max)
    ensures !Expired(e, now) && r.0 ==> r.1 == e.value.(count := e.value.count + 1)
  {
    if Expired(e, now) then (true, Entry(1, now + windowMs))
    else if e.value.count >= max then (false, e.value)
    else (true, e.value.(count := e.value.count + 1))
  }

  /** The entries the sweep keeps: those whose window has not ended before `now`. */
  function Live(m: map<string, Entry>, now: int): (r: map<string, Entry>)
    ensures forall k :: k in r <==> k in m && m[k].resetTime >= now
    ensures forall k :: k in r ==> r[k] == m[k]
  {
    map k | k in m && m[k].resetTime >= now :: m[k]
  }

  /** Requests from one key at the given times: how many get through, and the final entry. */
  function Replay(e: Option<Entry>, times: seq<int>, windowMs: int, max: int): (nat, Option<Entry>)
    decreases |times|
  {
    if times == [] then (0, e)
    else
      var step := Step(e, times[0], windowMs, max);
      var rest := Replay(Some(step.1), times[1..], windowMs, max);
      ((if step.0 then 1 else 0) + rest.0, rest.1)
  }

  /** While a window is live, at most `max - count` further requests get through. */
  lemma {:induction false} LiveWindowAdmitsAtMost(count: int, resetTime: int, times: seq<int>, windowMs: int, max: int)
    requires forall i :: 0 <= i < |times| ==> times[i] <= resetTime
    ensures Replay(Some(Entry(count, resetTime)), times, windowMs, max).0 <= if count >= max then 0 else max - count
    decreases |times|
  {
    if times != [] {
      LiveWindowAdmitsAtMost(if count >= max then count else count + 1, resetTime, times[1..], windowMs, max);
    }
  }

  /**
   * A window admits at most `max` requests (and always its first one): of the request
   * that opens a window at `start` and the requests that follow while it is live, at
   * most `max(1, max)` get through.
   */
  lemma {:induction false} WindowAdmitsAtMostMax(e: Option<Entry>, start: int, later: seq<int>, windowMs: int, max: int)
    requires Expired(e, start)
    requires forall i :: 0 <= i < |later| ==> later[i] <= start + windowMs
    ensures Replay(e, [start] + later, windowMs, max).0 <= if max >= 1 then max else 1
  {
    assert ([start] + later)[1..] == later;
    LiveWindowAdmitsAtMost(1, start + windowMs, later, windowMs, max);
  }

  /**
   * The sweep cannot be observed by later requests: an entry it deletes would have
   * been treated as absent anyway.
   */
  lemma SweepUnobservable(e: Entry, sweptAt: int, now: int, windowMs: int, max: int)
    requires sweptAt <= now
    ensures Step(if e.resetTime < sweptAt then None else Some(e), now, windowMs, max)
         == Step(Some(e), now, windowMs, max)
  {
  }

  class RateLimitStore {
    var entries: map<string, Entry>

    constructor ()
      ensures entries == map[]
    {
      entries := map[];
    }

    /** Every entry counts between 1 and `max` requests. */
    ghost predicate Bounded(max: int)
      reads this
    {
      forall k :: k in entries ==> 1 <= entries[k].count <= max
    }

    /** The middleware closure: admit or reject one request for `key` at time `now`. */
    method Limit(options: Options, key: string, now: int) returns (verdict: Verdict)
      modifies this
      ensures var (ok, e) := Step(Lookup(old(entries), key), now, options.windowMs, options.max);
        && entries == old(entries)[key := e]
        && verdict == if ok then Allowed else Rejected(429, options.message.GetOr(DEFAULT_MESSAGE))
      ensures Expired(Lookup(old(entries), key), now) ==>
        verdict == Allowed && entries == old(entries)[key := Entry(1, now + options.windowMs)]
      ensures !Expired(Lookup(old(entries), key), now) && old(entries)[key].count >= options.max ==>
        verdict.Rejected? && verdict.status == 429 && entries == old(entries)
      ensures !Expired(Lookup(old(entries), key), now) && old(entries)[key].count < options.max ==>
        verdict == Allowed && entries == old(entries)[key := old(entries)[key].(count := old(entries)[key].count + 1)]
      ensures forall k :: k != key ==> Lookup(entries, k) == Lookup(old(entries), k)
      ensures forall bound :: bound >= 1 && options.max <= bound && old(Bounded(bound)) ==> Bounded(bound)
    {
      if key !in entries || entries[key].resetTime < now {
        entries := entries[key := Entry(1, now + options.windowMs)];
        return Allowed;
      }
      if entries[key].count >= options.max {
        return Rejected(429, options.message.GetOr(DEFAULT_MESSAGE));
      }
      entries := entries[key := entries[key].(count := entries[key].count + 1)];
      verdict := Allowed;
    }

    /** The periodic cleanup: delete every entry whose window ended before `now`. */
    method Sweep(now: int)
      modifies this
      ensures entries == Live(old(entries), now)
      ensures forall bound :: old(Bounded(bound)) ==> Bounded(bound)
    {
      var keys := entries.Keys;
      while keys != {}
        invariant keys <= old(entries).Keys
        invariant forall k :: k in entries <==> k in old(entries) && (k in keys || old(entries)[k].resetTime >= now)
        invariant forall k :: k in entries ==> entries[k] == old(entries)[k]
        decreases keys
      {
        var k :| k in keys;
        if entries[k].resetTime < now {
          entries := entries - {k};
        }
        keys := keys - {k};
      }
    }
  }
}

/**
  The Redis-backed conversation session store with its in-memory fallback.

  The Redis server is modelled as a map from full keys to a value and the
  time at which the key expires; time is an explicit clock in milliseconds.
  The fallback is the object `fallbackSessions`, and every `setTimeout` the
  store schedules is a pending timer that `AdvanceClock` fires. Whether a
  Redis command throws is a parameter of each operation (`redisFails`);
  `isConnected` is set from outside, as the client's event handlers do.
 */
module RedisSessions {
  import opened JsText

  /** `sessionExpiry`: 30 minutes, in seconds, as Redis `SETEX` and `EXPIRE` take it. */
  const SessionExpirySeconds := 30 * 60
  /** The fallback timer's delay, `sessionExpiry * 1000`. */
  const SessionExpiryMs := SessionExpirySeconds * 1000
  const KeyPrefix := "session:"
  const DefaultRedisUrl := "redis://localhost:6379"

  /** A value stored in Redis and the instant at which its key expires. */
  datatype RedisEntry = RedisEntry(value: JsValue, expiresAt: int)

  /** A pending `setTimeout` that deletes the fallback session of `userId` at `fireAt`. */
  datatype Timer = Timer(userId: string, fireAt: int)

  /** The object `getStatus` returns. */
  datatype Status = Status(connected: bool, activeSessionsCount: nat, redisUrl: string)

  /** The Redis key of a user's session. */
  function SessionKey(userId: string): (key: string)
    ensures |key| == |KeyPrefix| + |userId| && key[..|KeyPrefix|] == KeyPrefix
  {
    KeyPrefix + userId
  }

  /** The keys that `KEYS session:*` matches. */
  predicate IsSessionKey(key: string) {
    |key| >= |KeyPrefix| && key[..|KeyPrefix|] == KeyPrefix
  }

  /**
    `key.replace("session:", "")` on a key that `KEYS session:*` returned:
    the first occurrence is the prefix itself.
   */
  function StripKeyPrefix(key: string): (userId: string)
    requires IsSessionKey(key)
    ensures SessionKey(userId) == key
  {
    key[|KeyPrefix|..]
  }

  /** Prefixing and stripping are inverse: the user id survives the round trip. */
  lemma StripSessionKey(userId: string)
    ensures IsSessionKey(SessionKey(userId)) && StripKeyPrefix(SessionKey(userId)) == userId
  {
    assert SessionKey(userId)[|KeyPrefix|..] == userId;
  }

  /** Different users have different Redis keys. */
  lemma SessionKeyInjective(u: string, v: string)
    ensures SessionKey(u) == SessionKey(v) ==> u == v
  {
    if SessionKey(u) == SessionKey(v) {
      StripSessionKey(u);
      StripSessionKey(v);
    }
  }

  /** The users whose timers are due at `t`. */
  function Due(timers: seq<Timer>, t: int): set<string> {
    if timers == [] then {}
    else (if timers[0].fireAt <= t then {timers[0].userId} else {}) + Due(timers[1..], t)
  }

  /** A user is due exactly when one of its timers fires by `t`. */
  lemma {:induction false} DueMembers(timers: seq<Timer>, t: int, u: string)
    ensures u in Due(timers, t) <==> exists i :: 0 <= i < |timers| && timers[i].fireAt <= t && timers[i].userId == u
    decreases |timers|
  {
    if timers != [] {
      DueMembers(timers[1..], t, u);
      if exists i :: 0 <= i < |timers| && timers[i].fireAt <= t && timers[i].userId == u {
        var i :| 0 <= i < |timers| && timers[i].fireAt <= t && timers[i].userId == u;
        if i > 0 {
          assert timers[1..][i - 1] == timers[i];
        }
      }
      if exists j :: 0 <= j < |timers[1..]| && timers[1..][j].fireAt <= t && timers[1..][j].userId == u {
        var j :| 0 <= j < |timers[1..]| && timers[1..][j].fireAt <= t && timers[1..][j].userId == u;
        assert timers[j + 1] == timers[1..][j];
      }
    }
  }

  /** The timers still pending after `t`. */
  function Pending(timers: seq<Timer>, t: int): (pending: seq<Timer>)
    ensures |pending| <= |timers|
  {
    if timers == [] then []
    else (if timers[0].fireAt > t then [timers[0]] else []) + Pending(timers[1..], t)
  }

  /** A timer stays pending exactly when it was pending and fires after `t`. */
  lemma {:induction false} PendingMembers(timers: seq<Timer>, t: int)
    ensures forall x :: x in Pending(timers, t) <==> x in timers && x.fireAt > t
    decreases |timers|
  {
    if timers != [] {
      PendingMembers(timers[1..], t);
      assert timers == [timers[0]] + timers[1..];
    }
  }

  class RedisSessionService {
    var isConnected: bool
    var fallbackSessions: map<string, JsValue>
    /** The Redis keyspace: full key to value and expiry instant. */
    var redis: map<string, RedisEntry>
    /** The current time, in milliseconds. */
    var now: int
    /** The pending fallback clean-up timers, in the order they were scheduled. */
    var timers: seq<Timer>
    const redisUrl: string

    /** A fresh service: not yet connected, no sessions, `REDIS_URL` or the local default. */
    constructor(redisUrlSetting: Option<string>, start: int)
      ensures !isConnected && fallbackSessions == map[] && timers == [] && now == start
      ensures redis == map[]
      ensures redisUrl == if redisUrlSetting.Some? && redisUrlSetting.value != "" then redisUrlSetting.value else DefaultRedisUrl
    {
      isConnected := false;
      fallbackSessions := map[];
      redis := map[];
      now := start;
      timers := [];
      redisUrl := if redisUrlSetting.Some? && redisUrlSetting.value != "" then redisUrlSetting.value else DefaultRedisUrl;
    }

    /** The client's `ready` handler (true) and its `error` and `end` handlers (false). */
    method SetConnected(connected: bool)
      modifies this`isConnected
      ensures isConnected == connected
    {
      isConnected := connected;
    }

    /** `key` exists in Redis and has not expired. */
    predicate Live(key: string)
      reads this
    {
      key in redis && now < redis[key].expiresAt
    }

    /** What `getSession` returns: the Redis value when connected and the command succeeds, else the fallback. */
    function SessionOf(userId: string, redisFails: bool): JsValue
      reads this
    {
      if isConnected && !redisFails then
        (if Live(SessionKey(userId)) then redis[SessionKey(userId)].value else JsNull)
      else if userId in fallbackSessions then OrNull(fallbackSessions[userId])
      else JsNull
    }

    method GetSession(userId: string, redisFails: bool) returns (session: JsValue)
      ensures session == SessionOf(userId, redisFails)
      ensures !isConnected || redisFails ==> (session != JsNull <==> userId in fallbackSessions && Truthy(fallbackSessions[userId]))
    {
      if isConnected && !redisFails {
        var key := SessionKey(userId);
        if key in redis && now < redis[key].expiresAt {
          session := redis[key].value;
        } else {
          session := JsNull;
        }
      } else {
        session := if userId in fallbackSessions then OrNull(fallbackSessions[userId]) else JsNull;
      }
    }

    /**
      `setSession`: `SETEX` with the 30-minute expiry when connected; otherwise
      the fallback entry plus a clean-up timer 30 minutes out. A failing Redis
      command also lands in the fallback, but without a timer.
     */
    method SetSession(userId: string, data: JsValue, redisFails: bool)
      modifies this`redis, this`fallbackSessions, this`timers
      ensures old(isConnected) && !redisFails ==>
                redis == old(redis)[SessionKey(userId) := RedisEntry(data, now + SessionExpiryMs)]
                && fallbackSessions == old(fallbackSessions) && timers == old(timers)
      ensures !old(isConnected) ==>
                fallbackSessions == old(fallbackSessions)[userId := data]
                && timers == old(timers) + [Timer(userId, now + SessionExpiryMs)] && redis == old(redis)
      ensures old(isConnected) && redisFails ==>
                fallbackSessions == old(fallbackSessions)[userId := data] && timers == old(timers) && redis == old(redis)
      ensures !redisFails ==> SessionOf(userId, false) == if isConnected then data else OrNull(data)
      ensures SessionOf(userId, true) == if isConnected && !redisFails then old(SessionOf(userId, true)) else OrNull(data)
      ensures forall u, f :: u != userId ==> SessionOf(u, f) == old(SessionOf(u, f))
    {
      if isConnected && !redisFails {
        redis := redis[SessionKey(userId) := RedisEntry(data, now + SessionExpiryMs)];
      } else if !isConnected {
        fallbackSessions := fallbackSessions[userId := data];
        timers := timers + [Timer(userId, now + SessionExpiryMs)];
      } else {
        fallbackSessions := fallbackSessions[userId := data];
      }
      forall u | u != userId
        ensures SessionKey(u) != SessionKey(userId)
      {
        SessionKeyInjective(u, userId);
      }
    }

    /** `deleteSession`: `DEL` when connected, else (or when `DEL` throws) remove the fallback entry. */
    method DeleteSession(userId: string, redisFails: bool)
      modifies this`redis, this`fallbackSessions
      ensures old(isConnected) && !redisFails ==>
                redis == old(redis) - {SessionKey(userId)} && fallbackSessions == old(fallbackSessions)
      ensures !old(isConnected) || redisFails ==>
                fallbackSessions == old(fallbackSessions) - {userId} && redis == old(redis)
      ensures !redisFails ==> SessionOf(userId, false) == JsNull
      ensures !isConnected || redisFails ==> SessionOf(userId, true) == JsNull
      ensures forall u, f :: u != userId ==> SessionOf(u, f) == old(SessionOf(u, f))
    {
      if isConnected && !redisFails {
        redis := redis - {SessionKey(userId)};
      } else {
        fallbackSessions := fallbackSessions - {userId};
      }
      forall u | u != userId
        ensures SessionKey(u) != SessionKey(userId)
      {
        SessionKeyInjective(u, userId);
      }
    }

    /** `hasSession`: whether `getSession` finds something other than `null`. */
    method HasSession(userId: string, redisFails: bool) returns (has: bool)
      ensures has <==> SessionOf(userId, redisFails) != JsNull
    {
      var session := GetSession(userId, redisFails);
      has := session != JsNull;
    }

    /**
      `extendSession`: when connected and the key exists, restart its 30-minute
      expiry; a fallback session, or a Redis error, changes nothing.
     */
    method ExtendSession(userId: string, redisFails: bool)
      modifies this`redis
      ensures var key := SessionKey(userId);
              if old(isConnected) && !redisFails && old(Live(key)) then
                redis == old(redis)[key := old(redis)[key].(expiresAt := now + SessionExpiryMs)]
              else redis == old(redis)
      ensures forall u, f :: SessionOf(u, f) == old(SessionOf(u, f))
    {
      var key := SessionKey(userId);
      if isConnected && !redisFails && key in redis && now < redis[key].expiresAt {
        redis := redis[key := redis[key].(expiresAt := now + SessionExpiryMs)];
        forall u | u != userId
          ensures SessionKey(u) != key
        {
          SessionKeyInjective(u, userId);
        }
      }
    }

    /**
      `getActiveSessions`: in Redis mode, the user ids of the live `session:`
      keys; in fallback mode, the fallback's keys; nothing when Redis throws.
     */
    method GetActiveSessions(redisFails: bool) returns (ids: set<string>)
      ensures isConnected && !redisFails ==> forall u :: u in ids <==> Live(SessionKey(u))
      ensures !isConnected ==> ids == fallbackSessions.Keys
      ensures isConnected && redisFails ==> ids == {}
    {
      if isConnected && !redisFails {
        ids := set k | k in redis && now < redis[k].expiresAt && IsSessionKey(k) :: StripKeyPrefix(k);
        forall u
          ensures u in ids <==> Live(SessionKey(u))
        {
          StripSessionKey(u);
        }
      } else if !isConnected {
        ids := fallbackSessions.Keys;
      } else {
        ids := {};
      }
    }

    /** `getStatus`: the count covers the fallback sessions only, whatever the mode. */
    function GetStatus(): (s: Status)
      reads this
      ensures s.connected == isConnected && s.activeSessionsCount == |fallbackSessions.Keys|
      ensures s.redisUrl == redisUrl
    {
      Status(isConnected, |fallbackSessions.Keys|, redisUrl)
    }

    /**
      The event loop reaching time `t`: every pending timer due by then fires
      and deletes whatever fallback session its user holds at that moment.
      Redis keys need no action; they stop being live once `now` passes their
      expiry.
     */
    method AdvanceClock(t: int)
      requires now <= t
      modifies this`now, this`fallbackSessions, this`timers
      ensures now == t
      ensures timers == Pending(old(timers), t)
      ensures fallbackSessions == old(fallbackSessions) - Due(old(timers), t)
    {
      timers, fallbackSessions := FireTimers(timers, fallbackSessions, t);
      now := t;
    }
  }

  /**
    The timers' callbacks, in scheduling order: each timer due by `t` deletes
    its user's entry from `sessions`; the others stay pending.
   */
  method FireTimers(timers: seq<Timer>, sessions: map<string, JsValue>, t: int)
    returns (pending: seq<Timer>, remaining: map<string, JsValue>)
    ensures pending == Pending(timers, t)
    ensures remaining == sessions - Due(timers, t)
  {
    var i := 0;
    pending, remaining := [], sessions;
    while i < |timers|
      invariant 0 <= i <= |timers|
      invariant pending == Pending(timers[..i], t)
      invariant remaining == sessions - Due(timers[..i], t)
    {
      var x := timers[i];
      PrefixStep(timers, i, t);
      if x.fireAt <= t {
        MinusUnion(sessions, Due(timers[..i], t), x.userId);
        remaining := remaining - {x.userId};
      } else {
        pending := pending + [x];
      }
      i := i + 1;
    }
    assert timers[..i] == timers;
  }

  /** One more timer of the prefix: it joins the pending ones or the due users. */
  lemma PrefixStep(timers: seq<Timer>, i: nat, t: int)
    requires i < |timers|
    ensures var x := timers[i];
            && Pending(timers[..i + 1], t) == Pending(timers[..i], t) + (if x.fireAt > t then [x] else [])
            && Due(timers[..i + 1], t) == Due(timers[..i], t) + (if x.fireAt <= t then {x.userId} else {})
  {
    assert timers[..i + 1] == timers[..i] + [timers[i]];
    PendingAppend(timers[..i], timers[i], t);
    DueAppend(timers[..i], timers[i], t);
  }

  /** `Pending` distributes over appending one timer. */
  lemma {:induction false} PendingAppend(timers: seq<Timer>, x: Timer, t: int)
    ensures Pending(timers + [x], t) == Pending(timers, t) + (if x.fireAt > t then [x] else [])
    decreases |timers|
  {
    if timers == [] {
      assert [] + [x] == [x];
      assert [x][1..] == [];
    } else {
      assert (timers + [x])[1..] == timers[1..] + [x];
      assert (timers + [x])[0] == timers[0];
      PendingAppend(timers[1..], x, t);
    }
  }

  lemma MinusUnion<K, V>(m: map<K, V>, a: set<K>, k: K)
    ensures m - (a + {k}) == (m - a) - {k}
  {
  }

  /** `Due` grows by the appended timer's user when that timer is due. */
  lemma {:induction false} DueAppend(timers: seq<Timer>, x: Timer, t: int)
    ensures Due(timers + [x], t) == Due(timers, t) + (if x.fireAt <= t then {x.userId} else {})
    decreases |timers|
  {
    if timers == [] {
      assert [] + [x] == [x];
      assert [x][1..] == [];
    } else {
      assert (timers + [x])[1..] == timers[1..] + [x];
      assert (timers + [x])[0] == timers[0];
      DueAppend(timers[1..], x, t);
    }
  }

  /** The session object the bot stores while it waits for an order's items. */
  const AwaitingSession := JsObject(map["state" := JsString("awaiting_order_items")])

  /**
    In fallback mode a set session is read back, has-session holds, and after
    a delete the user has no session.
   */
  method FallbackRoundTrip() returns (got: JsValue, had: bool, afterDelete: JsValue, activeCount: nat)
    ensures got == AwaitingSession && had && afterDelete == JsNull && activeCount == 0
  {
    var s := new RedisSessionService(None, 0);
    s.SetSession("1234567890", AwaitingSession, false);
    got := s.GetSession("1234567890", false);
    had := s.HasSession("1234567890", false);
    s.DeleteSession("1234567890", false);
    afterDelete := s.GetSession("1234567890", false);
    activeCount := s.GetStatus().activeSessionsCount;
  }

  /**
    The fallback timer is never cancelled: a user's session set again 20
    minutes after the first set is deleted by the first set's timer, 10
    minutes after it was written, although it was read back just before.
   */
  method TimerNotCancelled(userId: string, earlier: JsValue, later: JsValue) returns (rewritten: JsValue, at30: JsValue)
    ensures rewritten == OrNull(later) && at30 == JsNull
  {
    var s := new RedisSessionService(None, 0);
    s.SetSession(userId, earlier, false);
    s.AdvanceClock(20 * 60 * 1000);
    assert s.timers == [Timer(userId, SessionExpiryMs)] by {
      NoneDue(s.timers, 20 * 60 * 1000);
    }
    s.SetSession(userId, later, false);
    rewritten := s.GetSession(userId, false);
    FirstOfTwoDue(Timer(userId, SessionExpiryMs), Timer(userId, 20 * 60 * 1000 + SessionExpiryMs), SessionExpiryMs);
    s.AdvanceClock(SessionExpiryMs);
    at30 := s.GetSession(userId, false);
  }

  /** Of two timers, only the first is due by `t`. */
  lemma FirstOfTwoDue(x: Timer, y: Timer, t: int)
    requires x.fireAt <= t < y.fireAt
    ensures Pending([x, y], t) == [y] && Due([x, y], t) == {x.userId}
  {
    NoneDue([y], t);
    assert [x, y][1..] == [y];
  }

  /** Timers that all fire after `t` all stay pending and delete nothing. */
  lemma {:induction false} NoneDue(timers: seq<Timer>, t: int)
    requires forall i :: 0 <= i < |timers| ==> timers[i].fireAt > t
    ensures Pending(timers, t) == timers && Due(timers, t) == {}
    decreases |timers|
  {
    if timers != [] {
      NoneDue(timers[1..], t);
      assert timers == [timers[0]] + timers[1..];
    }
  }

  /**
    A set whose Redis command throws stores the session in the fallback with
    no timer: once the connection drops it is still there hours later.
   */
  method FailedSetNeverExpires(userId: string, data: JsValue) returns (later: JsValue)
    ensures later == OrNull(data)
  {
    var s := new RedisSessionService(None, 0);
    s.SetConnected(true);
    s.SetSession(userId, data, true);
    s.SetConnected(false);
    s.AdvanceClock(5 * 60 * 60 * 1000);
    later := s.GetSession(userId, false);
  }

  /**
    With Redis up, `extendSession` renews a key's 30 minutes: a session
    extended 20 minutes after it was set is still read back and listed at
    40 minutes.
   */
  method RedisExtendKeepsAlive(userId: string, data: JsValue) returns (got: JsValue, active: set<string>)
    ensures got == data && active == {userId}
  {
    var s := new RedisSessionService(None, 0);
    s.SetConnected(true);
    s.SetSession(userId, data, false);
    s.AdvanceClock(20 * 60 * 1000);
    s.ExtendSession(userId, false);
    s.AdvanceClock(40 * 60 * 1000);
    got := s.GetSession(userId, false);
    active := s.GetActiveSessions(false);
    forall u | u in active
      ensures u == userId
    {
      SessionKeyInjective(u, userId);
    }
  }

  /** Without an extension, the key is gone 30 minutes after the set: read back as null and not listed. */
  method RedisKeyExpires(userId: string, data: JsValue) returns (got: JsValue, active: set<string>)
    ensures got == JsNull && active == {}
  {
    var s := new RedisSessionService(None, 0);
    s.SetConnected(true);
    s.SetSession(userId, data, false);
    s.AdvanceClock(SessionExpiryMs);
    got := s.GetSession(userId, false);
    active := s.GetActiveSessions(false);
    forall u | u in active
      ensures false
    {
      SessionKeyInjective(u, userId);
    }
  }
}

/**
  The Redis-free session service: a module-level `Map` from user id to
  session data, changed in place. A JavaScript `Map` remembers the order in
  which its keys were first inserted; the store keeps that order in `order`
  and the contents in `sessions`.
 */
module MemorySessions {
  import opened JsText

  class MemorySessionService {
    /** The keys of `userSessions`, in first-insertion order. */
    var order: seq<string>
    /** The contents of `userSessions`. */
    var sessions: map<string, JsValue>

    /** The two fields describe one `Map`: each key once, and exactly the keys of `sessions`. */
    ghost predicate Valid()
      reads this
    {
      && Distinct(order)
      && (forall k :: k in sessions <==> k in order)
    }

    constructor()
      ensures Valid() && order == [] && sessions == map[]
    {
      order := [];
      sessions := map[];
    }

    /** `setSession`: stores `data` under `userId`, replacing any earlier value, and answers true. */
    method SetSession(userId: string, data: JsValue) returns (ok: bool)
      requires Valid()
      modifies this
      ensures Valid() && ok
      ensures sessions == old(sessions)[userId := data]
      ensures order == if userId in old(sessions) then old(order) else old(order) + [userId]
      ensures forall u :: u != userId ==> SessionOf(u) == old(SessionOf(u))
    {
      if userId !in sessions {
        order := order + [userId];
      }
      sessions := sessions[userId := data];
      ok := true;
    }

    /** What `getSession` answers: the stored value, or `null` when it is missing or falsy. */
    function SessionOf(userId: string): JsValue
      reads this
    {
      if userId in sessions then OrNull(sessions[userId]) else JsNull
    }

    method GetSession(userId: string) returns (session: JsValue)
      ensures session == SessionOf(userId)
      ensures session != JsNull <==> userId in sessions && Truthy(sessions[userId])
    {
      session := if userId in sessions then OrNull(sessions[userId]) else JsNull;
    }

    /** `deleteSession`: `Map.delete`, true exactly when the user had an entry. */
    method DeleteSession(userId: string) returns (deleted: bool)
      requires Valid()
      modifies this
      ensures Valid()
      ensures deleted <==> userId in old(sessions)
      ensures sessions == old(sessions) - {userId} && SessionOf(userId) == JsNull
      ensures order == RemoveKey(old(order), userId)
      ensures forall u :: u != userId ==> SessionOf(u) == old(SessionOf(u))
    {
      deleted := userId in sessions;
      RemoveKeyMembers(order, userId);
      order := RemoveKey(order, userId);
      sessions := sessions - {userId};
    }

    /** `getAllSessions`: `Array.from` over the map, one `[userId, data]` pair per key in insertion order. */
    function GetAllSessions(): (pairs: seq<(string, JsValue)>)
      requires Valid()
      reads this
      ensures |pairs| == |order|
    {
      var keys, m := order, sessions;
      seq(|keys|, i requires 0 <= i < |keys| => (keys[i], m[keys[i]]))
    }

    /** `clearAllSessions`: the map is emptied. */
    method ClearAllSessions()
      modifies this
      ensures Valid() && order == [] && sessions == map[]
      ensures forall u :: SessionOf(u) == JsNull
    {
      order := [];
      sessions := map[];
    }
  }

  /**
    The listing holds every stored session exactly once, paired with its
    data, and in first-insertion order.
   */
  lemma AllSessionsListing(store: MemorySessionService)
    requires store.Valid()
    ensures var pairs := store.GetAllSessions();
            && |pairs| == |store.sessions.Keys| == |store.order|
            && (forall i :: 0 <= i < |store.order| ==> pairs[i].0 == store.order[i])
            && (forall k, v :: (k, v) in pairs <==> k in store.sessions && store.sessions[k] == v)
            && (forall i, j :: 0 <= i < j < |pairs| ==> pairs[i].0 != pairs[j].0)
  {
    var keys, m := store.order, store.sessions;
    DistinctCardinality(keys, m.Keys);
    var pairs := store.GetAllSessions();
    forall k | k in m
      ensures (k, m[k]) in pairs
    {
      var i :| 0 <= i < |keys| && keys[i] == k;
      assert pairs[i] == (k, m[k]);
    }
  }

  /** `order` without `key`, the rest in the same order. */
  function RemoveKey(order: seq<string>, key: string): (r: seq<string>)
    ensures forall k :: k in r <==> k in order && k != key
  {
    if order == [] then []
    else (if order[0] == key then [] else [order[0]]) + RemoveKey(order[1..], key)
  }

  /** No key appears twice. */
  predicate Distinct(order: seq<string>) {
    forall i, j :: 0 <= i < j < |order| ==> order[i] != order[j]
  }

  lemma DistinctTail(order: seq<string>)
    requires order != [] && Distinct(order)
    ensures Distinct(order[1..]) && order[0] !in order[1..]
  {
    var rest := order[1..];
    forall i, j | 0 <= i < j < |rest|
      ensures rest[i] != rest[j]
    {
      assert rest[i] == order[i + 1] && rest[j] == order[j + 1];
    }
  }

  /** Removing a key from a sequence of distinct keys leaves them distinct. */
  lemma {:induction false} RemoveKeyMembers(order: seq<string>, key: string)
    requires Distinct(order)
    ensures Distinct(RemoveKey(order, key))
    decreases |order|
  {
    if order != [] {
      var rest := order[1..];
      DistinctTail(order);
      RemoveKeyMembers(rest, key);
      var tail := RemoveKey(rest, key);
      assert order[0] !in tail;
      var r := RemoveKey(order, key);
      if order[0] != key {
        assert r == [order[0]] + tail;
        forall i, j | 0 <= i < j < |r|
          ensures r[i] != r[j]
        {
          assert r[j] == tail[j - 1];
          if i > 0 {
            assert r[i] == tail[i - 1];
          }
        }
      } else {
        assert r == tail;
      }
    }
  }

  /** A sequence of distinct keys has as many entries as the set it lists. */
  lemma {:induction false} DistinctCardinality(order: seq<string>, keys: set<string>)
    requires Distinct(order)
    requires forall k :: k in keys <==> k in order
    ensures |order| == |keys|
    decreases |order|
  {
    if order != [] {
      DistinctTail(order);
      DistinctCardinality(order[1..], keys - {order[0]});
    }
  }

  /** Setting, reading back, overwriting with a falsy value and deleting twice, on a fresh store. */
  method ReadWriteScenario() returns (got: JsValue, blanked: JsValue, firstDelete: bool, secondDelete: bool)
    ensures got == JsString("awaiting_order_items") && blanked == JsNull
    ensures firstDelete && !secondDelete
  {
    var store := new MemorySessionService();
    var _ := store.SetSession("a", JsString("awaiting_order_items"));
    got := store.GetSession("a");
    var _ := store.SetSession("a", JsString(""));
    blanked := store.GetSession("a");
    firstDelete := store.DeleteSession("a");
    secondDelete := store.DeleteSession("a");
  }

  /** The listing keeps first-insertion order across an overwrite. */
  method ListingScenario(a: string, b: string, x: JsValue, y: JsValue, z: JsValue) returns (listed: seq<(string, JsValue)>)
    requires a != b
    ensures listed == [(a, z), (b, y)]
  {
    var store := new MemorySessionService();
    var _ := store.SetSession(a, x);
    assert store.order == [a] && store.sessions == map[a := x];
    var _ := store.SetSession(b, y);
    assert store.order == [a, b] && b in store.sessions;
    var _ := store.SetSession(a, z);
    assert store.order == [a, b];
    assert store.sessions[a] == z && store.sessions[b] == y;
    listed := store.GetAllSessions();
    assert |listed| == 2 && listed[0] == (a, z) && listed[1] == (b, y);
  }

  /** Clearing empties the store: nothing is read back or listed. */
  method ClearScenario(a: string, x: JsValue) returns (afterClear: JsValue, listed: seq<(string, JsValue)>)
    ensures afterClear == JsNull && listed == []
  {
    var store := new MemorySessionService();
    var _ := store.SetSession(a, x);
    store.ClearAllSessions();
    afterClear := store.GetSession(a);
    listed := store.GetAllSessions();
  }
}

/**
The two-tier cache of internal/cache/tiered.go and its one client, the resolver
of internal/project/resolver.go.

The functions say what one call does to the two tiers when nothing evicts; the
classes are the source's objects, proved against those functions up to LRU
eviction. The functions are then the atomic steps of module AtomicCache.
*/
module TieredCache {
  import opened Wrappers

  type Key = string
  type Time = nat

  datatype Entry<+V> = Entry(val: V, expiresAt: Time)

  datatype GetResult<+V> = Hit(val: V) | Miss | Fault

  type Tier<V> = map<Key, Entry<V>>

  /** A live entry is one whose deadline has not been reached, in either tier. */
  function Lookup<V>(tier: Tier<V>, key: Key, now: Time): Option<V> {
    if key in tier && now < tier[key].expiresAt then Some(tier[key].val) else None
  }

  /** What Get answers when L1 has nothing to answer and Redis replies. */
  function FromL2<V>(l2: Tier<V>, key: Key, now: Time): GetResult<V> {
    match Lookup(l2, key, now)
    case Some(v) => Hit(v)
    case None => Miss
  }

  function GetOutcome<V>(l1: Tier<V>, l2: Tier<V>, key: Key, now: Time, fault: bool): GetResult<V> {
    match Lookup(l1, key, now)
    case Some(v) => Hit(v)
    case None =>
      if fault then Fault else FromL2(l2, key, now)
  }

  /** L1 after a Get: only an answer from L2 is copied up, with a fresh L1 deadline. */
  function GetL1<V>(l1: Tier<V>, l2: Tier<V>, l1TTL: Time, key: Key, now: Time, fault: bool): Tier<V> {
    if Lookup(l1, key, now).Some? then l1
    else match GetOutcome(l1, l2, key, now, fault)
         case Hit(v) => l1[key := Entry(v, now + l1TTL)]
         case _ => l1 - {key}
  }

  /** An L1 that holds `full` minus whatever the LRU evicted. */
  ghost predicate Evicted<V>(full: Tier<V>, l1: Tier<V>) {
    forall k | k in l1 :: k in full && l1[k] == full[k]
  }

  /** The same right after a call: the key it touched survives. */
  ghost predicate UpToEviction<V>(full: Tier<V>, l1: Tier<V>, touched: Key) {
    Evicted(full, l1) && (touched in full ==> touched in l1)
  }

  /** Keys that a call did not touch and the LRU did not evict are answered as before. */
  ghost predicate OthersAnswered<V>(l1: Tier<V>, l2: Tier<V>, after: Tier<V>, l2After: Tier<V>, key: Key, now: Time, fault: bool) {
    forall k | k != key && (k in l1 ==> k in after) ::
      GetOutcome(after, l2After, k, now, fault) == GetOutcome(l1, l2, k, now, fault)
  }

  /** A Get after a Set, whatever was evicted since and whichever of the two Redis calls
      failed: the value set as long as either tier has it, never an L1 entry from before,
      and an older L2 entry only if the SET failed and the new L1 entry is gone. */
  lemma SetThenGet<V>(l1: Tier<V>, l2: Tier<V>, l1TTL: Time, l2TTL: Time, key: Key, val: V, at: Time,
                      setFault: bool, after: Tier<V>, now: Time, getFault: bool)
    requires at <= now < at + l2TTL && Evicted(l1[key := Entry(val, at + l1TTL)], after)
    ensures var l2After := if setFault then l2 else l2[key := Entry(val, at + l2TTL)];
            && GetOutcome(after, l2After, key, now, getFault) ==
               (if key in after && now < at + l1TTL then Hit(val)
                else if getFault then Fault
                else if !setFault then Hit(val)
                else FromL2(l2, key, now))
            && OthersAnswered(l1, l2, after, l2After, key, now, getFault)
  {
  }

  /** A Get after a Delete: nothing to answer, unless the DEL failed and L2 kept the key. */
  lemma DeleteThenGet<V>(l1: Tier<V>, l2: Tier<V>, key: Key, delFault: bool, after: Tier<V>, now: Time, getFault: bool)
    requires Evicted(l1 - {key}, after)
    ensures var l2After := if delFault then l2 else l2 - {key};
            && GetOutcome(after, l2After, key, now, getFault) ==
               (if getFault then Fault else if !delFault then Miss else FromL2(l2, key, now))
            && OthersAnswered(l1, l2, after, l2After, key, now, getFault)
  {
  }

  /** What a Get or a Resolve leaves in L1: for its key the live entry that was there, or a
      copy of its answer made now, or nothing if it had no answer; of the rest, nothing new. */
  ghost predicate Keeps<V>(l1: Tier<V>, after: Tier<V>, l1TTL: Time, key: Key, now: Time, answer: Option<V>) {
    && (forall k | k != key && k in after :: k in l1 && after[k] == l1[k])
    && match answer
       case Some(v) => key in after && after[key] == if Lookup(l1, key, now).Some? then l1[key] else Entry(v, now + l1TTL)
       case None => key !in after
  }

  function AnswerOf<V>(r: GetResult<V>): Option<V> {
    if r.Hit? then Some(r.val) else None
  }

  /** Until when a Get's answer is given again: an answer from L1 does not extend its
      deadline, one from L2 lives in L1 for the L1 TTL. */
  function AnswerEnds<V>(l1: Tier<V>, l1TTL: Time, key: Key, now: Time): Time {
    if key in l1 && now < l1[key].expiresAt then l1[key].expiresAt else now + l1TTL
  }

  /** A Get after a Get, whatever became of L2 and whether or not Redis can be reached by
      then: the same answer exactly as long as L1 holds it, and L2's from then on; L1 holds
      nothing after a Miss or a Fault. Keys the LRU did not evict are as before. */
  lemma GetThenGet<V>(l1: Tier<V>, l2: Tier<V>, l1TTL: Time, key: Key, now: Time, fault: bool,
                      after: Tier<V>, l2Later: Tier<V>, later: Time, laterFault: bool)
    requires Keeps(l1, after, l1TTL, key, now, AnswerOf(GetOutcome(l1, l2, key, now, fault))) && now <= later
    ensures var first, second := GetOutcome(l1, l2, key, now, fault), GetOutcome(after, l2Later, key, later, laterFault);
            second == if first.Hit? && later < AnswerEnds(l1, l1TTL, key, now) then first
                      else if laterFault then Fault
                      else FromL2(l2Later, key, later)
    ensures OthersAnswered(l1, l2Later, after, l2Later, key, later, laterFault)
  {
    forall k | k != key && (k in l1 ==> k in after)
      ensures GetOutcome(after, l2Later, k, later, laterFault) == GetOutcome(l1, l2Later, k, later, laterFault)
    {
      assert Lookup(after, k, later) == Lookup(l1, k, later);
    }
  }

  /** What Get makes of L1 is what it should leave there. */
  lemma GetKeeps<V>(l1: Tier<V>, l2: Tier<V>, l1TTL: Time, key: Key, now: Time, fault: bool, after: Tier<V>)
    requires UpToEviction(GetL1(l1, l2, l1TTL, key, now, fault), after, key)
    ensures Keeps(l1, after, l1TTL, key, now, AnswerOf(GetOutcome(l1, l2, key, now, fault)))
  {
  }

  /** The shared Redis keyspace of one namespace, as far as this cache uses it. */
  class Redis<V> {
    var store: Tier<V>
    var published: seq<Key>  // invalidations that reached the channel, oldest first

    constructor ()
      ensures store == map[] && published == []
    {
      store, published := map[], [];
    }
  }

  class Tiered<V> {
    var l1: Tier<V>
    const capacity: nat
    const l1TTL: Time
    const l2TTL: Time
    const redis: Redis<V>

    constructor (redis: Redis<V>, capacity: int, l1TTL: int, l2TTL: int)
      ensures this.redis == redis && l1 == map[]
      ensures this.capacity == (if capacity <= 0 then 10000 else capacity)
      ensures this.l1TTL == (if l1TTL <= 0 then 30 else l1TTL)
      ensures this.l2TTL == (if l2TTL <= 0 then 600 else l2TTL)
    {
      this.redis, l1 := redis, map[];
      this.capacity := if capacity <= 0 then 10000 else capacity;
      this.l1TTL := if l1TTL <= 0 then 30 else l1TTL;
      this.l2TTL := if l2TTL <= 0 then 600 else l2TTL;
    }

    /** lru.Add: inserts and, when over capacity, drops some other key. */
    method Add(key: Key, e: Entry<V>)
      modifies `l1
      ensures UpToEviction(old(l1)[key := e], l1, key)
      ensures |old(l1)| <= capacity && 0 < capacity ==> |l1| <= capacity
    {
      l1 := l1[key := e];
      if |l1| > capacity && |l1| > 1 {
        assert |l1.Keys - {key}| > 0;
        var victim :| victim in l1.Keys - {key};
        ghost var before := l1;
        l1 := l1 - {victim};
        assert l1.Keys == before.Keys - {victim};
      }
    }

    method Get(key: Key, now: Time, fault: bool) returns (r: GetResult<V>)
      modifies `l1
      ensures r == GetOutcome(old(l1), redis.store, key, now, fault)
      ensures UpToEviction(GetL1(old(l1), redis.store, l1TTL, key, now, fault), l1, key)
      ensures Keeps(old(l1), l1, l1TTL, key, now, AnswerOf(r))
    {
      if key in l1 {
        if now < l1[key].expiresAt {
          return Hit(l1[key].val);
        }
        l1 := l1 - {key};
      }
      assert l1 == old(l1) - {key};
      if fault {
        return Fault;
      }
      if key !in redis.store || now >= redis.store[key].expiresAt {
        return Miss;
      }
      var v := redis.store[key].val;
      assert l1[key := Entry(v, now + l1TTL)] == old(l1)[key := Entry(v, now + l1TTL)];
      Add(key, Entry(v, now + l1TTL));
      return Hit(v);
    }

    method Set(key: Key, val: V, now: Time, fault: bool) returns (ok: bool)
      modifies `l1, redis`store
      ensures ok == !fault
      ensures UpToEviction(old(l1)[key := Entry(val, now + l1TTL)], l1, key)
      ensures redis.store == if ok then old(redis.store)[key := Entry(val, now + l2TTL)] else old(redis.store)
    {
      Add(key, Entry(val, now + l1TTL));
      if fault {
        return false;
      }
      redis.store := redis.store[key := Entry(val, now + l2TTL)];
      return true;
    }

    /** An error from DEL is returned before anything is published; an error from
        PUBLISH is only logged. */
    method Delete(key: Key, delFault: bool, publishFault: bool) returns (ok: bool)
      modifies `l1, redis
      ensures ok == !delFault
      ensures l1 == old(l1) - {key}
      ensures redis.store == if ok then old(redis.store) - {key} else old(redis.store)
      ensures redis.published == if ok && !publishFault then old(redis.published) + [key] else old(redis.published)
    {
      l1 := l1 - {key};
      if delFault {
        return false;
      }
      redis.store := redis.store - {key};
      if !publishFault {
        redis.published := redis.published + [key];
      }
      return true;
    }

    /** subscribe's handling of one message; its own broadcasts are skipped. */
    method Receive(key: Key, own: bool)
      modifies `l1
      ensures l1 == if own then old(l1) else old(l1) - {key}
    {
      if !own {
        l1 := l1 - {key};
      }
    }
  }

  datatype Resolution<+V> = Found(val: V) | NotFound | DbError

  /** What Resolve answers: the cache if it hits, else the database row. */
  function Resolved<V>(cached: GetResult<V>, row: Option<V>, dbFault: bool): Resolution<V> {
    if cached.Hit? then Found(cached.val)
    else if dbFault then DbError
    else match row
         case Some(v) => Found(v)
         case None => NotFound
  }

  /** What it found, for the L1 that it leaves. */
  function FoundRow<V>(r: Resolution<V>): Option<V> {
    if r.Found? then Some(r.val) else None
  }

  /** The database is asked exactly when the cache has no answer, be it for a miss or a
      fault; its row, or its having none, or its error, is the answer then. */
  lemma DatabaseIsAsked<V>(l1: Tier<V>, l2: Tier<V>, key: Key, now: Time, fault: bool, row: Option<V>, dbFault: bool)
    ensures var r := Resolved(GetOutcome(l1, l2, key, now, fault), row, dbFault);
            && (Lookup(l1, key, now).Some? ==> r == Found(Lookup(l1, key, now).value))
            && (Lookup(l1, key, now).None? && !fault && Lookup(l2, key, now).Some? ==> r == Found(Lookup(l2, key, now).value))
            && (Lookup(l1, key, now).None? && (fault || Lookup(l2, key, now).None?) ==>
                  && (r == DbError <==> dbFault) && (r == NotFound <==> !dbFault && row.None?)
                  && (!dbFault && row.Some? ==> r == Found(row.value)))
  {
  }

  /** A Resolve after a Resolve: the project found first is answered again as long as L1
      holds it, for the L1 TTL if it came from L2 or from the database, whatever became of
      the row, of L2 and of Redis; else the second is answered without L1. */
  lemma ResolveThenResolve<V>(l1: Tier<V>, l2: Tier<V>, l1TTL: Time, key: Key, now: Time, fault: bool,
                              row: Option<V>, dbFault: bool, after: Tier<V>, l2Later: Tier<V>, later: Time,
                              laterFault: bool, laterRow: Option<V>, laterDbFault: bool)
    requires var first := Resolved(GetOutcome(l1, l2, key, now, fault), row, dbFault);
             Keeps(l1, after, l1TTL, key, now, FoundRow(first)) && now <= later
    ensures var first := Resolved(GetOutcome(l1, l2, key, now, fault), row, dbFault);
            Resolved(GetOutcome(after, l2Later, key, later, laterFault), laterRow, laterDbFault) ==
            if first.Found? && later < AnswerEnds(l1, l1TTL, key, now) then first
            else Resolved(if laterFault then Fault else FromL2(l2Later, key, later), laterRow, laterDbFault)
  {
  }

  class Resolver<V> {
    const cache: Tiered<V>
    var rows: map<Key, V>  // the projects table by project_key

    constructor (cache: Tiered<V>, rows: map<Key, V>)
      ensures this.cache == cache && this.rows == rows
    {
      this.cache, this.rows := cache, rows;
    }

    /** A miss or a cache error falls through to the database; only a row that was
        found is written back, and a failure of that write is ignored. */
    method Resolve(key: Key, now: Time, getFault: bool, dbFault: bool, setFault: bool)
      returns (r: Resolution<V>)
      modifies cache`l1, cache.redis`store
      ensures var got := GetOutcome(old(cache.l1), old(cache.redis.store), key, now, getFault);
              var row := if key in rows then Some(rows[key]) else None;
              && r == Resolved(got, row, dbFault)
              && (if got.Hit? || !r.Found? then
                    && cache.redis.store == old(cache.redis.store)
                    && UpToEviction(GetL1(old(cache.l1), old(cache.redis.store), cache.l1TTL, key, now, getFault),
                                    cache.l1, key)
                  else
                    && UpToEviction(old(cache.l1)[key := Entry(r.val, now + cache.l1TTL)], cache.l1, key)
                    && cache.redis.store == if setFault then old(cache.redis.store)
                                            else old(cache.redis.store)[key := Entry(r.val, now + cache.l2TTL)])
      ensures Keeps(old(cache.l1), cache.l1, cache.l1TTL, key, now, FoundRow(r))
    {
      var got := cache.Get(key, now, getFault);
      if got.Hit? {
        return Found(got.val);
      }
      if dbFault {
        return DbError;
      }
      if key !in rows {
        return NotFound;
      }
      var _ := cache.Set(key, rows[key], now, setFault);
      return Found(rows[key]);
    }

    method Invalidate(key: Key, delFault: bool, publishFault: bool) returns (ok: bool)
      modifies cache`l1, cache.redis
      ensures ok == !delFault
      ensures cache.l1 == old(cache.l1) - {key}
      ensures cache.redis.store == if ok then old(cache.redis.store) - {key} else old(cache.redis.store)
      ensures cache.redis.published ==
              if ok && !publishFault then old(cache.redis.published) + [key] else old(cache.redis.published)
    {
      ok := cache.Delete(key, delFault, publishFault);
    }
  }
}

/** Session memory over whole sequential runs with one TTL. */
module SessionRuns {
  import opened Maybe
  import opened SessionIndex
  import opened SessionStore

  datatype Op =
    | Set(sid: string, key: string, value: Value, times: Times, deliveries: Deliveries)
    | Delete(sid: string, at: int)

  function Start(op: Op): int {
    match op
    case Set(_, _, _, t, _) => t.setex
    case Delete(_, at) => at
  }

  function End(op: Op): int {
    match op
    case Set(_, _, _, t, _) => t.expire
    case Delete(_, at) => at
  }

  function Apply(db: Db, op: Op, ttl: int): Db {
    match op
    case Set(sid, key, value, t, d) => AfterSet(db, sid, key, value, ttl, t, d)
    case Delete(sid, at) => AfterDelete(db, sid, at)
  }

  function Run(ops: seq<Op>, ttl: int): Db {
    if ops == [] then map[] else Apply(Run(ops[..|ops| - 1], ttl), ops[|ops| - 1], ttl)
  }

  /**
   Calls follow one another, with clean names, and every set keeps its own key listed, however far it got:
   the condition that SetKeepsIndex shows to be needed.
   */
  ghost predicate Sequential(ops: seq<Op>, ttl: int) {
    ops == [] ||
    (var op, before := ops[|ops| - 1], ops[..|ops| - 1];
     && Sequential(before, ttl)
     && ':' !in op.sid
     && (before != [] ==> End(before[|before| - 1]) <= Start(op))
     && (op.Set? ==> op.key != "__keys__" && InOrder(op.times))
     && (op.Set? ==> KeepsIndex(Run(before, ttl), op.sid, op.key, ttl, op.times, op.deliveries)))
  }

  /** The deadline of every value is at most one TTL away. */
  ghost predicate OneTtl(db: Db, ttl: int, now: int) {
    forall sid: string, key: string :: CleanName(sid, key) && RedisKey(sid, key) in db ==>
      db[RedisKey(sid, key)].deadline.Some? && db[RedisKey(sid, key)].deadline.value <= now + ttl
  }

  ghost predicate AllListed(db: Db, now: int) {
    forall sid: string :: ':' !in sid ==> StaysListed(db, sid, now)
  }

  lemma OtherSessionKept(db: Db, db': Db, sid: string, now: int, now': int)
    requires StaysListed(db, sid, now) && now <= now'
    requires forall key: string :: RedisKey(sid, key) in db' <==> RedisKey(sid, key) in db
    requires forall key: string :: RedisKey(sid, key) in db ==> db'[RedisKey(sid, key)] == db[RedisKey(sid, key)]
    ensures StaysListed(db', sid, now')
  {
    IndexIsKey(sid);
    StaysListedIsCovers(db, sid, now);
    StaysListedIsCovers(db', sid, now');
    hide RedisKey, IndexKey, StaysListed;
    forall key: string | key != "__keys__" ensures CoversKey(db', sid, key, now') {
      assert CoversKey(db, sid, key, now);
    }
  }

  /** A session id without a colon: a set in one session leaves every other as it was. */
  lemma SetTouchesOwnSession(db: Db, sid: string, key: string, value: Value, ttl: int, t: Times, d: Deliveries, other: string, k: string)
    requires ':' !in sid && ':' !in other && sid != other
    ensures var db' := AfterSet(db, sid, key, value, ttl, t, d);
      && (RedisKey(other, k) in db' <==> RedisKey(other, k) in db)
      && (RedisKey(other, k) in db ==> db'[RedisKey(other, k)] == db[RedisKey(other, k)])
  {
    KeysAreInjective(sid, key, other, k);
  }

  lemma DeleteTouchesOwnSession(db: Db, sid: string, t: int, other: string, k: string)
    requires ':' !in sid && ':' !in other && sid != other
    ensures var db' := AfterDelete(db, sid, t);
      && (RedisKey(other, k) in db' <==> RedisKey(other, k) in db)
      && (RedisKey(other, k) in db ==> db'[RedisKey(other, k)] == db[RedisKey(other, k)])
  {
    KeysAreInjective(sid, "", other, k);
    forall n: string ensures RedisKey(sid, n) != RedisKey(other, k) {
      KeysAreInjective(sid, n, other, k);
    }
  }

  lemma SetKeepsTtl(db: Db, sid: string, key: string, value: Value, ttl: int, t: Times, d: Deliveries, now: int)
    requires Typed(db) && CleanName(sid, key) && InOrder(t) && ttl > 0 && OneTtl(db, ttl, now) && now <= t.setex
    ensures OneTtl(AfterSet(db, sid, key, value, ttl, t, d), ttl, t.expire)
  {
    var db' := AfterSet(db, sid, key, value, ttl, t, d);
    SetPointwise(db, sid, key, value, ttl, t, d, db');
    forall s: string, k: string | CleanName(s, k) && RedisKey(s, k) in db'
      ensures db'[RedisKey(s, k)].deadline.Some? && db'[RedisKey(s, k)].deadline.value <= t.expire + ttl
    {
      KeysAreInjective(sid, key, s, k);
    }
  }

  lemma Later(db: Db, sid: string, now: int, later: int)
    requires StaysListed(db, sid, now) && now <= later
    ensures StaysListed(db, sid, later)
  {
  }

  lemma SetKeepsAll(db: Db, sid: string, key: string, value: Value, ttl: int, t: Times, d: Deliveries, now: int)
    requires Typed(db) && CleanName(sid, key) && InOrder(t) && ttl > 0
    requires OneTtl(db, ttl, now) && AllListed(db, now) && now <= t.setex && KeepsIndex(db, sid, key, ttl, t, d)
    ensures AllListed(AfterSet(db, sid, key, value, ttl, t, d), t.expire)
  {
    var db' := AfterSet(db, sid, key, value, ttl, t, d);
    forall s: string | ':' !in s ensures StaysListed(db', s, t.expire) {
      assert StaysListed(db, s, now);
      if s == sid {
        Later(db, sid, now, t.setex);
        SetKeepsIndex(db, sid, key, value, ttl, t, d, db');
        forall other: string ensures !OutlivesIndex(db, sid, key, other, t, ttl) {
        }
      } else {
        forall k: string
          ensures RedisKey(s, k) in db' <==> RedisKey(s, k) in db
          ensures RedisKey(s, k) in db ==> db'[RedisKey(s, k)] == db[RedisKey(s, k)]
        {
          SetTouchesOwnSession(db, sid, key, value, ttl, t, d, s, k);
        }
        OtherSessionKept(db, db', s, now, t.expire);
      }
    }
  }

  /** After a delete nothing of the session is live any more, provided the index was complete. */
  lemma DeleteLeavesNothing(db: Db, sid: string, t: int, later: int, key: string)
    requires ':' !in sid && Listed(db, sid, t) && Typed(db) && t <= later
    ensures !Live(AfterDelete(db, sid, t), RedisKey(sid, key), later)
  {
    IndexIsKey(sid);
    if key != "__keys__" && Live(db, RedisKey(sid, key), t) {
      assert key in Names(db, sid, t);
    }
  }

  lemma DeleteKeepsAll(db: Db, sid: string, t: int, now: int)
    requires Typed(db) && ':' !in sid && AllListed(db, now) && now <= t
    ensures AllListed(AfterDelete(db, sid, t), t)
  {
    var db' := AfterDelete(db, sid, t);
    forall s: string | ':' !in s ensures StaysListed(db', s, t) {
      assert StaysListed(db, s, now);
      if s == sid {
        assert Listed(db, sid, t);
        forall later | t <= later ensures Listed(db', sid, later) {
          forall key: string ensures !Live(db', RedisKey(sid, key), later) {
            DeleteLeavesNothing(db, sid, t, later, key);
          }
        }
      } else {
        forall k: string
          ensures RedisKey(s, k) in db' <==> RedisKey(s, k) in db
          ensures RedisKey(s, k) in db ==> db'[RedisKey(s, k)] == db[RedisKey(s, k)]
        {
          DeleteTouchesOwnSession(db, sid, t, s, k);
        }
        OtherSessionKept(db, db', s, now, t);
      }
    }
  }

  lemma DeleteKeepsTypes(db: Db, sid: string, t: int, ttl: int, now: int)
    requires Typed(db) && OneTtl(db, ttl, now) && now <= t
    ensures Typed(AfterDelete(db, sid, t)) && OneTtl(AfterDelete(db, sid, t), ttl, t)
  {
  }

  /** In every sequential run with one TTL, every index stays complete. */
  lemma {:induction false} IndexesStayComplete(ops: seq<Op>, ttl: int, now: int)
    requires ttl > 0 && Sequential(ops, ttl) && (ops != [] ==> End(ops[|ops| - 1]) <= now)
    ensures Typed(Run(ops, ttl)) && OneTtl(Run(ops, ttl), ttl, now) && AllListed(Run(ops, ttl), now)
  {
    if ops != [] {
      var op, before := ops[|ops| - 1], ops[..|ops| - 1];
      var db := Run(before, ttl);
      IndexesStayComplete(before, ttl, Start(op));
      match op {
        case Set(sid, key, value, t, d) =>
          SetKeepsTypes(db, sid, key, value, ttl, t, d);
          SetKeepsTtl(db, sid, key, value, ttl, t, d, Start(op));
          SetKeepsAll(db, sid, key, value, ttl, t, d, Start(op));
        case Delete(sid, at) =>
          DeleteKeepsTypes(db, sid, at, ttl, Start(op));
          DeleteKeepsAll(db, sid, at, Start(op));
      }
      forall sid: string | ':' !in sid ensures StaysListed(Run(ops, ttl), sid, now) {
        assert StaysListed(Run(ops, ttl), sid, End(op));
        Later(Run(ops, ttl), sid, End(op), now);
      }
    }
  }
}

/**
 Session memory itself: the four operations on the Redis keyspace, and what they give when the index
 is complete.
 */
module SessionMemories {
  import opened Maybe
  import opened SessionIndex
  import opened SessionRuns
  import opened SessionStore

  const DEFAULT_TTL: int := 86400

  const ALL_ANSWERED := Deliveries(Answered, Answered, Answered)

  /** GET of one key: an error if the key holds a set. */
  datatype Reply = WrongType | Value(value: Option<string>)

  /** What is read after a set, under its own name and under every other. */
  lemma SetReadsBack(db: Db, sid: string, key: string, value: Value, ttl: int, t: Times, d: Deliveries)
    ensures var db' := AfterSet(db, sid, key, value, ttl, t, d);
      CleanName(sid, key) ==>
        && (!StageOf(ttl, d).Nothing? ==> forall now :: now < t.setex + ttl ==>
              Reading(db', sid, key, now) == if value.Json? then Some(value.text) else None)
        && (forall sid': string, key': string, now :: CleanName(sid', key') && (sid' != sid || key' != key) ==>
              Reading(db', sid', key', now) == Reading(db, sid', key', now))
    ensures Typed(db) && CleanName(sid, key) ==>
              !Clashes(db[RedisKey(sid, key) := Text(value, Some(t.setex + ttl))], sid, t.sadd)
  {
    if CleanName(sid, key) {
      KeysAreInjective(sid, key, sid, key);
      forall sid': string, key': string | CleanName(sid', key') && (sid' != sid || key' != key)
        ensures RedisKey(sid', key') != RedisKey(sid, key) && RedisKey(sid', key') != IndexKey(sid)
      {
        KeysAreInjective(sid, key, sid', key');
      }
      hide RedisKey, IndexKey;
    }
  }

  /**
   The whole effect of a set, told by its TTL and by what becomes of its three commands: the value is stored
   unless the TTL is refused or SETEX is lost; the name is listed if SETEX was answered and SADD takes effect;
   and the index gets a new deadline if SADD was answered and EXPIRE takes effect on an index still there.
   */
  lemma SetExactly(db: Db, sid: string, key: string, value: Value, ttl: int, t: Times, d: Deliveries)
    requires Typed(db) && CleanName(sid, key) && InOrder(t)
    ensures
      var db', vk, ik := AfterSet(db, sid, key, value, ttl, t, d), RedisKey(sid, key), IndexKey(sid);
      var stored := ttl > 0 && d.setex != Lost;
      var listed := stored && d.setex == Answered && d.sadd != Lost;
      var aged := listed && d.sadd == Answered && d.expire != Lost;
      && vk != ik
      && (!stored ==> db' == db)
      && (stored && !listed ==> db' == db[vk := Text(value, Some(t.setex + ttl))])
      && (listed ==> ik in db' && db' == db[vk := Text(value, Some(t.setex + ttl))][ik := db'[ik]])
      && (listed && Live(db, ik, t.sadd) ==>
            db'[ik] == Members(db[ik].names + {key}, if aged && Live(db, ik, t.expire) then Some(t.expire + ttl) else db[ik].deadline))
      && (listed && !Live(db, ik, t.sadd) ==> db'[ik] == Members({key}, if aged then Some(t.expire + ttl) else None))
  {
    KeysAreInjective(sid, key, sid, key);
    hide RedisKey, IndexKey;
  }

  class SessionMemory {
    var db: Db

    /**
     The three commands, at the moments they reach Redis; false if one of them raised. A value that was
     answered for is read back until its deadline, and no other name of any session reads differently.
     */
    method Set(sid: string, key: string, value: Value, ttlSeconds: Option<int>, t: Times, d: Deliveries) returns (ok: bool)
      modifies this
      ensures var ttl := if ttlSeconds.Some? then ttlSeconds.value else DEFAULT_TTL;
        && db == AfterSet(old(db), sid, key, value, ttl, t, d)
        && (ok ==> ttl > 0 && d == Deliveries(Answered, Answered, Answered))
        && (ttl > 0 && d == Deliveries(Answered, Answered, Answered) && Typed(old(db)) && CleanName(sid, key) ==> ok)
        && (ok && CleanName(sid, key) ==> forall now :: now < t.setex + ttl ==>
              Reading(db, sid, key, now) == if value.Json? then Some(value.text) else None)
      ensures CleanName(sid, key) ==> forall sid': string, key': string, now ::
        CleanName(sid', key') && (sid' != sid || key' != key) ==>
          Reading(db, sid', key', now) == Reading(old(db), sid', key', now)
    {
      var ttl := if ttlSeconds.Some? then ttlSeconds.value else DEFAULT_TTL;
      SetReadsBack(db, sid, key, value, ttl, t, d);
      if ttl <= 0 || d.setex.Lost? {
        return false;
      }
      db := db[RedisKey(sid, key) := Text(value, Some(t.setex + ttl))];
      if d.setex.Unanswered? || d.sadd.Lost? || Clashes(db, sid, t.sadd) {
        return false;
      }
      db := Sadd(db, sid, key, t.sadd);
      if d.sadd.Unanswered? || d.expire.Lost? {
        return false;
      }
      db := Expire(db, IndexKey(sid), t.expire, ttl);
      return d.expire.Answered?;
    }

    method Get(sid: string, key: string, t: int) returns (reply: Reply)
      ensures reply == if Live(db, RedisKey(sid, key), t) && db[RedisKey(sid, key)].Members? then WrongType
                       else Reply.Value(Reading(db, sid, key, t))
    {
      var k := RedisKey(sid, key);
      if !Live(db, k, t) {
        return Reply.Value(None);
      }
      match db[k] {
        case Members(_, _) => return WrongType;
        case Text(Null, _) => return Reply.Value(None);
        case Text(Json(text), _) => return Reply.Value(Some(text));
      }
    }

    /**
     Lists the index at time `from`, then reads the names one by one, in the order in which Redis
     lists them, until time `to`. An error is None.
     */
    method GetAll(sid: string, from: int, to: int) returns (result: Option<map<string, string>>)
      requires from <= to
      ensures result.Some? ==> !Clashes(db, sid, from)
      ensures result.Some? ==> forall key :: key in result.value ==>
        key in Names(db, sid, from) && Reading(db, sid, key, from) == Some(result.value[key])
      ensures result.Some? ==> forall key :: key in Names(db, sid, from) && Reading(db, sid, key, to).Some? ==>
        key in result.value
      ensures Listed(db, sid, from) && result.Some? ==>
        forall key: string :: key != "__keys__" && Reading(db, sid, key, to).Some? ==> key in result.value
      ensures Typed(db) && ':' !in sid ==> result.Some?
    {
      if Clashes(db, sid, from) {
        return None;
      }
      var names := Names(db, sid, from);
      var entries: map<string, string> := map[];
      var todo := names;
      var t := from;
      while todo != {}
        invariant todo <= names && from <= t <= to
        invariant forall key :: key in entries ==>
          key in names - todo && Reading(db, sid, key, from) == Some(entries[key])
        invariant forall key :: key in names - todo && Reading(db, sid, key, to).Some? ==> key in entries
        decreases todo
      {
        var key :| key in todo;
        var at :| t <= at <= to;
        t := at;
        var reply := Get(sid, key, t);
        if reply.WrongType? {
          return None;
        }
        if reply.value.Some? {
          entries := entries[key := reply.value.value];
        }
        todo := todo - {key};
      }
      return Some(entries);
    }

    /** Deletes what the index listed at time t, and the index. */
    method DeleteSession(sid: string, t: int) returns (ok: bool)
      modifies this
      ensures db == AfterDelete(old(db), sid, t) && (ok <==> !Clashes(old(db), sid, t))
    {
      if Clashes(db, sid, t) {
        return false;
      }
      var names := Names(db, sid, t);
      db := db - Doomed(sid, names);
      return true;
    }
  }

  /**
   After any sequential run with one TTL in which every set keeps its key listed: the live keys are those
   that get_all looks at, and a delete leaves none of them, then or later.
   */
  lemma SessionContract(ops: seq<Op>, ttl: int, sid: string, t: int, key: string)
    requires ttl > 0 && Sequential(ops, ttl) && (ops != [] ==> End(ops[|ops| - 1]) <= t)
    requires CleanName(sid, key)
    ensures !Clashes(Run(ops, ttl), sid, t)
    ensures Live(Run(ops, ttl), RedisKey(sid, key), t) ==> key in Names(Run(ops, ttl), sid, t)
    ensures forall later :: t <= later ==> !Live(AfterDelete(Run(ops, ttl), sid, t), RedisKey(sid, key), later)
  {
    IndexesStayComplete(ops, ttl, t);
    assert StaysListed(Run(ops, ttl), sid, t) && Listed(Run(ops, ttl), sid, t);
    forall later | t <= later ensures !Live(AfterDelete(Run(ops, ttl), sid, t), RedisKey(sid, key), later) {
      DeleteLeavesNothing(Run(ops, ttl), sid, t, later, key);
    }
  }

  /**
   With two TTLs the promise fails: a later set with a shorter TTL takes the index away early, after
   which get_all lists nothing and a delete leaves the older value behind.
   */
  lemma ShorterTtlHidesKeys(db: Db)
    requires db == AfterSet(AfterSet(map[], "s", "a", Json("1"), 100, Times(0, 0, 0), ALL_ANSWERED), "s", "b", Json("2"), 10, Times(0, 0, 0), ALL_ANSWERED)
    ensures Names(db, "s", 50) == {}
    ensures Reading(AfterDelete(db, "s", 50), "s", "a", 50) == Some("1")
  {
    KeysAreInjective("s", "a", "s", "b");
    KeysAreInjective("s", "b", "s", "a");
    KeysAreInjective("s", "a", "s", "a");
  }

  /** It fails with one TTL too when the index runs out between SADD and EXPIRE. */
  lemma ExpiringIndexHidesKey(db: Db)
    requires db == AfterSet(AfterSet(map[], "s", "a", Json("1"), 100, Times(0, 0, 0), ALL_ANSWERED), "s", "b", Json("2"), 100, Times(99, 99, 100), ALL_ANSWERED)
    ensures Names(db, "s", 100) == {}
    ensures Reading(AfterDelete(db, "s", 100), "s", "b", 100) == Some("2")
  {
    KeysAreInjective("s", "a", "s", "b");
    KeysAreInjective("s", "b", "s", "a");
    KeysAreInjective("s", "a", "s", "a");
  }

  /** And when the connection breaks, or the call is cancelled, between SETEX and SADD. */
  lemma BrokenSetHidesKey(db: Db)
    requires db == AfterSet(map[], "s", "a", Json("1"), 100, Times(0, 0, 0), Deliveries(Answered, Lost, Lost))
    ensures Names(db, "s", 50) == {}
    ensures Reading(AfterDelete(db, "s", 50), "s", "a", 50) == Some("1")
  {
    KeysAreInjective("s", "a", "s", "a");
  }
}

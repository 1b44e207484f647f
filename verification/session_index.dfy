/** When the index of a session lists what the session holds. */
module SessionIndex {
  import opened Maybe
  import opened SessionStore

  predicate CleanName(sid: string, key: string) {
    ':' !in sid && key != "__keys__"
  }

  /** Values and indexes keep to their own keys. */
  ghost predicate Typed(db: Db) {
    && (forall sid: string :: ':' !in sid && IndexKey(sid) in db ==>
         db[IndexKey(sid)].Members? && "__keys__" !in db[IndexKey(sid)].names)
    && (forall sid: string, key: string :: CleanName(sid, key) && RedisKey(sid, key) in db ==> db[RedisKey(sid, key)].Text?)
  }

  /** Every live key of the session is in its live index, at time t. */
  ghost predicate Listed(db: Db, sid: string, t: int) {
    forall key: string :: key != "__keys__" && Live(db, RedisKey(sid, key), t) ==>
      Live(db, IndexKey(sid), t) && db[IndexKey(sid)].Members? && key in db[IndexKey(sid)].names
  }

  /** From time t on, for as long as nothing is written. */
  ghost predicate StaysListed(db: Db, sid: string, t: int) {
    forall later :: t <= later ==> Listed(db, sid, later)
  }

  predicate Outlives(a: Option<int>, b: Option<int>) {
    a.None? || (b.Some? && b.value <= a.value)
  }

  /** One key, if it is live, is in a live index that expires no earlier. */
  predicate CoversKey(db: Db, sid: string, key: string, t: int) {
    Live(db, RedisKey(sid, key), t) ==>
      && Live(db, IndexKey(sid), t)
      && db[IndexKey(sid)].Members?
      && key in db[IndexKey(sid)].names
      && Outlives(db[IndexKey(sid)].deadline, db[RedisKey(sid, key)].deadline)
  }

  /** What StaysListed comes to: the index lists every live key and expires no earlier than any of them. */
  ghost predicate Covers(db: Db, sid: string, t: int) {
    forall key: string :: key != "__keys__" ==> CoversKey(db, sid, key, t)
  }

  lemma StaysListedIsCovers(db: Db, sid: string, t: int)
    ensures StaysListed(db, sid, t) <==> Covers(db, sid, t)
  {
    if StaysListed(db, sid, t) {
      forall key: string | key != "__keys__" ensures CoversKey(db, sid, key, t) {
        if Live(db, RedisKey(sid, key), t) {
          assert Listed(db, sid, t);
          var index := db[IndexKey(sid)].deadline;
          if index.Some? && Before(index.value, db[RedisKey(sid, key)].deadline) {
            assert Listed(db, sid, index.value);
            assert Live(db, RedisKey(sid, key), index.value);
            assert false;
          }
        }
      }
    }
    if Covers(db, sid, t) {
      forall later | t <= later ensures Listed(db, sid, later) {
        forall key: string | key != "__keys__" && Live(db, RedisKey(sid, key), later)
          ensures Live(db, IndexKey(sid), later) && db[IndexKey(sid)].Members? && key in db[IndexKey(sid)].names
        {
          assert CoversKey(db, sid, key, t);
        }
      }
    }
  }

  /** The index expires between SADD, which still found it, and EXPIRE, which comes too late for it. */
  predicate LosesIndex(db: Db, sid: string, t: Times) {
    Live(db, IndexKey(sid), t.sadd) && !Live(db, IndexKey(sid), t.expire)
  }

  /** What a set leaves in the database, key by key. */
  lemma SetPointwise(db: Db, sid: string, key: string, value: Value, ttl: int, t: Times, d: Deliveries, db': Db)
    requires Typed(db) && CleanName(sid, key) && InOrder(t)
    requires db' == AfterSet(db, sid, key, value, ttl, t, d)
    ensures RedisKey(sid, key) != IndexKey(sid)
    ensures StageOf(ttl, d).Nothing? ==> db' == db
    ensures !StageOf(ttl, d).Nothing? ==>
              RedisKey(sid, key) in db' && db'[RedisKey(sid, key)] == Text(value, Some(t.setex + ttl))
    ensures StageOf(ttl, d).Nothing? || StageOf(ttl, d).ValueStored? ==>
              (IndexKey(sid) in db' <==> IndexKey(sid) in db) && (IndexKey(sid) in db ==> db'[IndexKey(sid)] == db[IndexKey(sid)])
    ensures StageOf(ttl, d).NameListed? || StageOf(ttl, d).Complete? ==>
              IndexKey(sid) in db' && db'[IndexKey(sid)] == Members(NewNames(db, sid, key, t), NewDeadline(db, sid, ttl, t, d))
    ensures forall k :: k != RedisKey(sid, key) && k != IndexKey(sid) ==>
              (k in db' <==> k in db) && (k in db ==> db'[k] == db[k])
  {
    KeysAreInjective(sid, key, sid, key);
  }

  function NewNames(db: Db, sid: string, key: string, t: Times): set<string> {
    if Live(db, IndexKey(sid), t.sadd) && db[IndexKey(sid)].Members? then db[IndexKey(sid)].names + {key} else {key}
  }

  function NewDeadline(db: Db, sid: string, ttl: int, t: Times, d: Deliveries): Option<int> {
    var kept := if Live(db, IndexKey(sid), t.sadd) then db[IndexKey(sid)].deadline else None;
    if StageOf(ttl, d).Complete? && !LosesIndex(db, sid, t) then Some(t.expire + ttl) else kept
  }

  lemma SetKeepsTypes(db: Db, sid: string, key: string, value: Value, ttl: int, t: Times, d: Deliveries)
    requires Typed(db) && CleanName(sid, key) && InOrder(t)
    ensures Typed(AfterSet(db, sid, key, value, ttl, t, d))
  {
    var db' := AfterSet(db, sid, key, value, ttl, t, d);
    SetPointwise(db, sid, key, value, ttl, t, d, db');
    forall s: string | ':' !in s && IndexKey(s) in db'
      ensures db'[IndexKey(s)].Members? && "__keys__" !in db'[IndexKey(s)].names
    {
      KeysAreInjective(s, key, sid, key);
    }
    forall s: string, k: string | CleanName(s, k) && RedisKey(s, k) in db' ensures db'[RedisKey(s, k)].Text? {
      KeysAreInjective(sid, key, s, k);
      KeysAreInjective(s, k, sid, key);
    }
  }

  /** The value just stored is gone again by the time the call ends. */
  predicate GoneAgain(ttl: int, t: Times) {
    t.setex + ttl <= t.expire
  }

  /**
   What a set does for its own key: a set that stops after SETEX relies on an index that lists the key
   already and outlives the value; one that stops after SADD on an index that outlives it, or on a new one,
   which has no deadline yet; a complete one on an index that did not run out in between.
   */
  predicate KeepsIndex(db: Db, sid: string, key: string, ttl: int, t: Times, d: Deliveries) {
    match StageOf(ttl, d)
    case Nothing => true
    case ValueStored =>
      GoneAgain(ttl, t)
      || (Live(db, IndexKey(sid), t.expire) && db[IndexKey(sid)].Members? && key in db[IndexKey(sid)].names
          && Outlives(db[IndexKey(sid)].deadline, Some(t.setex + ttl)))
    case NameListed =>
      GoneAgain(ttl, t) || !Live(db, IndexKey(sid), t.sadd) || Outlives(db[IndexKey(sid)].deadline, Some(t.setex + ttl))
    case Complete => LosesIndex(db, sid, t) ==> GoneAgain(ttl, t)
  }

  /** Another key of the session that is still live when the set is done, and would outlive the index. */
  ghost predicate OutlivesIndex(db: Db, sid: string, key: string, other: string, t: Times, ttl: int) {
    && other != key && other != "__keys__"
    && Live(db, RedisKey(sid, other), t.expire)
    && !Outlives(Some(t.expire + ttl), db[RedisKey(sid, other)].deadline)
  }

  /** The other keys of the session, before and after. */
  lemma OthersKept(db: Db, sid: string, key: string, value: Value, ttl: int, t: Times, d: Deliveries, db': Db, other: string)
    requires Typed(db) && CleanName(sid, key) && InOrder(t) && db' == AfterSet(db, sid, key, value, ttl, t, d)
    requires other != "__keys__"
    ensures RedisKey(sid, other) != IndexKey(sid) && (RedisKey(sid, other) == RedisKey(sid, key) <==> other == key)
    ensures other != key ==>
              (RedisKey(sid, other) in db' <==> RedisKey(sid, other) in db)
              && (RedisKey(sid, other) in db ==> db'[RedisKey(sid, other)] == db[RedisKey(sid, other)])
  {
    SetPointwise(db, sid, key, value, ttl, t, d, db');
    KeysAreInjective(sid, key, sid, other);
  }

  /** The set's own key. */
  lemma OwnKeyCovered(db: Db, sid: string, key: string, value: Value, ttl: int, t: Times, d: Deliveries, db': Db)
    requires Typed(db) && CleanName(sid, key) && InOrder(t) && CoversKey(db, sid, key, t.setex)
    requires db' == AfterSet(db, sid, key, value, ttl, t, d)
    ensures CoversKey(db', sid, key, t.expire) <==> KeepsIndex(db, sid, key, ttl, t, d)
  {
    SetPointwise(db, sid, key, value, ttl, t, d, db');
    hide AfterSet, RedisKey, IndexKey, Typed;
  }

  /** Every other key of the session. */
  lemma OtherKeyCovered(db: Db, sid: string, key: string, value: Value, ttl: int, t: Times, d: Deliveries, db': Db, other: string)
    requires Typed(db) && CleanName(sid, key) && InOrder(t) && other != key && other != "__keys__"
    requires CoversKey(db, sid, other, t.setex) && db' == AfterSet(db, sid, key, value, ttl, t, d)
    ensures CoversKey(db', sid, other, t.expire)
       <==> (StageOf(ttl, d).Complete? ==> !OutlivesIndex(db, sid, key, other, t, ttl))
  {
    SetPointwise(db, sid, key, value, ttl, t, d, db');
    OthersKept(db, sid, key, value, ttl, t, d, db', other);
    hide AfterSet, RedisKey, IndexKey, Typed;
  }

  /**
   Exactly when a set keeps the index complete, however far its commands get. A shorter TTL than a live
   key still has does not: it shortens the life of the whole index. For the key itself see KeepsIndex.
   */
  lemma SetKeepsIndex(db: Db, sid: string, key: string, value: Value, ttl: int, t: Times, d: Deliveries, db': Db)
    requires Typed(db) && CleanName(sid, key) && InOrder(t)
    requires StaysListed(db, sid, t.setex)
    requires db' == AfterSet(db, sid, key, value, ttl, t, d)
    ensures StaysListed(db', sid, t.expire)
       <==> && KeepsIndex(db, sid, key, ttl, t, d)
            && (StageOf(ttl, d).Complete? ==> forall other: string :: !OutlivesIndex(db, sid, key, other, t, ttl))
  {
    StaysListedIsCovers(db, sid, t.setex);
    StaysListedIsCovers(db', sid, t.expire);
    OwnKeyCovered(db, sid, key, value, ttl, t, d, db');
    forall other: string | other != key && other != "__keys__"
      ensures CoversKey(db', sid, other, t.expire)
         <==> (StageOf(ttl, d).Complete? ==> !OutlivesIndex(db, sid, key, other, t, ttl))
    {
      OtherKeyCovered(db, sid, key, value, ttl, t, d, db', other);
    }
    hide Typed, StaysListed, AfterSet, CoversKey, KeepsIndex;
  }
}

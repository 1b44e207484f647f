/**
 The Redis commands behind session memory: one keyspace of expiring strings and sets, in which each
 session keeps its values and an index of their names.
 */
module SessionStore {
  import opened Maybe

  /** What json.dumps stores. A stored null reads back as None, like an absent key. */
  datatype Value = Null | Json(text: string)

  datatype Slot =
    | Text(value: Value, deadline: Option<int>)
    | Members(names: set<string>, deadline: Option<int>)

  type Db = map<string, Slot>

  const KEY_PREFIX: string := "agent:session"

  function RedisKey(sid: string, key: string): string {
    KEY_PREFIX + ":" + sid + ":" + key
  }

  function IndexKey(sid: string): string {
    KEY_PREFIX + ":" + sid + ":__keys__"
  }

  predicate Before(t: int, deadline: Option<int>) {
    deadline.None? || t < deadline.value
  }

  predicate Live(db: Db, k: string, t: int) {
    k in db && Before(t, db[k].deadline)
  }

  /** SADD and SMEMBERS raise on a string, GET raises on a set. */
  predicate Clashes(db: Db, sid: string, t: int) {
    Live(db, IndexKey(sid), t) && db[IndexKey(sid)].Text?
  }

  function Sadd(db: Db, sid: string, key: string, t: int): Db
    requires !Clashes(db, sid, t)
  {
    var ik := IndexKey(sid);
    if Live(db, ik, t) then db[ik := Members(db[ik].names + {key}, db[ik].deadline)]
    else db[ik := Members({key}, None)]
  }

  /** EXPIRE does nothing to a key that is not there any more. */
  function Expire(db: Db, k: string, t: int, ttl: int): Db {
    if Live(db, k, t) then db[k := db[k].(deadline := Some(t + ttl))] else db
  }

  /** When the three commands of a set reach Redis. */
  datatype Times = Times(setex: int, sadd: int, expire: int)

  predicate InOrder(t: Times) {
    t.setex <= t.sadd <= t.expire
  }

  /**
   What becomes of a command: it may not reach Redis, take effect with its reply lost, or be answered. A
   lost command and a lost reply both raise, and so does a cancellation.
   */
  datatype Delivery = Lost | Unanswered | Answered

  datatype Deliveries = Deliveries(setex: Delivery, sadd: Delivery, expire: Delivery)

  /** How far a set gets. */
  datatype Stage = Nothing | ValueStored | NameListed | Complete

  function StageOf(ttl: int, d: Deliveries): Stage {
    if ttl <= 0 || d.setex.Lost? then Nothing
    else if d.setex.Unanswered? || d.sadd.Lost? then ValueStored
    else if d.sadd.Unanswered? || d.expire.Lost? then NameListed
    else Complete
  }

  function AfterSet(db: Db, sid: string, key: string, value: Value, ttl: int, t: Times, d: Deliveries): Db {
    var stored := db[RedisKey(sid, key) := Text(value, Some(t.setex + ttl))];
    match StageOf(ttl, d)
    case Nothing => db
    case ValueStored => stored
    case NameListed => if Clashes(stored, sid, t.sadd) then stored else Sadd(stored, sid, key, t.sadd)
    case Complete =>
      if Clashes(stored, sid, t.sadd) then stored
      else Expire(Sadd(stored, sid, key, t.sadd), IndexKey(sid), t.expire, ttl)
  }

  /** What SMEMBERS lists. */
  function Names(db: Db, sid: string, t: int): set<string>
    requires !Clashes(db, sid, t)
  {
    if Live(db, IndexKey(sid), t) then db[IndexKey(sid)].names else {}
  }

  function Doomed(sid: string, names: set<string>): set<string> {
    (set n | n in names :: RedisKey(sid, n)) + {IndexKey(sid)}
  }

  function AfterDelete(db: Db, sid: string, t: int): Db {
    if Clashes(db, sid, t) then db else db - Doomed(sid, Names(db, sid, t))
  }

  /** The reading of one key: None if it is absent, expired or null. */
  function Reading(db: Db, sid: string, key: string, t: int): Option<string> {
    var k := RedisKey(sid, key);
    if Live(db, k, t) && db[k].Text? && db[k].value.Json? then Some(db[k].value.text) else None
  }

  lemma FirstColon(a: string, b: string, x: string, y: string)
    requires ':' !in a && ':' !in b
    ensures a + ":" + x == b + ":" + y ==> a == b && x == y
  {
    if |a| < |b| {
      assert (a + ":" + x)[|a|] == ':' && (b + ":" + y)[|a|] == b[|a|];
    } else if |b| < |a| {
      assert (b + ":" + y)[|b|] == ':' && (a + ":" + x)[|b|] == a[|b|];
    } else {
      assert a == (a + ":" + x)[..|a|] && b == (b + ":" + y)[..|a|];
      assert x == (a + ":" + x)[|a| + 1..] && y == (b + ":" + y)[|a| + 1..];
    }
  }

  /** Session ids without a colon keep sessions apart, whatever their keys are. */
  lemma KeysAreInjective(sid: string, key: string, sid': string, key': string)
    requires ':' !in sid && ':' !in sid'
    ensures RedisKey(sid, key) == RedisKey(sid', key') <==> sid == sid' && key == key'
    ensures IndexKey(sid) == RedisKey(sid', key') <==> sid == sid' && key' == "__keys__"
    ensures IndexKey(sid) == IndexKey(sid') <==> sid == sid'
  {
    IndexIsKey(sid);
    IndexIsKey(sid');
    SplitKey(sid, key, sid', key');
    SplitKey(sid, "__keys__", sid', key');
    SplitKey(sid, "__keys__", sid', "__keys__");
  }

  lemma IndexIsKey(sid: string)
    ensures IndexKey(sid) == RedisKey(sid, "__keys__")
  {
    assert KEY_PREFIX + ":" + sid + ":" + "__keys__" == KEY_PREFIX + ":" + sid + ":__keys__";
  }

  lemma SplitKey(sid: string, key: string, sid': string, key': string)
    requires ':' !in sid && ':' !in sid'
    ensures RedisKey(sid, key) == RedisKey(sid', key') ==> sid == sid' && key == key'
  {
    var p := KEY_PREFIX + ":";
    assert RedisKey(sid, key) == p + (sid + ":" + key);
    assert RedisKey(sid', key') == p + (sid' + ":" + key');
    assert (p + (sid + ":" + key))[|p|..] == sid + ":" + key;
    assert (p + (sid' + ":" + key'))[|p|..] == sid' + ":" + key';
    FirstColon(sid, sid', key, key');
  }
}

/**
 The two request stores. `Memory` and `RedisDb` are their contents as values; the classes are the stores
 themselves, each method proved against the function of the same name. A stored request is taken to read
 back as it was written (serialisation and encryption round-trip), and a request is not changed between
 being handed to two stores, so that the comparison is about the stores alone.
 */
module HitlStore {
  import opened FiniteSets
  import opened Maybe
  import opened HitlProtocol

  // ----- the in-memory store as a value -----

  datatype Memory = Memory(active: map<Id, Request>, archived: map<Id, Request>)

  function MemorySave(m: Memory, q: Request): Memory {
    m.(active := m.active[q.id := q])
  }

  function MemoryEvict(m: Memory, id: Id): Memory {
    m.(active := m.active - {id})
  }

  function MemoryArchive(m: Memory, id: Id, q: Request): Memory {
    Memory(m.active - {id}, m.archived[id := q])
  }

  function MemoryGetActive(m: Memory, id: Id): Option<Request> {
    if id in m.active then Some(m.active[id]) else None
  }

  function MemoryGet(m: Memory, id: Id): Option<Request> {
    if id in m.active then Some(m.active[id])
    else if id in m.archived then Some(m.archived[id])
    else None
  }

  function MemoryPendingExpired(m: Memory, asOf: int): set<Request> {
    set id | id in m.active && m.active[id].status == PENDING && asOf >= m.active[id].expiresAt :: m.active[id]
  }

  // ----- Redis -----

  const HOUR := 3600
  const DAY := 86400

  /** A key's value and the moment it stops existing. */
  datatype Timed = Timed(request: Request, deadline: int)

  /** The settings `hitl_redis_key_prefix`, `hitl_redis_ttl_grace_hours` and `hitl_expired_ttl_days`. */
  datatype Settings = Settings(prefix: string, graceHours: int, expiredDays: int)

  datatype RedisDb = RedisDb(keys: map<string, Timed>, pending: map<Id, int>)

  function ReqKey(k: Settings, id: Id): string { k.prefix + ":req:" + id.text }

  function ExpiredKey(k: Settings, id: Id): string { k.prefix + ":expired:" + id.text }

  /** GET: a key whose deadline has passed is absent. */
  function Look(db: RedisDb, key: string, now: int): Option<Request> {
    if key in db.keys && now < db.keys[key].deadline then Some(db.keys[key].request) else None
  }

  function SaveDeadline(k: Settings, q: Request, now: int): int {
    var ttl := q.expiresAt - now + k.graceHours * HOUR;
    now + (if ttl < 1 then 1 else ttl)
  }

  function RedisSave(k: Settings, db: RedisDb, q: Request, now: int): RedisDb {
    RedisDb(db.keys[ReqKey(k, q.id) := Timed(q, SaveDeadline(k, q, now))], db.pending[q.id := q.expiresAt])
  }

  function RedisEvict(k: Settings, db: RedisDb, id: Id): RedisDb {
    RedisDb(db.keys - {ReqKey(k, id)}, db.pending - {id})
  }

  function RedisArchive(k: Settings, db: RedisDb, id: Id, q: Request, now: int): RedisDb {
    RedisDb((db.keys - {ReqKey(k, id)})[ExpiredKey(k, id) := Timed(q, now + k.expiredDays * DAY)], db.pending - {id})
  }

  function RedisGetActive(k: Settings, db: RedisDb, id: Id, now: int): Option<Request> {
    Look(db, ReqKey(k, id), now)
  }

  function RedisGet(k: Settings, db: RedisDb, id: Id, now: int): Option<Request> {
    var live := Look(db, ReqKey(k, id), now);
    if live.Some? then live else Look(db, ExpiredKey(k, id), now)
  }

  /** The pending members with a score up to `asOf`, read back at time `now`. */
  function RedisPendingExpired(k: Settings, db: RedisDb, asOf: int, now: int): set<Request> {
    set id | id in db.pending && db.pending[id] <= asOf && RedisGetActive(k, db, id, now).Some?
             && RedisGetActive(k, db, id, now).value.status == PENDING :: RedisGetActive(k, db, id, now).value
  }

  // ----- key encoding -----

  /** Different requests have different keys, and a live key is never an archive key. */
  lemma KeysDistinct(k: Settings, a: Id, b: Id)
    ensures ReqKey(k, a) == ReqKey(k, b) ==> a == b
    ensures ExpiredKey(k, a) == ExpiredKey(k, b) ==> a == b
    ensures ReqKey(k, a) != ExpiredKey(k, b)
  {
    var n := |k.prefix|;
    assert ReqKey(k, a)[n + 5..] == a.text && ReqKey(k, b)[n + 5..] == b.text;
    assert ExpiredKey(k, a)[n + 9..] == a.text && ExpiredKey(k, b)[n + 9..] == b.text;
    assert ReqKey(k, a)[n + 1] == 'r' && ExpiredKey(k, b)[n + 1] == 'e';
  }

  // ----- any sequence of operations on both -----

  datatype Operation =
    | OpSave(request: Request)
    | OpEvict(id: Id)
    | OpArchive(id: Id, request: Request)

  function MemoryApply(m: Memory, op: Operation): Memory {
    match op
    case OpSave(q) => MemorySave(m, q)
    case OpEvict(id) => MemoryEvict(m, id)
    case OpArchive(id, q) => MemoryArchive(m, id, q)
  }

  function RedisApply(k: Settings, db: RedisDb, op: Operation, now: int): RedisDb {
    match op
    case OpSave(q) => RedisSave(k, db, q, now)
    case OpEvict(id) => RedisEvict(k, db, id)
    case OpArchive(id, q) => RedisArchive(k, db, id, q, now)
  }

  function MemoryRun(ops: seq<(Operation, int)>): Memory {
    if ops == [] then Memory(map[], map[])
    else MemoryApply(MemoryRun(ops[..|ops| - 1]), ops[|ops| - 1].0)
  }

  function RedisRun(k: Settings, ops: seq<(Operation, int)>): RedisDb {
    if ops == [] then RedisDb(map[], map[])
    else RedisApply(k, RedisRun(k, ops[..|ops| - 1]), ops[|ops| - 1].0, ops[|ops| - 1].1)
  }

  /** Redis holds what memory holds, deadlines aside. */
  ghost predicate Mirrors(k: Settings, m: Memory, db: RedisDb) {
    MirrorsLive(k, m, db) && MirrorsArchived(k, m, db) && MirrorsPending(m, db)
  }

  ghost predicate MirrorsLive(k: Settings, m: Memory, db: RedisDb) {
    && (forall id :: id in m.active <==> ReqKey(k, id) in db.keys)
    && (forall id :: id in m.active ==>
         m.active[id] == db.keys[ReqKey(k, id)].request && m.active[id].id == id)
  }

  ghost predicate MirrorsArchived(k: Settings, m: Memory, db: RedisDb) {
    && (forall id :: id in m.archived <==> ExpiredKey(k, id) in db.keys)
    && (forall id :: id in m.archived ==> m.archived[id] == db.keys[ExpiredKey(k, id)].request)
  }

  ghost predicate MirrorsPending(m: Memory, db: RedisDb) {
    && db.pending.Keys == m.active.Keys
    && (forall id :: id in m.active ==> db.pending[id] == m.active[id].expiresAt)
  }

  /** The keys of one request, against those of every other. */
  lemma KeysOf(k: Settings, id: Id)
    ensures forall a: Id {:trigger ReqKey(k, a)} :: (ReqKey(k, a) == ReqKey(k, id) ==> a == id) && ReqKey(k, a) != ExpiredKey(k, id)
    ensures forall a: Id {:trigger ExpiredKey(k, a)} ::
              (ExpiredKey(k, a) == ExpiredKey(k, id) ==> a == id) && ExpiredKey(k, a) != ReqKey(k, id)
  {
    forall a: Id
      ensures (ReqKey(k, a) == ReqKey(k, id) ==> a == id) && ReqKey(k, a) != ExpiredKey(k, id)
      ensures (ExpiredKey(k, a) == ExpiredKey(k, id) ==> a == id) && ExpiredKey(k, a) != ReqKey(k, id)
    {
      KeysDistinct(k, a, id);
      KeysDistinct(k, id, a);
    }
  }

  lemma SaveMirrors(k: Settings, m: Memory, db: RedisDb, q: Request, now: int)
    requires Mirrors(k, m, db)
    ensures Mirrors(k, MemorySave(m, q), RedisSave(k, db, q, now))
  {
    hide ReqKey, ExpiredKey, SaveDeadline;
    KeysOf(k, q.id);
  }

  lemma EvictMirrors(k: Settings, m: Memory, db: RedisDb, id: Id)
    requires Mirrors(k, m, db)
    ensures Mirrors(k, MemoryEvict(m, id), RedisEvict(k, db, id))
  {
    hide ReqKey, ExpiredKey;
    KeysOf(k, id);
    assert MirrorsPending(MemoryEvict(m, id), RedisEvict(k, db, id)) by {
      hide MirrorsLive, MirrorsArchived;
    }
  }

  lemma ArchiveMirrorsLive(k: Settings, m: Memory, db: RedisDb, id: Id, q: Request, now: int)
    requires MirrorsLive(k, m, db)
    ensures MirrorsLive(k, MemoryArchive(m, id, q), RedisArchive(k, db, id, q, now))
  {
    hide ReqKey, ExpiredKey;
    KeysOf(k, id);
  }

  lemma ArchiveMirrors(k: Settings, m: Memory, db: RedisDb, id: Id, q: Request, now: int)
    requires Mirrors(k, m, db)
    ensures Mirrors(k, MemoryArchive(m, id, q), RedisArchive(k, db, id, q, now))
  {
    hide ReqKey, ExpiredKey;
    KeysOf(k, id);
    ArchiveMirrorsLive(k, m, db, id, q, now);
    hide MirrorsLive;
  }

  lemma ApplyMirrors(k: Settings, m: Memory, db: RedisDb, op: Operation, now: int)
    requires Mirrors(k, m, db)
    ensures Mirrors(k, MemoryApply(m, op), RedisApply(k, db, op, now))
  {
    hide Mirrors;
    match op
    case OpSave(q) => SaveMirrors(k, m, db, q, now);
    case OpEvict(id) => EvictMirrors(k, m, db, id);
    case OpArchive(id, q) => ArchiveMirrors(k, m, db, id, q, now);
  }

  lemma {:induction false} RunMirrors(k: Settings, ops: seq<(Operation, int)>)
    ensures Mirrors(k, MemoryRun(ops), RedisRun(k, ops))
  {
    if ops != [] {
      var last := ops[|ops| - 1];
      RunMirrors(k, ops[..|ops| - 1]);
      ApplyMirrors(k, MemoryRun(ops[..|ops| - 1]), RedisRun(k, ops[..|ops| - 1]), last.0, last.1);
    }
  }

  /** No key's time to live has run out. */
  predicate AllAlive(db: RedisDb, now: int) {
    forall key :: key in db.keys ==> now < db.keys[key].deadline
  }

  /** After the same operations, and while no time to live has run out, every read of the two stores agrees. */
  lemma RedisRefinesMemory(k: Settings, ops: seq<(Operation, int)>, id: Id, asOf: int, now: int)
    requires AllAlive(RedisRun(k, ops), now)
    ensures var m := MemoryRun(ops); var db := RedisRun(k, ops);
            && RedisGet(k, db, id, now) == MemoryGet(m, id)
            && RedisGetActive(k, db, id, now) == MemoryGetActive(m, id)
            && |db.pending| == |m.active|
            && RedisPendingExpired(k, db, asOf, now) == MemoryPendingExpired(m, asOf)
  {
    RunMirrors(k, ops);
    var m, db := MemoryRun(ops), RedisRun(k, ops);
    assert |db.pending.Keys| == |m.active.Keys|;
    forall i | i in m.active ensures RedisGetActive(k, db, i, now) == Some(m.active[i]) {
      assert ReqKey(k, i) in db.keys;
    }
    assert forall q :: q in RedisPendingExpired(k, db, asOf, now) <==> q in MemoryPendingExpired(m, asOf);
  }

  /**
   Whatever has timed out: every live request key is a pending member, the pending count is still the
   in-memory one (so it can exceed the number of live keys), and a live read or a due listing never shows
   anything the in-memory store would not show.
   */
  lemma RedisNeverInvents(k: Settings, ops: seq<(Operation, int)>, id: Id, asOf: int, now: int)
    ensures var m := MemoryRun(ops); var db := RedisRun(k, ops);
            && (RedisGetActive(k, db, id, now).Some? ==>
                  id in db.pending && RedisGetActive(k, db, id, now) == MemoryGetActive(m, id))
            && |db.pending| == |m.active|
            && RedisPendingExpired(k, db, asOf, now) <= MemoryPendingExpired(m, asOf)
  {
    RunMirrors(k, ops);
    var m, db := MemoryRun(ops), RedisRun(k, ops);
    assert |db.pending.Keys| == |m.active.Keys|;
  }

  /**
   `get` is the one read that can show what the in-memory store would not: a request saved again under an id
   that was archived before, once its live key has timed out and the archived copy has not. Exactly then.
   */
  lemma RedisGetExactly(k: Settings, ops: seq<(Operation, int)>, id: Id, now: int)
    ensures var m := MemoryRun(ops); var db := RedisRun(k, ops);
            RedisGet(k, db, id, now) in {None, MemoryGet(m, id)} <==>
              || RedisGetActive(k, db, id, now).Some?
              || id !in db.pending
              || Look(db, ExpiredKey(k, id), now).None?
              || Look(db, ExpiredKey(k, id), now) == MemoryGetActive(m, id)
  {
    RunMirrors(k, ops);
    var m, db := MemoryRun(ops), RedisRun(k, ops);
    assert id in db.pending <==> id in m.active;
  }

  const WEEK := Settings("hitl", 0, 7)

  /** Such a run: archived with one agent, saved again with another, and read when the live key is gone. */
  lemma RedisGetCanDiffer(ops: seq<(Operation, int)>, filed: Request, again: Request)
    requires filed == Request(Id("r"), Name(1), 0, EXPIRED) && again == Request(Id("r"), Name(2), 0, PENDING)
    requires ops == [(OpArchive(Id("r"), filed), 0), (OpSave(again), 0)]
    ensures RedisGet(WEEK, RedisRun(WEEK, ops), Id("r"), 5) == Some(filed)
    ensures MemoryGet(MemoryRun(ops), Id("r")) == Some(again)
  {
    KeysDistinct(WEEK, Id("r"), Id("r"));
    var first := ops[..1];
    assert first[..0] == [] && first[0] == ops[0];
    assert RedisRun(WEEK, first) == RedisArchive(WEEK, RedisDb(map[], map[]), Id("r"), filed, 0);
    assert MemoryRun(first) == MemoryArchive(Memory(map[], map[]), Id("r"), filed);
    hide ReqKey, ExpiredKey;
  }

  /** What is read under an id is that request, as after any operations of the gateway. */
  ghost predicate OwnIds(k: Settings, db: RedisDb, now: int) {
    forall id :: RedisGetActive(k, db, id, now).Some? ==> RedisGetActive(k, db, id, now).value.id == id
  }

  /** After any operations: so no request is listed twice for a sweep. */
  lemma RunOwnsIds(k: Settings, ops: seq<(Operation, int)>, asOf: int, now: int)
    ensures OwnIds(k, RedisRun(k, ops), now)
    ensures var listed := RedisPendingExpired(k, RedisRun(k, ops), asOf, now);
      forall p, q :: p in listed && q in listed && p.id == q.id ==> p == q
  {
    RunMirrors(k, ops);
    assert OwnIds(k, RedisRun(k, ops), now);
    hide RedisRun, MemoryRun, Mirrors;
  }

  // ----- reading back -----

  /**
   A saved request is read back until the grace hours after its deadline are over, and at least at the moment
   it is saved; then it is gone. No other request reads differently.
   */
  lemma SaveReadsBack(k: Settings, db: RedisDb, q: Request, now: int)
    ensures forall t ::
      RedisGetActive(k, RedisSave(k, db, q, now), q.id, t)
        == if t < q.expiresAt + k.graceHours * 3600 || t <= now then Some(q) else None
    ensures forall t :: t < q.expiresAt + k.graceHours * 3600 || t <= now ==> RedisGet(k, RedisSave(k, db, q, now), q.id, t) == Some(q)
    ensures forall id, t :: id != q.id ==>
              RedisGet(k, RedisSave(k, db, q, now), id, t) == RedisGet(k, db, id, t)
              && RedisGetActive(k, RedisSave(k, db, q, now), id, t) == RedisGetActive(k, db, id, t)
  {
    hide ReqKey, ExpiredKey;
    KeysOf(k, q.id);
  }

  /** An archived request is no longer live, and is read back for the days that it is retained. */
  lemma ArchiveReadsBack(k: Settings, db: RedisDb, id: Id, q: Request, now: int)
    ensures var after := RedisArchive(k, db, id, q, now);
            && (forall t :: RedisGetActive(k, after, id, t) == None)
            && (forall t :: RedisGet(k, after, id, t) == if t < now + k.expiredDays * 86400 then Some(q) else None)
            && (forall other, t :: other != id ==>
                  RedisGet(k, after, other, t) == RedisGet(k, db, other, t)
                  && RedisGetActive(k, after, other, t) == RedisGetActive(k, db, other, t))
  {
    hide ReqKey, ExpiredKey;
    KeysOf(k, id);
  }

  /** An evicted request is neither live nor pending. */
  lemma EvictReadsBack(k: Settings, db: RedisDb, id: Id)
    ensures var after := RedisEvict(k, db, id);
            && (forall t :: RedisGetActive(k, after, id, t) == None)
            && id !in after.pending
            && (forall other, t :: other != id ==>
                  RedisGet(k, after, other, t) == RedisGet(k, db, other, t)
                  && RedisGetActive(k, after, other, t) == RedisGetActive(k, db, other, t))
  {
    hide ReqKey, ExpiredKey;
    KeysOf(k, id);
  }

  /** When an active request was last saved. */
  function SavedAt(ops: seq<(Operation, int)>, id: Id): int
    requires id in MemoryRun(ops).active
  {
    var last := ops[|ops| - 1];
    if last.0.OpSave? && last.0.request.id == id then last.1 else SavedAt(ops[..|ops| - 1], id)
  }

  /**
   After any operations, a request that was saved and not yet evicted or archived is read back exactly until
   the grace hours after its deadline are over, or for the moment it was saved if that is later.
   */
  lemma {:induction false} ReadableExactly(k: Settings, ops: seq<(Operation, int)>, id: Id, t: int)
    requires id in MemoryRun(ops).active
    ensures var q := MemoryRun(ops).active[id];
      RedisGetActive(k, RedisRun(k, ops), id, t)
        == if t < q.expiresAt + k.graceHours * 3600 || t <= SavedAt(ops, id) then Some(q) else None
  {
    var before, last := ops[..|ops| - 1], ops[|ops| - 1];
    var db := RedisRun(k, before);
    hide RedisGetActive, RedisSave, RedisEvict, RedisArchive;
    match last.0 {
      case OpSave(q) =>
        SaveReadsBack(k, db, q, last.1);
        if q.id != id { ReadableExactly(k, before, id, t); }
      case OpEvict(other) =>
        EvictReadsBack(k, db, other);
        ReadableExactly(k, before, id, t);
      case OpArchive(other, q) =>
        ArchiveReadsBack(k, db, other, q, last.1);
        ReadableExactly(k, before, id, t);
    }
  }

  /**
   So with grace, a decision before the deadline finds the request, and a sweep finds it from its deadline on
   until the grace is over, whatever was done to other requests.
   */
  lemma TimelyReadsFind(k: Settings, ops: seq<(Operation, int)>, id: Id, t: int)
    requires id in MemoryRun(ops).active && k.graceHours >= 0
    ensures var q, db := MemoryRun(ops).active[id], RedisRun(k, ops);
      && (t < q.expiresAt ==> RedisGetActive(k, db, id, t) == Some(q) && RedisGet(k, db, id, t) == Some(q))
      && (q.expiresAt <= t < q.expiresAt + k.graceHours * 3600 && q.status == PENDING ==> q in RedisPendingExpired(k, db, t, t))
  {
    var q, db := MemoryRun(ops).active[id], RedisRun(k, ops);
    ReadableExactly(k, ops, id, t);
    RunMirrors(k, ops);
    assert id in db.pending && db.pending[id] == q.expiresAt;
    hide RedisRun, MemoryRun, ReqKey, ExpiredKey, Mirrors;
  }

  // ----- the Redis store -----

  class HITLRedisStore {
    const settings: Settings
    var keys: map<string, Timed>
    var pending: map<Id, int>

    function Db(): RedisDb
      reads this
    {
      RedisDb(keys, pending)
    }

    constructor (settings: Settings)
      ensures this.settings == settings && Db() == RedisDb(map[], map[])
    {
      this.settings := settings;
      keys, pending := map[], map[];
    }

    method Save(q: Request, now: int)
      modifies this
      ensures Db() == RedisSave(settings, old(Db()), q, now)
      ensures forall t :: t < q.expiresAt + settings.graceHours * 3600 || t <= now ==> RedisGet(settings, Db(), q.id, t) == Some(q)
      ensures forall t :: t >= q.expiresAt + settings.graceHours * 3600 && t > now ==> RedisGetActive(settings, Db(), q.id, t) == None
      ensures q.id in pending && pending[q.id] == q.expiresAt
      ensures forall id, t :: id != q.id ==> RedisGet(settings, Db(), id, t) == RedisGet(settings, old(Db()), id, t)
    {
      ghost var before := Db();
      var ttl := q.expiresAt - now + settings.graceHours * HOUR;
      if ttl < 1 { ttl := 1; }
      keys := keys[ReqKey(settings, q.id) := Timed(q, now + ttl)];
      pending := pending[q.id := q.expiresAt];
      SaveReadsBack(settings, before, q, now);
    }

    method Evict(id: Id)
      modifies this
      ensures Db() == RedisEvict(settings, old(Db()), id)
      ensures id !in pending && forall t :: RedisGetActive(settings, Db(), id, t) == None
      ensures forall other, t :: other != id ==> RedisGet(settings, Db(), other, t) == RedisGet(settings, old(Db()), other, t)
    {
      EvictReadsBack(settings, Db(), id);
      pending := pending - {id};
      keys := keys - {ReqKey(settings, id)};
    }

    method Archive(id: Id, q: Request, now: int)
      modifies this
      ensures Db() == RedisArchive(settings, old(Db()), id, q, now)
      ensures forall t :: RedisGetActive(settings, Db(), id, t) == None
      ensures forall t :: RedisGet(settings, Db(), id, t) == if t < now + settings.expiredDays * 86400 then Some(q) else None
      ensures id !in pending
      ensures forall other, t :: other != id ==> RedisGet(settings, Db(), other, t) == RedisGet(settings, old(Db()), other, t)
    {
      ghost var before := Db();
      pending := pending - {id};
      keys := keys - {ReqKey(settings, id)};
      keys := keys[ExpiredKey(settings, id) := Timed(q, now + settings.expiredDays * DAY)];
      ArchiveReadsBack(settings, before, id, q, now);
    }

    method Get(id: Id, now: int) returns (q: Option<Request>)
      ensures q == RedisGet(settings, Db(), id, now)
    {
      q := Look(Db(), ReqKey(settings, id), now);
      if q.None? { q := Look(Db(), ExpiredKey(settings, id), now); }
    }

    /** The scan: list the members that are due, read each one back, keep those still PENDING. */
    method GetPendingExpired(asOf: int, now: int) returns (requests: seq<Request>)
      ensures (set q | q in requests) == RedisPendingExpired(settings, Db(), asOf, now)
      ensures |requests| <= |pending|
      ensures OwnIds(settings, Db(), now) ==> forall i, j :: 0 <= i < j < |requests| ==> requests[i].id != requests[j].id
    {
      var due := set id | id in pending && pending[id] <= asOf;
      var todo := due;
      requests := [];
      assert due <= pending.Keys;
      SubsetSize(due, pending.Keys);
      while todo != {}
        invariant todo <= due
        invariant |requests| + |todo| <= |due|
        invariant OwnIds(settings, Db(), now) ==> forall i :: 0 <= i < |requests| ==> requests[i].id in due - todo
        invariant OwnIds(settings, Db(), now) ==> forall i, j :: 0 <= i < j < |requests| ==> requests[i].id != requests[j].id
        invariant forall q :: q in requests <==>
                    exists id :: id in due && id !in todo && RedisGetActive(settings, Db(), id, now) == Some(q) && q.status == PENDING
      {
        var id :| id in todo;
        var data := Look(Db(), ReqKey(settings, id), now);
        assert data == RedisGetActive(settings, Db(), id, now);
        todo := todo - {id};
        if data.Some? && data.value.status == PENDING { requests := requests + [data.value]; }
      }
    }
  }
}

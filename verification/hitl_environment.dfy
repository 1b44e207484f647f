/** Steps of the environment keep the invariant: the clock, and keys that Redis drops. */
module HitlEnvironment {
  import opened Maybe
  import opened HitlProtocol
  import opened HitlInvariant
  import opened HitlFrames

  // ----- steps of the environment -----

  lemma TickKeeps(c: Config, s: State, seconds: nat)
    requires Inv(c, s)
    ensures Inv(c, Next(c, s, Tick(seconds)))
  {
    var s' := Next(c, s, Tick(seconds));
    StoreStays(c, s, s', None);
    AuditStays(c, s, s', None);
    AllStay(c, s, s');
  }

  /** Redis dropped a key whose time to live ran out; the pending set keeps its member. */
  predicate Lost(s: State, s': State) {
    && s'.store.active.Keys <= s.store.active.Keys && s'.store.archived.Keys <= s.store.archived.Keys
    && (forall id :: id in s'.store.active ==> s'.store.active[id] == s.store.active[id])
    && (forall id :: id in s'.store.archived ==> s'.store.archived[id] == s.store.archived[id])
    && s' == s.(store := s.store.(active := s'.store.active, archived := s'.store.archived))
  }

  lemma LossEvolves(c: Config, s: State, s': State)
    requires c.backend == Redis && Lost(s, s')
    ensures Evolves(c, s, s', None) && Excluded(c, s, s')
  {
    forall r | r in s.store.heap ensures r in s'.store.heap && SameRequest(c, s, s.store.heap[r], s'.store.heap[r], r) {}
  }

  lemma LossStore(c: Config, s: State, s': State)
    requires c.backend == Redis && Lost(s, s')
    requires HeapInv(c, s) && ActiveInv(c, s) && ArchivedInv(c, s) && IndexInv(c, s) && LogInv(s)
    ensures HeapInv(c, s') && ActiveInv(c, s') && ArchivedInv(c, s') && IndexInv(c, s') && LogInv(s')
  {
    LossEvolves(c, s, s');
    LogStays(c, s, s', None);
    forall id | id in s'.store.active ensures EntryOk(c, s', id, s'.store.active[id]) && id in s'.store.index {
      EntryStays(c, s, s', None, id, s.store.active[id]);
    }
    forall id | id in s'.store.archived ensures ArchivedOk(c, s', id, s'.store.archived[id]) {
      EntryStays(c, s, s', None, id, s.store.archived[id]);
    }
  }

  /** A step of the environment: no task moves. */
  lemma AllStay(c: Config, s: State, s': State)
    requires HeapInv(c, s) && LogInv(s) && TasksInv(c, s)
    requires Evolves(c, s, s', None) && Excluded(c, s, s')
    requires s'.tasks == s.tasks && s'.lock == s.lock
    ensures TasksInv(c, s')
  {
    forall t | t in s'.tasks ensures TaskOk(c, s', t, s'.tasks[t]) {
      TaskStays(c, s, s', None, t, s.tasks[t]);
    }
  }

  lemma LossKeeps(c: Config, s: State, s': State)
    requires Inv(c, s) && c.backend == Redis && Lost(s, s')
    ensures Inv(c, s')
  {
    LossEvolves(c, s, s');
    LossStore(c, s, s');
    AuditStays(c, s, s', None);
    AllStay(c, s, s');
  }
}

/** Stores that change in at most one place. */
module HitlOneEntry {
  import opened Maybe
  import opened HitlProtocol
  import opened HitlInvariant
  import opened HitlFrames

  // ----- stores that change in at most one place -----

  /** No existing object changes; what is new is in good order. */
  lemma HeapGrows(c: Config, s: State, s': State, mover: Option<TaskId>)
    requires HeapInv(c, s) && Evolves(c, s, s', mover)
    requires forall r :: r in s.store.heap ==> s'.store.heap[r] == s.store.heap[r]
    requires forall r :: r in s'.store.heap ==> r < s'.store.next && (r in s.store.heap || RequestOk(s', s'.store.heap[r]))
    requires forall r :: r in s'.past.originals ==>
               r in s.past.originals || (r in s'.store.heap && r !in s.store.heap && s'.store.heap[r].status == PENDING)
    requires s.store.next <= s'.store.next
    ensures HeapInv(c, s')
  {
    forall r | r in s'.store.heap ensures r < s'.store.next && RequestOk(s', s'.store.heap[r]) {
      if r in s.store.heap { RequestStays(c, s, s', mover, s.store.heap[r]); }
    }
  }

  /** No existing object changes, and no active entry but that of `id`. */
  lemma ActiveStays(c: Config, s: State, s': State, mover: Option<TaskId>, id: Id)
    requires ActiveInv(c, s) && Evolves(c, s, s', mover)
    requires forall r :: r in s.store.heap ==> s'.store.heap[r] == s.store.heap[r]
    requires forall i :: i in s'.store.active && i != id ==> i in s.store.active && s'.store.active[i] == s.store.active[i] && i in s'.store.index
    requires forall i :: i in s'.past.verdict && i != id ==> i in s.past.verdict
    requires id in s'.store.active ==> EntryOk(c, s', id, s'.store.active[id]) && id in s'.store.index
    ensures ActiveInv(c, s')
  {
    forall i | i in s'.store.active ensures EntryOk(c, s', i, s'.store.active[i]) && i in s'.store.index {
      if i != id { EntryStays(c, s, s', mover, i, s.store.active[i]); }
    }
  }

  lemma ArchivedStays(c: Config, s: State, s': State, mover: Option<TaskId>, id: Id)
    requires ArchivedInv(c, s) && Evolves(c, s, s', mover)
    requires forall r :: r in s.store.heap ==> s'.store.heap[r] == s.store.heap[r]
    requires forall i :: i in s'.store.archived && i != id ==> i in s.store.archived && s'.store.archived[i] == s.store.archived[i]
    requires forall i :: i in s'.past.verdict && i != id ==> i in s.past.verdict
    requires id in s'.store.archived ==> ArchivedOk(c, s', id, s'.store.archived[id])
    ensures ArchivedInv(c, s')
  {
    forall i | i in s'.store.archived ensures ArchivedOk(c, s', i, s'.store.archived[i]) {
      if i != id { EntryStays(c, s, s', mover, i, s.store.archived[i]); }
    }
  }
}

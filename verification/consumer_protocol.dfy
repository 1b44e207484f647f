/**
 The request consumer against crashes, restarts and redelivery, as a state machine: the topic's log, the
 committed offset, the request store, and where the single consumer is. `Crash` may happen anywhere; it
 stands for a killed process, a cancelled task, and any exception that leaves `_handle` or the commit.
 */
module ConsumerProtocol {
  datatype Id = Id(text: string)

  datatype Status = Absent | Queued | Processing | Completed | Failed

  datatype Message = Malformed | NoId | Request(id: Id)

  /** Where the consumer is with the message at offset `at`. */
  datatype Place =
    | Down
    | Fetching(at: nat)
    | Checking(at: nat, id: Id)
    | Starting(at: nat, id: Id)
    | Attempting(at: nat, id: Id, attempt: nat)
    | Completing(at: nat, id: Id, attempt: nat)
    | Exhausted(at: nat, id: Id)
    | Failing(at: nat, id: Id)
    | Returned(at: nat)

  /** `cut` is history: the requests whose handling was cut off after they were marked as processing. */
  datatype History = History(returned: set<nat>, starts: seq<Id>, checks: seq<Id>, cut: set<Id>)

  datatype State = State(
    log: seq<Message>, committed: nat, store: map<Id, Status>, place: Place, past: History)

  /** `ambiguous` says whether a store write may take effect and still raise. */
  datatype Config = Config(maxRetries: nat, ambiguous: bool)

  const Start := State([], 0, map[], Down, History({}, [], [], {}))

  datatype Step =
    | ApiSave(id: Id)
    | Produce(message: Message)
    | Restart
    | Crash
    | Fetch
    | Check
    | Begin
    | Succeed
    | Fail
    | SaveCompleted
    | SaveCompletedRaises(applied: bool)
    | PublishDlq
    | SaveFailed
    | Commit

  function StatusOf(s: State, id: Id): Status {
    if id in s.store then s.store[id] else Absent
  }

  /** The request whose `processing` mark the consumer is responsible for right now. */
  predicate Busy(place: Place, id: Id) {
    (place.Attempting? || place.Completing? || place.Exhausted? || place.Failing?) && place.id == id
  }

  function AfterFailure(c: Config, at: nat, id: Id, attempt: nat): Place {
    if attempt < c.maxRetries then Attempting(at, id, attempt + 1) else Exhausted(at, id)
  }

  function Returns(s: State, at: nat): State {
    s.(place := Place.Returned(at), past := s.past.(returned := s.past.returned + {at}))
  }

  predicate Enabled(c: Config, s: State, step: Step) {
    match step
    case ApiSave(id) => id !in s.store
    case Produce(message) => true
    case Restart => s.place.Down?
    case Crash => true
    case Fetch => s.place.Fetching? && s.place.at < |s.log|
    case Check => s.place.Checking?
    case Begin => s.place.Starting?
    case Succeed => s.place.Attempting?
    case Fail => s.place.Attempting?
    case SaveCompleted => s.place.Completing?
    case SaveCompletedRaises(applied) => s.place.Completing? && (applied ==> c.ambiguous)
    case PublishDlq => s.place.Exhausted?
    case SaveFailed => s.place.Failing?
    case Commit => s.place.Returned?
  }

  function Next(c: Config, s: State, step: Step): State
    requires Enabled(c, s, step)
  {
    match step
    case ApiSave(id) => s.(store := s.store[id := Queued])
    case Produce(message) => s.(log := s.log + [message])
    case Restart => s.(place := Fetching(s.committed))
    case Crash =>
      var cut := if s.place.Attempting? || s.place.Completing? || s.place.Exhausted? || s.place.Failing?
                 then {s.place.id} else {};
      s.(place := Down, past := s.past.(cut := s.past.cut + cut))
    case Fetch =>
      var at := s.place.at;
      (match s.log[at]
       case Request(id) => s.(place := Checking(at, id))
       case _ => Returns(s, at))
    case Check =>
      var Checking(at, id) := s.place;
      if StatusOf(s, id) == Absent || StatusOf(s, id) == Queued then
        s.(place := Starting(at, id), past := s.past.(checks := s.past.checks + [id]))
      else Returns(s, at)
    case Begin =>
      var Starting(at, id) := s.place;
      s.(store := s.store[id := Processing], place := Attempting(at, id, 0),
         past := s.past.(starts := s.past.starts + [id]))
    case Succeed => s.(place := Completing(s.place.at, s.place.id, s.place.attempt))
    case Fail => s.(place := AfterFailure(c, s.place.at, s.place.id, s.place.attempt))
    case SaveCompleted => Returns(s.(store := s.store[s.place.id := Completed]), s.place.at)
    case SaveCompletedRaises(applied) =>
      var s' := s.(place := AfterFailure(c, s.place.at, s.place.id, s.place.attempt));
      if applied then s'.(store := s.store[s.place.id := Completed]) else s'
    case PublishDlq => s.(place := Failing(s.place.at, s.place.id))
    case SaveFailed => Returns(s.(store := s.store[s.place.id := Failed]), s.place.at)
    case Commit => s.(committed := s.place.at + 1, place := Fetching(s.place.at + 1))
  }

  predicate Feasible(c: Config, s: State, steps: seq<Step>)
    decreases |steps|
  {
    steps == [] || (Enabled(c, s, steps[0]) && Feasible(c, Next(c, s, steps[0]), steps[1..]))
  }

  function Run(c: Config, s: State, steps: seq<Step>): State
    requires Feasible(c, s, steps)
    decreases |steps|
  {
    if steps == [] then s else Run(c, Next(c, s, steps[0]), steps[1..])
  }

  /**
   The machine takes nothing for granted: messages of any kind arrive at any time, the consumer may crash
   anywhere, an attempt may end either way, and so may the write that follows it.
   */
  lemma EnvironmentIsFree(c: Config, s: State, message: Message, id: Id, applied: bool)
    ensures Enabled(c, s, Produce(message)) && Enabled(c, s, Crash)
    ensures id !in s.store ==> Enabled(c, s, ApiSave(id))
    ensures s.place.Down? ==> Enabled(c, s, Restart)
    ensures s.place.Attempting? ==> Enabled(c, s, Succeed) && Enabled(c, s, Fail)
    ensures s.place.Completing? ==>
      Enabled(c, s, SaveCompleted) && (c.ambiguous || !applied ==> Enabled(c, s, SaveCompletedRaises(applied)))
  {
  }
}

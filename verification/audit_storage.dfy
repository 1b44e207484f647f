/** The two audit stores: a list filtered in memory, and a table queried with SQL built piece by piece. */
module AuditStorage {
  import opened Maybe

  /** The fields that queries look at, and the rest of the record. */
  datatype AuditEvent = AuditEvent(id: string, agentId: string, action: string, createdAt: int, details: string)

  datatype Filter = Filter(agentId: Option<string>, action: Option<string>, from: Option<int>, to: Option<int>)

  function Select(events: seq<AuditEvent>, keep: AuditEvent -> bool): (r: seq<AuditEvent>)
    ensures |r| <= |events|
    ensures forall e :: e in r <==> e in events && keep(e)
  {
    if events == [] then []
    else (if keep(events[0]) then [events[0]] else []) + Select(events[1..], keep)
  }

  predicate Given(text: Option<string>) {
    text.Some? && text.value != ""
  }

  /** One comprehension after the other. An empty string does not filter. */
  function FilteredInMemory(events: seq<AuditEvent>, f: Filter): seq<AuditEvent> {
    var byAgent := if Given(f.agentId) then Select(events, (e: AuditEvent) => e.agentId == f.agentId.value) else events;
    var byAction := if Given(f.action) then Select(byAgent, (e: AuditEvent) => e.action == f.action.value) else byAgent;
    var since := if f.from.Some? then Select(byAction, (e: AuditEvent) => e.createdAt >= f.from.value) else byAction;
    if f.to.Some? then Select(since, (e: AuditEvent) => e.createdAt <= f.to.value) else since
  }

  /**
   results[-limit:] as Python reads it: the last `limit`, everything for 0, and for a negative limit
   everything but the first -limit.
   */
  function LastOf<T>(s: seq<T>, limit: int): seq<T> {
    if limit > 0 then (if limit >= |s| then s else s[|s| - limit..])
    else if -limit >= |s| then []
    else s[-limit..]
  }

  function QueryInMemory(events: seq<AuditEvent>, f: Filter, limit: int): seq<AuditEvent> {
    LastOf(FilteredInMemory(events, f), limit)
  }

  class InMemoryAuditStorage {
    var records: seq<AuditEvent>

    method Append(event: AuditEvent)
      modifies this
      ensures records == old(records) + [event]
    {
      records := records + [event];
    }

    method Query(f: Filter, limit: int) returns (events: seq<AuditEvent>)
      ensures events == QueryInMemory(records, f, limit)
    {
      events := QueryInMemory(records, f, limit);
    }
  }

  datatype Column = AgentId | Action | CreatedAt

  datatype Comparison = Equal | AtLeast | AtMost

  /** `column comparison $placeholder` */
  datatype Condition = Condition(column: Column, comparison: Comparison, placeholder: nat)

  datatype Param = Str(text: string) | Time(time: int) | Num(number: int)

  /** SELECT ... WHERE conditions ORDER BY created_at DESC LIMIT $limitPlaceholder */
  datatype Sql = Sql(conditions: seq<Condition>, limitPlaceholder: nat, params: seq<Param>)

  function Denoted(params: seq<Param>, placeholder: nat): Option<Param> {
    if 1 <= placeholder <= |params| then Some(params[placeholder - 1]) else None
  }

  predicate Satisfied(c: Condition, params: seq<Param>, e: AuditEvent) {
    match (c.column, c.comparison, Denoted(params, c.placeholder))
    case (AgentId, Equal, Some(Str(text))) => e.agentId == text
    case (Action, Equal, Some(Str(text))) => e.action == text
    case (CreatedAt, AtLeast, Some(Time(time))) => e.createdAt >= time
    case (CreatedAt, AtMost, Some(Time(time))) => e.createdAt <= time
    case _ => false
  }

  predicate AllSatisfied(conditions: seq<Condition>, params: seq<Param>, e: AuditEvent) {
    forall i :: 0 <= i < |conditions| ==> Satisfied(conditions[i], params, e)
  }

  predicate Where(sql: Sql, e: AuditEvent) {
    AllSatisfied(sql.conditions, sql.params, e)
  }

  /** What the caller of the Postgres store asked for. */
  predicate Wanted(f: Filter, e: AuditEvent) {
    && (f.agentId.Some? ==> e.agentId == f.agentId.value)
    && (f.action.Some? ==> e.action == f.action.value)
    && (f.from.Some? ==> e.createdAt >= f.from.value)
    && (f.to.Some? ==> e.createdAt <= f.to.value)
  }

  predicate Numbered(sql: Sql) {
    && (forall i :: 0 <= i < |sql.conditions| ==> sql.conditions[i].placeholder == i + 1)
    && sql.limitPlaceholder == |sql.params| == |sql.conditions| + 1
  }

  /** One more condition on one more parameter leaves the others with the parameters they had. */
  lemma OneMoreCondition(conditions: seq<Condition>, params: seq<Param>, c: Condition, p: Param)
    requires forall i :: 0 <= i < |conditions| ==> conditions[i].placeholder == i + 1
    requires |params| == |conditions| && c.placeholder == |params| + 1
    ensures forall e :: AllSatisfied(conditions + [c], params + [p], e)
                   <==> AllSatisfied(conditions, params, e) && Satisfied(c, params + [p], e)
  {
    forall e
      ensures AllSatisfied(conditions + [c], params + [p], e)
         <==> AllSatisfied(conditions, params, e) && Satisfied(c, params + [p], e)
    {
      assert forall i :: 0 <= i < |conditions| ==> (conditions + [c])[i] == conditions[i];
      assert forall i :: 0 <= i < |conditions| ==>
        Denoted(params + [p], conditions[i].placeholder) == Denoted(params, conditions[i].placeholder);
      assert (conditions + [c])[|conditions|] == c;
    }
  }

  lemma NoConditions(params: seq<Param>)
    ensures forall e :: AllSatisfied([], params, e)
  {
  }

  lemma LimitChangesNothing(conditions: seq<Condition>, params: seq<Param>, p: Param)
    requires forall i :: 0 <= i < |conditions| ==> conditions[i].placeholder == i + 1
    requires |params| == |conditions|
    ensures forall e :: AllSatisfied(conditions, params + [p], e) <==> AllSatisfied(conditions, params, e)
  {
    assert forall i :: 0 <= i < |conditions| ==>
      Denoted(params + [p], conditions[i].placeholder) == Denoted(params, conditions[i].placeholder);
  }

  /** The builder: for every filter given, a condition, a parameter and the next placeholder number. */
  method BuildQuery(f: Filter, limit: int) returns (sql: Sql)
    ensures Numbered(sql)
    ensures forall e :: Where(sql, e) <==> Wanted(f, e)
    ensures Denoted(sql.params, sql.limitPlaceholder) == Some(Num(limit))
  {
    hide AllSatisfied;
    var conditions: seq<Condition> := [];
    var params: seq<Param> := [];
    var idx := 1;
    NoConditions(params);
    if f.agentId.Some? {
      OneMoreCondition(conditions, params, Condition(AgentId, Equal, idx), Str(f.agentId.value));
      conditions := conditions + [Condition(AgentId, Equal, idx)];
      params := params + [Str(f.agentId.value)];
      idx := idx + 1;
    }
    if f.action.Some? {
      OneMoreCondition(conditions, params, Condition(Action, Equal, idx), Str(f.action.value));
      conditions := conditions + [Condition(Action, Equal, idx)];
      params := params + [Str(f.action.value)];
      idx := idx + 1;
    }
    if f.from.Some? {
      OneMoreCondition(conditions, params, Condition(CreatedAt, AtLeast, idx), Time(f.from.value));
      conditions := conditions + [Condition(CreatedAt, AtLeast, idx)];
      params := params + [Time(f.from.value)];
      idx := idx + 1;
    }
    if f.to.Some? {
      OneMoreCondition(conditions, params, Condition(CreatedAt, AtMost, idx), Time(f.to.value));
      conditions := conditions + [Condition(CreatedAt, AtMost, idx)];
      params := params + [Time(f.to.value)];
      idx := idx + 1;
    }
    LimitChangesNothing(conditions, params, Num(limit));
    sql := Sql(conditions, idx, params + [Num(limit)]);
  }

  /**
   A possible answer of the database: as many matching rows as the limit allows, newest first, and no
   newer one left out. Rows of equal age may come in any order.
   */
  ghost predicate Answer(sql: Sql, table: multiset<AuditEvent>, rows: seq<AuditEvent>) {
    var limit := Denoted(sql.params, sql.limitPlaceholder);
    && limit.Some? && limit.value.Num? && limit.value.number >= 0
    && multiset(rows) <= table
    && (forall e :: e in rows ==> Where(sql, e))
    && (forall i, j :: 0 <= i < j < |rows| ==> rows[i].createdAt >= rows[j].createdAt)
    && |rows| <= limit.value.number
    && (forall e :: e in table - multiset(rows) && Where(sql, e) ==>
          |rows| == limit.value.number && forall r :: r in rows ==> e.createdAt <= r.createdAt)
  }
}

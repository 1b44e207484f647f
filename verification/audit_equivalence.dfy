/** When the two audit stores answer alike. */
module AuditEquivalence {
  import opened AuditStorage
  import opened Maybe

  /** A log appended with a strictly increasing clock. */
  predicate Increasing(log: seq<AuditEvent>) {
    forall i, j :: 0 <= i < j < |log| ==> log[i].createdAt < log[j].createdAt
  }

  predicate Reversed<T(==)>(rows: seq<T>, s: seq<T>) {
    |rows| == |s| && forall i :: 0 <= i < |rows| ==> rows[i] == s[|s| - 1 - i]
  }

  lemma {:induction false} SelectIncreasing(events: seq<AuditEvent>, keep: AuditEvent -> bool)
    requires Increasing(events)
    ensures Increasing(Select(events, keep))
  {
    if events != [] {
      SelectIncreasing(events[1..], keep);
      var rest := Select(events[1..], keep);
      forall e | e in rest ensures events[0].createdAt < e.createdAt {
        assert e in events[1..];
      }
    }
  }

  lemma FilteredIncreasing(events: seq<AuditEvent>, f: Filter)
    requires Increasing(events)
    ensures Increasing(FilteredInMemory(events, f))
  {
    var byAgent := if Given(f.agentId) then Select(events, (e: AuditEvent) => e.agentId == f.agentId.value) else events;
    if Given(f.agentId) {
      SelectIncreasing(events, (e: AuditEvent) => e.agentId == f.agentId.value);
    }
    var byAction := if Given(f.action) then Select(byAgent, (e: AuditEvent) => e.action == f.action.value) else byAgent;
    if Given(f.action) {
      SelectIncreasing(byAgent, (e: AuditEvent) => e.action == f.action.value);
    }
    var since := if f.from.Some? then Select(byAction, (e: AuditEvent) => e.createdAt >= f.from.value) else byAction;
    if f.from.Some? {
      SelectIncreasing(byAction, (e: AuditEvent) => e.createdAt >= f.from.value);
    }
    if f.to.Some? {
      SelectIncreasing(since, (e: AuditEvent) => e.createdAt <= f.to.value);
    }
  }

  /** Empty strings aside, the comprehensions keep what the SQL conditions ask for. */
  predicate NoEmptyNames(f: Filter) {
    f.agentId != Some("") && f.action != Some("")
  }

  lemma FilteredMembers(events: seq<AuditEvent>, f: Filter, e: AuditEvent)
    requires NoEmptyNames(f)
    ensures e in FilteredInMemory(events, f) <==> e in events && Wanted(f, e)
  {
  }

  /** The rows of an answer, against the list of everything that matches. */
  ghost predicate Newest(rows: seq<AuditEvent>, matching: seq<AuditEvent>, n: nat) {
    && |rows| <= n
    && (forall i :: 0 <= i < |rows| ==> rows[i] in matching)
    && (forall i, j :: 0 <= i < j < |rows| ==> rows[i] != rows[j] && rows[i].createdAt >= rows[j].createdAt)
    && (forall e :: e in matching && e !in rows ==> |rows| == n && forall r :: r in rows ==> e.createdAt <= r.createdAt)
  }

  lemma NoRowsLeft(rows: seq<AuditEvent>, matching: seq<AuditEvent>, n: nat)
    requires Newest(rows, matching, n) && (n == 0 || matching == [])
    ensures rows == []
  {
    FirstAmong(rows, matching);
  }

  lemma FirstAmong(rows: seq<AuditEvent>, matching: seq<AuditEvent>)
    requires forall i :: 0 <= i < |rows| ==> rows[i] in matching
    ensures rows == [] || rows[0] in matching
  {
  }

  lemma FirstAtLeast(rows: seq<AuditEvent>, matching: seq<AuditEvent>, n: nat, e: AuditEvent)
    requires Newest(rows, matching, n) && n > 0 && e in matching
    ensures rows != [] && e.createdAt <= rows[0].createdAt
  {
    assert e !in rows ==> |rows| == n;
    assert rows != [];
    assert rows[0] in rows;
  }

  lemma LastIsLatest(matching: seq<AuditEvent>, e: AuditEvent)
    requires Increasing(matching) && e in matching
    ensures e == matching[|matching| - 1] || e.createdAt < matching[|matching| - 1].createdAt
  {
  }

  lemma FirstIsNewest(rows: seq<AuditEvent>, matching: seq<AuditEvent>, n: nat)
    requires Increasing(matching) && Newest(rows, matching, n) && n > 0 && matching != []
    ensures rows != [] && rows[0] == matching[|matching| - 1]
  {
    FirstAtLeast(rows, matching, n, matching[|matching| - 1]);
    FirstAmong(rows, matching);
    LastIsLatest(matching, rows[0]);
  }

  lemma RestIsNewest(rows: seq<AuditEvent>, matching: seq<AuditEvent>, n: nat)
    requires Increasing(matching) && Newest(rows, matching, n) && n > 0 && matching != []
    requires rows != [] && rows[0] == matching[|matching| - 1]
    ensures Newest(rows[1..], matching[..|matching| - 1], n - 1)
  {
    var last, before, rest := matching[|matching| - 1], matching[..|matching| - 1], rows[1..];
    assert forall i :: 0 <= i < |rest| ==> rest[i] == rows[i + 1];
    assert forall e :: e in matching <==> e == last || e in before;
    assert forall e :: e in rows <==> e == last || e in rest;
    forall i | 0 <= i < |rest| ensures rest[i] in before {
      assert rows[i + 1] in matching && rows[0] != rows[i + 1];
    }
    assert forall e :: e in before ==> e != last;
  }

  lemma IncreasingPrefix(matching: seq<AuditEvent>)
    requires Increasing(matching) && matching != []
    ensures Increasing(matching[..|matching| - 1])
  {
  }

  predicate ReadsBackwards(rows: seq<AuditEvent>, matching: seq<AuditEvent>) {
    |rows| <= |matching| && forall i :: 0 <= i < |rows| ==> rows[i] == matching[|matching| - 1 - i]
  }

  lemma ReadOneOn(rows: seq<AuditEvent>, matching: seq<AuditEvent>)
    requires rows != [] && matching != [] && rows[0] == matching[|matching| - 1]
    requires ReadsBackwards(rows[1..], matching[..|matching| - 1])
    ensures ReadsBackwards(rows, matching)
  {
    forall i | 0 < i < |rows| ensures rows[i] == matching[|matching| - 1 - i] {
      assert rows[i] == rows[1..][i - 1];
    }
  }

  lemma {:induction false} NewestIsTail(rows: seq<AuditEvent>, matching: seq<AuditEvent>, n: nat)
    requires Increasing(matching) && Newest(rows, matching, n)
    ensures |rows| == if n < |matching| then n else |matching|
    ensures ReadsBackwards(rows, matching)
    decreases n
  {
    if n == 0 || matching == [] {
      NoRowsLeft(rows, matching, n);
    } else {
      FirstIsNewest(rows, matching, n);
      RestIsNewest(rows, matching, n);
      hide Newest, ReadsBackwards, Increasing;
      IncreasingPrefix(matching);
      NewestIsTail(rows[1..], matching[..|matching| - 1], n - 1);
      ReadOneOn(rows, matching);
    }
  }

  lemma IncreasingHasNoRepeats(log: seq<AuditEvent>, rows: seq<AuditEvent>)
    requires Increasing(log) && multiset(rows) <= multiset(log)
    ensures forall i, j :: 0 <= i < j < |rows| ==> rows[i] != rows[j]
    ensures forall e :: e in log && e !in rows ==> e in multiset(log) - multiset(rows)
    ensures forall e :: e in rows ==> e in log
  {
    forall i, j | 0 <= i < j < |rows| ensures rows[i] != rows[j] {
      if rows[i] == rows[j] {
        OccursTwice(rows, i, j);
        assert multiset(log)[rows[i]] >= 2;
        OccursOnce(log, rows[i]);
        assert false;
      }
    }
    forall e | e in rows ensures e in log {
      assert e in multiset(rows);
    }
  }

  lemma OccursTwice<T>(s: seq<T>, i: nat, j: nat)
    requires i < j < |s| && s[i] == s[j]
    ensures multiset(s)[s[i]] >= 2
  {
    assert s == s[..i] + [s[i]] + s[i + 1..j] + [s[j]] + s[j + 1..];
  }

  lemma {:induction false} OccursOnce(log: seq<AuditEvent>, e: AuditEvent)
    requires Increasing(log)
    ensures multiset(log)[e] <= 1
  {
    if log != [] {
      assert log == [log[0]] + log[1..];
      OccursOnce(log[1..], e);
      if e == log[0] {
        assert e !in log[1..];
        assert e !in multiset(log[1..]);
      }
    }
  }

  lemma AnswerIsNewest(log: seq<AuditEvent>, matching: seq<AuditEvent>, f: Filter, limit: int, sql: Sql, rows: seq<AuditEvent>)
    requires Increasing(log) && limit > 0
    requires forall e :: Where(sql, e) <==> Wanted(f, e)
    requires forall e :: e in matching <==> e in log && Wanted(f, e)
    requires Denoted(sql.params, sql.limitPlaceholder) == Some(Num(limit))
    requires Answer(sql, multiset(log), rows)
    ensures Newest(rows, matching, limit)
  {
    hide Where, Wanted, Increasing, Denoted;
    IncreasingHasNoRepeats(log, rows);
    assert forall i :: 0 <= i < |rows| ==> rows[i] in rows;
  }

  lemma TailReversed(rows: seq<AuditEvent>, s: seq<AuditEvent>, limit: int)
    requires limit > 0 && |rows| == (if limit < |s| then limit else |s|) && ReadsBackwards(rows, s)
    ensures Reversed(rows, LastOf(s, limit))
  {
  }

  /**
   For a growing log, a positive limit and no empty names, the database has only one answer to give:
   the in-memory result, newest first.
   */
  lemma SameAnswer(log: seq<AuditEvent>, f: Filter, limit: int, sql: Sql, rows: seq<AuditEvent>)
    requires Increasing(log) && NoEmptyNames(f) && limit > 0
    requires forall e :: Where(sql, e) <==> Wanted(f, e)
    requires Denoted(sql.params, sql.limitPlaceholder) == Some(Num(limit))
    requires Answer(sql, multiset(log), rows)
    ensures Reversed(rows, QueryInMemory(log, f, limit))
  {
    var matching := FilteredInMemory(log, f);
    FilteredIncreasing(log, f);
    forall e ensures e in matching <==> e in log && Wanted(f, e) {
      FilteredMembers(log, f, e);
    }
    AnswerIsNewest(log, matching, f, limit, sql, rows);
    hide *;
    NewestIsTail(rows, matching, limit);
    TailReversed(rows, matching, limit);
    assert QueryInMemory(log, f, limit) == LastOf(matching, limit);
  }

  predicate EmptyRange(f: Filter) {
    f.from.Some? && f.to.Some? && f.from.value > f.to.value
  }

  /**
   The two stores agree on every growing log. A negative limit, which the database rejects, is no
   agreement.
   */
  ghost predicate AlwaysAgree(f: Filter, limit: int, sql: Sql) {
    limit >= 0 &&
    forall log, rows :: Increasing(log) && Answer(sql, multiset(log), rows) ==>
      Reversed(rows, QueryInMemory(log, f, limit))
  }

  lemma NothingInRange(log: seq<AuditEvent>, f: Filter, limit: int, sql: Sql, rows: seq<AuditEvent>)
    requires EmptyRange(f) && Answer(sql, multiset(log), rows)
    requires forall e :: Where(sql, e) <==> Wanted(f, e)
    ensures Reversed(rows, QueryInMemory(log, f, limit))
  {
    FirstAmong(rows, rows);
    FirstAmong(FilteredInMemory(log, f), FilteredInMemory(log, f));
  }

  /** A single event that the in-memory store returns. */
  function Probe(f: Filter): AuditEvent {
    AuditEvent(
      "id",
      if Given(f.agentId) then f.agentId.value else "agent",
      if Given(f.action) then f.action.value else "action",
      if f.from.Some? then f.from.value else if f.to.Some? then f.to.value else 0,
      "")
  }

  lemma ProbeIsFound(f: Filter)
    requires !EmptyRange(f)
    ensures FilteredInMemory([Probe(f)], f) == [Probe(f)]
  {
  }

  lemma ProbeIsMissed(f: Filter, limit: int, sql: Sql)
    requires !EmptyRange(f) && limit >= 0 && (limit == 0 || !NoEmptyNames(f))
    requires forall e :: Where(sql, e) <==> Wanted(f, e)
    requires Denoted(sql.params, sql.limitPlaceholder) == Some(Num(limit))
    ensures Answer(sql, multiset([Probe(f)]), [])
    ensures !Reversed([], QueryInMemory([Probe(f)], f, limit))
  {
    ProbeIsFound(f);
    assert multiset([Probe(f)]) == multiset{Probe(f)};
  }

  /**
   Exactly when the stores agree: the range of times is empty, or the limit is positive and no name is
   the empty string. The in-memory store reads an empty name as no filter, and a limit of 0 as none.
   */
  lemma AgreementIsExact(f: Filter, limit: int, sql: Sql)
    requires forall e :: Where(sql, e) <==> Wanted(f, e)
    requires Denoted(sql.params, sql.limitPlaceholder) == Some(Num(limit))
    ensures AlwaysAgree(f, limit, sql)
       <==> limit >= 0 && (EmptyRange(f) || (limit > 0 && NoEmptyNames(f)))
  {
    if limit >= 0 && !EmptyRange(f) && (limit == 0 || !NoEmptyNames(f)) {
      ProbeIsMissed(f, limit, sql);
      assert Increasing([Probe(f)]);
    } else if limit >= 0 {
      forall log, rows | Increasing(log) && Answer(sql, multiset(log), rows)
        ensures Reversed(rows, QueryInMemory(log, f, limit))
      {
        if EmptyRange(f) {
          NothingInRange(log, f, limit, sql, rows);
        } else {
          SameAnswer(log, f, limit, sql, rows);
        }
      }
    }
  }
}

/** Python's list sort as a function: stable, by a total preorder on the elements. */
module StableSort {

  ghost predicate TotalPreorder<T(!new)>(le: (T, T) -> bool) {
    && (forall x, y :: le(x, y) || le(y, x))
    && (forall x, y, z :: le(x, y) && le(y, z) ==> le(x, z))
  }

  ghost predicate Ordered<T>(le: (T, T) -> bool, s: seq<T>) {
    forall i, j :: 0 <= i < j < |s| ==> le(s[i], s[j])
  }

  predicate Tied<T>(le: (T, T) -> bool, x: T, y: T) {
    le(x, y) && le(y, x)
  }

  /** The elements of s that no comparison tells apart from x, in the order in which s holds them. */
  function Ties<T>(le: (T, T) -> bool, s: seq<T>, x: T): seq<T> {
    if s == [] then []
    else (if Tied(le, s[0], x) then [s[0]] else []) + Ties(le, s[1..], x)
  }

  function Insert<T>(le: (T, T) -> bool, x: T, s: seq<T>): (r: seq<T>)
    ensures multiset(r) == multiset{x} + multiset(s)
  {
    if s == [] then [x]
    else if le(x, s[0]) then [x] + s
    else
      assert s == [s[0]] + s[1..];
      [s[0]] + Insert(le, x, s[1..])
  }

  function Sort<T>(le: (T, T) -> bool, s: seq<T>): (r: seq<T>)
    ensures multiset(r) == multiset(s)
  {
    if s == [] then []
    else
      assert s == [s[0]] + s[1..];
      Insert(le, s[0], Sort(le, s[1..]))
  }

  lemma SameElements<T>(s: seq<T>, r: seq<T>)
    requires multiset(s) == multiset(r)
    ensures |s| == |r|
    ensures forall x :: x in s <==> x in r
  {
    assert |multiset(s)| == |s| && |multiset(r)| == |r|;
    forall x ensures x in s <==> x in r {
      assert x in s <==> x in multiset(s);
      assert x in r <==> x in multiset(r);
    }
  }

  lemma {:induction false} InsertOrders<T(!new)>(le: (T, T) -> bool, x: T, s: seq<T>)
    requires TotalPreorder(le) && Ordered(le, s)
    ensures Ordered(le, Insert(le, x, s))
  {
    if s == [] {
    } else if le(x, s[0]) {
    } else {
      var rest := Insert(le, x, s[1..]);
      InsertOrders(le, x, s[1..]);
      assert multiset(rest) == multiset{x} + multiset(s[1..]);
      forall y | y in rest ensures le(s[0], y) {
        assert y in multiset(rest);
        assert y == x || y in s[1..];
      }
    }
  }

  lemma TiesOfCons<T>(le: (T, T) -> bool, x: T, s: seq<T>, y: T)
    ensures Ties(le, [x] + s, y) == Ties(le, [x], y) + Ties(le, s, y)
  {
    assert ([x] + s)[1..] == s;
  }

  lemma NotBothTied<T(!new)>(le: (T, T) -> bool, x: T, z: T, y: T)
    requires TotalPreorder(le) && !le(x, z)
    ensures Ties(le, [x], y) == [] || Ties(le, [z], y) == []
  {
    assert !Tied(le, x, y) || !Tied(le, z, y);
  }

  lemma SwapIfEmpty<T>(a: seq<T>, b: seq<T>, c: seq<T>)
    requires a == [] || b == []
    ensures a + (b + c) == b + (a + c)
  {
  }

  lemma {:induction false} InsertKeepsTies<T(!new)>(le: (T, T) -> bool, x: T, s: seq<T>, y: T)
    requires TotalPreorder(le)
    ensures Ties(le, Insert(le, x, s), y) == Ties(le, [x], y) + Ties(le, s, y)
  {
    hide TotalPreorder;
    if s == [] {
    } else if le(x, s[0]) {
      TiesOfCons(le, x, s, y);
    } else {
      InsertKeepsTies(le, x, s[1..], y);
      TiesOfCons(le, s[0], Insert(le, x, s[1..]), y);
      assert s == [s[0]] + s[1..];
      TiesOfCons(le, s[0], s[1..], y);
      NotBothTied(le, x, s[0], y);
      SwapIfEmpty(Ties(le, [s[0]], y), Ties(le, [x], y), Ties(le, s[1..], y));
    }
  }

  /** Sorting orders the elements, loses and invents none, and keeps equals in the order they came in. */
  lemma {:induction false} SortIsStable<T(!new)>(le: (T, T) -> bool, s: seq<T>)
    requires TotalPreorder(le)
    ensures Ordered(le, Sort(le, s))
    ensures forall y :: Ties(le, Sort(le, s), y) == Ties(le, s, y)
  {
    hide TotalPreorder;
    if s == [] {
    } else {
      SortIsStable(le, s[1..]);
      InsertOrders(le, s[0], Sort(le, s[1..]));
      forall y ensures Ties(le, Sort(le, s), y) == Ties(le, s, y) {
        InsertKeepsTies(le, s[0], Sort(le, s[1..]), y);
        assert s == [s[0]] + s[1..];
        TiesOfCons(le, s[0], s[1..], y);
      }
    }
  }

  lemma {:induction false} TieOf<T(!new)>(le: (T, T) -> bool, s: seq<T>, x: T, y: T)
    requires x in Ties(le, s, y)
    ensures x in s && Tied(le, x, y)
  {
    if s == [] {
    } else if x in Ties(le, s[1..], y) {
      TieOf(le, s[1..], x, y);
    }
  }

  lemma {:induction false} OwnTie<T(!new)>(le: (T, T) -> bool, s: seq<T>, x: T)
    requires TotalPreorder(le) && x in s
    ensures x in Ties(le, s, x)
  {
    if s[0] != x {
      OwnTie(le, s[1..], x);
    }
  }

  lemma FirstIsLeast<T(!new)>(le: (T, T) -> bool, s: seq<T>, x: T)
    requires TotalPreorder(le) && Ordered(le, s) && x in s
    ensures le(s[0], x)
  {
    var i :| 0 <= i < |s| && s[i] == x;
    if i == 0 {
      assert le(x, x);
    }
  }

  lemma SomethingTied<T(!new)>(le: (T, T) -> bool, s: seq<T>)
    requires TotalPreorder(le)
    ensures s != [] ==> Ties(le, s, s[0]) != []
  {
    if s != [] {
      OwnTie(le, s, s[0]);
    }
  }

  /** An ordered list is known from its classes of equals. */
  lemma {:induction false} OrderedIsUnique<T(!new)>(le: (T, T) -> bool, s: seq<T>, r: seq<T>)
    requires TotalPreorder(le) && Ordered(le, s) && Ordered(le, r)
    requires forall y :: Ties(le, s, y) == Ties(le, r, y)
    ensures s == r
  {
    if s == [] {
      SomethingTied(le, r);
    } else {
      OwnTie(le, s, s[0]);
      assert Ties(le, s, s[0]) == Ties(le, r, s[0]);
      TieOf(le, r, s[0], s[0]);
      FirstIsLeast(le, r, s[0]);
      OwnTie(le, r, r[0]);
      assert Ties(le, s, r[0]) == Ties(le, r, r[0]);
      TieOf(le, s, r[0], r[0]);
      FirstIsLeast(le, s, r[0]);
      assert Ties(le, s, s[0])[0] == s[0] && Ties(le, r, s[0])[0] == r[0];
      forall y ensures Ties(le, s[1..], y) == Ties(le, r[1..], y) {
        assert Ties(le, s, y) == Ties(le, r, y);
        assert Tied(le, s[0], y) <==> Tied(le, r[0], y);
        var a := if Tied(le, s[0], y) then [s[0]] else [];
        assert Ties(le, s, y) == a + Ties(le, s[1..], y);
        var b := if Tied(le, r[0], y) then [r[0]] else [];
        assert Ties(le, r, y) == b + Ties(le, r[1..], y);
        assert Ties(le, s[1..], y) == Ties(le, s, y)[|a|..];
        assert Ties(le, r[1..], y) == Ties(le, r, y)[|b|..];
      }
      OrderedIsUnique(le, s[1..], r[1..]);
    }
  }

  /** What a sort returns depends on the order of its input only between equals. */
  lemma SortIgnoresOrder<T(!new)>(le: (T, T) -> bool, s: seq<T>, r: seq<T>)
    requires TotalPreorder(le)
    requires forall y :: Ties(le, s, y) == Ties(le, r, y)
    ensures Sort(le, s) == Sort(le, r)
  {
    SortIsStable(le, s);
    SortIsStable(le, r);
    OrderedIsUnique(le, Sort(le, s), Sort(le, r));
  }
}

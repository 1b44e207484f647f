/** What masking reveals, where everything ends up, and what it depends on. */
module PiiProperties {
  import opened StableSort
  import opened PiiFilter

  /** Position p belongs to an owner critical enough to be masked. */
  predicate Hidden(claims: seq<Match>, minLevel: nat, p: nat) {
    exists c :: c in claims && c.level <= minLevel && c.start <= p < c.end
  }

  /** How much the rendering has grown by position p: every token that replaced a region ending by p. */
  function Growth(claims: seq<Match>, minLevel: nat, p: nat): int {
    if claims == [] then 0
    else
      var c := claims[0];
      (if c.level <= minLevel && c.end <= p then |c.token| - (c.end - c.start) else 0)
        + Growth(claims[1..], minLevel, p)
  }

  lemma {:induction false} NoGrowthYet(claims: seq<Match>, minLevel: nat, from: nat, length: nat, p: nat)
    requires Apart(claims, from, length) && p <= from
    ensures Growth(claims, minLevel, p) == 0
  {
    if claims != [] {
      NoGrowthYet(claims[1..], minLevel, claims[0].end, length, p);
    }
  }

  lemma {:induction false} RenderedLength(text: string, claims: seq<Match>, from: nat, minLevel: nat)
    requires from <= |text| && Apart(claims, from, |text|)
    ensures |Render(text, claims, from, minLevel)| == |text| - from + Growth(claims, minLevel, |text|)
  {
    if claims != [] {
      RenderedLength(text, claims[1..], claims[0].end, minLevel);
    }
  }

  /** The text up to the end of the first owner, rendered. */
  function Head(text: string, claims: seq<Match>, from: nat, minLevel: nat): string
    requires from <= |text| && Apart(claims, from, |text|) && claims != []
  {
    text[from..claims[0].start] + Piece(text, claims[0], minLevel)
  }

  lemma HeadThenTail(text: string, claims: seq<Match>, from: nat, minLevel: nat, p: nat)
    requires from <= |text| && Apart(claims, from, |text|) && claims != []
    ensures Render(text, claims, from, minLevel)
         == Head(text, claims, from, minLevel) + Render(text, claims[1..], claims[0].end, minLevel)
    ensures claims[0].end <= p ==>
              p - from + Growth(claims, minLevel, p)
                == |Head(text, claims, from, minLevel)| + p - claims[0].end + Growth(claims[1..], minLevel, p)
    ensures p < claims[0].end ==> Growth(claims, minLevel, p) == 0
  {
    if p < claims[0].end {
      NoGrowthYet(claims[1..], minLevel, claims[0].end, |text|, p);
    }
  }

  lemma HiddenLater(claims: seq<Match>, minLevel: nat, p: nat)
    requires claims != [] && !Hidden(claims, minLevel, p)
    ensures !Hidden(claims[1..], minLevel, p)
    ensures claims[0].start <= p < claims[0].end ==> claims[0].level > minLevel
  {
    assert claims[0] in claims;
    assert forall d :: d in claims[1..] ==> d in claims;
  }

  predicate Shows(s: string, at: int, ch: char) {
    0 <= at < |s| && s[at] == ch
  }

  lemma ShowsInParts(a: string, b: string, at: int, ch: char)
    ensures Shows(a, at, ch) ==> Shows(a + b, at, ch)
    ensures Shows(b, at, ch) ==> Shows(a + b, |a| + at, ch)
  {
  }

  lemma InHead(text: string, claims: seq<Match>, from: nat, minLevel: nat, p: nat)
    requires from <= |text| && Apart(claims, from, |text|) && claims != []
    requires from <= p < claims[0].end
    requires p < claims[0].start || claims[0].level > minLevel
    ensures Shows(Head(text, claims, from, minLevel), p - from, text[p])
  {
  }

  lemma RestApart(claims: seq<Match>, from: nat, length: nat)
    requires Apart(claims, from, length) && claims != []
    ensures from <= claims[0].start < claims[0].end <= length
    ensures Apart(claims[1..], claims[0].end, length)
  {
  }

  lemma ShowsUnclaimed(text: string, from: nat, minLevel: nat, p: nat)
    requires from <= p < |text|
    ensures Shows(Render(text, [], from, minLevel), p - from + Growth([], minLevel, p), text[p])
  {
  }

  /** Every position outside the masked regions keeps its character, moved by the growth so far. */
  lemma {:induction false} KeptCharacter(text: string, claims: seq<Match>, from: nat, minLevel: nat, p: nat)
    requires from <= p < |text| && Apart(claims, from, |text|)
    requires !Hidden(claims, minLevel, p)
    ensures Shows(Render(text, claims, from, minLevel), p - from + Growth(claims, minLevel, p), text[p])
    decreases |claims|
  {
    hide Render, Hidden, Growth, Apart, Shows, Head;
    if claims == [] {
      ShowsUnclaimed(text, from, minLevel, p);
    } else {
      RestApart(claims, from, |text|);
      var c, rest := claims[0], claims[1..];
      HeadThenTail(text, claims, from, minLevel, p);
      HiddenLater(claims, minLevel, p);
      var head, tail := Head(text, claims, from, minLevel), Render(text, rest, c.end, minLevel);
      if p >= c.end {
        KeptCharacter(text, rest, c.end, minLevel, p);
        ShowsInParts(head, tail, p - c.end + Growth(rest, minLevel, p), text[p]);
      } else {
        InHead(text, claims, from, minLevel, p);
        ShowsInParts(head, tail, p - from, text[p]);
      }
    }
  }

  lemma DropFront<T>(a: seq<T>, b: seq<T>, n: nat)
    requires n <= |b|
    ensures (a + b)[|a| + n..] == b[n..]
  {
  }

  lemma InHeadOrTail(claims: seq<Match>, from: nat, length: nat, c: Match)
    requires Apart(claims, from, length) && c in claims
    ensures c == claims[0] || (c in claims[1..] && claims[0].end <= c.start)
  {
  }

  /** Every masked region is replaced by its token, which stands where the region stood. */
  lemma {:induction false} TokenPlaced(text: string, claims: seq<Match>, from: nat, minLevel: nat, c: Match)
    requires from <= |text| && Apart(claims, from, |text|)
    requires c in claims && c.level <= minLevel
    ensures 0 <= c.start - from + Growth(claims, minLevel, c.start) <= |Render(text, claims, from, minLevel)|
    ensures c.token <= Render(text, claims, from, minLevel)[c.start - from + Growth(claims, minLevel, c.start)..]
  {
    hide Render, Growth;
    HeadThenTail(text, claims, from, minLevel, c.start);
    InHeadOrTail(claims, from, |text|, c);
    var first, rest := claims[0], claims[1..];
    var head, tail := Head(text, claims, from, minLevel), Render(text, rest, first.end, minLevel);
    if c == first {
      DropFront(text[from..c.start], c.token + tail, 0);
      assert text[from..c.start] + (c.token + tail) == head + tail;
    } else {
      TokenPlaced(text, rest, first.end, minLevel, c);
      DropFront(head, tail, c.start - first.end + Growth(rest, minLevel, c.start));
    }
  }

  predicate AgreeOutside(text: string, other: string, claims: seq<Match>, from: nat, minLevel: nat)
    requires |text| == |other|
  {
    forall p :: from <= p < |text| && !Hidden(claims, minLevel, p) ==> text[p] == other[p]
  }

  lemma SameParts<T>(a: seq<T>, b: seq<T>, a': seq<T>, b': seq<T>)
    requires |a| == |a'|
    ensures a + b == a' + b' <==> a == a' && b == b'
  {
    if a + b == a' + b' {
      assert a == (a + b)[..|a|] && b == (a + b)[|a|..];
      assert a' == (a' + b')[..|a|] && b' == (a' + b')[|a|..];
    }
  }

  lemma AgreeBySplit(text: string, other: string, claims: seq<Match>, from: nat, minLevel: nat)
    requires |text| == |other| && from <= |text| && Apart(claims, from, |text|) && claims != []
    ensures var c := claims[0];
            AgreeOutside(text, other, claims, from, minLevel) <==>
            (&& text[from..c.start] == other[from..c.start]
             && Piece(text, c, minLevel) == Piece(other, c, minLevel)
             && AgreeOutside(text, other, claims[1..], c.end, minLevel))
  {
    var c := claims[0];
    forall p | from <= p < |text|
      ensures Hidden(claims, minLevel, p) <==>
              (if p < c.end then c.level <= minLevel && c.start <= p else Hidden(claims[1..], minLevel, p))
    {
      assert claims == [c] + claims[1..];
      assert forall d :: d in claims <==> d == c || d in claims[1..];
      forall d | d in claims[1..] ensures c.end <= d.start {
        var k :| 0 <= k < |claims[1..]| && claims[1..][k] == d;
        assert claims[k + 1] == d;
      }
    }
    if AgreeOutside(text, other, claims, from, minLevel) {
      assert text[from..c.start] == other[from..c.start];
      if c.level > minLevel {
        assert text[c.start..c.end] == other[c.start..c.end];
      }
    }
    if && text[from..c.start] == other[from..c.start]
       && Piece(text, c, minLevel) == Piece(other, c, minLevel)
       && AgreeOutside(text, other, claims[1..], c.end, minLevel)
    {
      forall p | from <= p < |text| && !Hidden(claims, minLevel, p) ensures text[p] == other[p] {
        if p < c.start {
          assert text[p] == text[from..c.start][p - from] && other[p] == other[from..c.start][p - from];
        } else if p < c.end {
          assert text[p] == text[c.start..c.end][p - c.start] && other[p] == other[c.start..c.end][p - c.start];
        }
      }
    }
  }

  /**
   Masking two texts over the same regions gives the same result exactly when the texts agree
   everywhere else: what stood in a masked region leaves no trace, and nothing else is lost.
   */
  lemma {:induction false} RevealsOnlyTheRest(text: string, other: string, claims: seq<Match>, from: nat, minLevel: nat)
    requires |text| == |other| && from <= |text| && Apart(claims, from, |text|)
    ensures Render(text, claims, from, minLevel) == Render(other, claims, from, minLevel)
       <==> AgreeOutside(text, other, claims, from, minLevel)
  {
    if claims == [] {
      if text[from..] == other[from..] {
        forall p | from <= p < |text| ensures text[p] == other[p] {
          assert text[p] == text[from..][p - from] && other[p] == other[from..][p - from];
        }
      }
      if AgreeOutside(text, other, claims, from, minLevel) {
        assert text[from..] == other[from..];
      }
    } else {
      var c, rest := claims[0], claims[1..];
      RevealsOnlyTheRest(text, other, rest, c.end, minLevel);
      AgreeBySplit(text, other, claims, from, minLevel);
      SameParts(text[from..c.start] + Piece(text, c, minLevel), Render(text, rest, c.end, minLevel),
                other[from..c.start] + Piece(other, c, minLevel), Render(other, rest, c.end, minLevel));
      SameParts(text[from..c.start], Piece(text, c, minLevel), other[from..c.start], Piece(other, c, minLevel));
    }
  }

  /**
   The same for the whole filter: no two texts with the same matches are told apart by the
   characters that were masked.
   */
  lemma MaskedValuesLeaveNoTrace(text: string, other: string, found: seq<Match>, minLevel: nat)
    requires |text| == |other| && Spans(found, |text|)
    ensures Masked(text, found, minLevel) == Masked(other, found, minLevel)
       <==> AgreeOutside(text, other, Owners(found), 0, minLevel)
  {
    OwnersAreApart(found, |text|);
    RevealsOnlyTheRest(text, other, Owners(found), 0, minLevel);
  }

  /** No other match starts where this one does and is longer, or as long and more critical. */
  ghost predicate LongestAtStart(found: seq<Match>, m: Match) {
    forall n :: n in found && n.start == m.start ==> n.end < m.end || (n.end == m.end && n.level >= m.level)
  }

  /** Then it, or one as long and more critical, owns its region, unless an owner from further left reaches in. */
  lemma LongestIsOwned(text: string, found: seq<Match>, m: Match) returns (c: Match)
    requires Spans(found, |text|) && m in found && LongestAtStart(found, m)
    requires forall d :: d in Owners(found) && d.start < m.start ==> d.end <= m.start
    ensures c in Owners(found) && c.start == m.start && c.end == m.end && c.level <= m.level
  {
    hide Owners, Spans, Apart, AccountsFor;
    EveryMatchAccountedFor(found, |text|);
    OwnersAreApart(found, |text|);
    c := InPlaceOf(Owners(found), found, m);
    assert c in found;
  }

  lemma InPlaceOf(claims: seq<Match>, found: seq<Match>, m: Match) returns (c: Match)
    requires AccountsFor(claims, found, 0) && m in found
    ensures c in claims && TakesPlaceOf(c, m)
  {
    c :| c in claims && TakesPlaceOf(c, m);
  }

  /**
   So the longest match at its start is masked whole: its region is hidden, and whatever stands in it leaves
   no trace.
   */
  lemma LongestIsMasked(text: string, other: string, found: seq<Match>, minLevel: nat, m: Match)
    requires Spans(found, |text|) && m in found && m.level <= minLevel && LongestAtStart(found, m)
    requires forall d :: d in Owners(found) && d.start < m.start ==> d.end <= m.start
    requires |other| == |text| && forall p :: 0 <= p < |text| && !(m.start <= p < m.end) ==> other[p] == text[p]
    ensures forall p :: m.start <= p < m.end ==> Hidden(Owners(found), minLevel, p)
    ensures Masked(other, found, minLevel) == Masked(text, found, minLevel)
  {
    var c := LongestIsOwned(text, found, m);
    hide Owners, Masked, Spans, LongestAtStart;
    assert forall p :: m.start <= p < m.end ==> Hidden(Owners(found), minLevel, p);
    assert AgreeOutside(text, other, Owners(found), 0, minLevel);
    MaskedValuesLeaveNoTrace(text, other, found, minLevel);
  }

  lemma {:induction false} TiesOfTies(s: seq<Match>, r: seq<Match>, y: Match)
    requires Ties(StartsBefore, s, y) == Ties(StartsBefore, r, y)
    ensures Ties(Before, s, y) == Ties(Before, r, y)
  {
    TiesWithin(s, y);
    TiesWithin(r, y);
  }

  lemma {:induction false} TiesWithin(s: seq<Match>, y: Match)
    ensures Ties(Before, s, y) == Ties(Before, Ties(StartsBefore, s, y), y)
  {
    if s != [] {
      TiesWithin(s[1..], y);
      var rest := Ties(StartsBefore, s[1..], y);
      assert ([s[0]] + rest)[1..] == rest;
      assert [] + rest == rest;
    }
  }

  lemma {:induction false} TiesAreCopies(s: seq<Match>, y: Match, z: Match)
    requires forall m :: m in s && Tied(Before, m, y) ==> m == z
    requires Tied(Before, z, y)
    ensures Ties(Before, s, y) == seq(multiset(s)[z], i => z)
  {
    if s != [] {
      assert s == [s[0]] + s[1..];
      assert multiset(s) == multiset{s[0]} + multiset(s[1..]);
      TiesAreCopies(s[1..], y, z);
    }
  }

  /**
   The result does not depend on the order of detection, except between matches that are equal in
   start, length and level.
   */
  lemma DetectionOrderIrrelevant(text: string, found: seq<Match>, other: seq<Match>, minLevel: nat)
    requires Spans(found, |text|) && Spans(other, |text|)
    requires forall y :: Ties(Before, found, y) == Ties(Before, other, y)
    ensures Masked(text, found, minLevel) == Masked(text, other, minLevel)
  {
    BeforeIsTotal();
    SortIsStable(StartsBefore, found);
    SortIsStable(StartsBefore, other);
    forall y ensures Ties(Before, Detect(found), y) == Ties(Before, Detect(other), y) {
      TiesOfTies(Detect(found), found, y);
      TiesOfTies(Detect(other), other, y);
    }
    SortIgnoresOrder(Before, Detect(found), Detect(other));
  }

  predicate NoTies(found: seq<Match>) {
    forall m, n :: m in found && n in found && Tied(Before, m, n) ==> m == n
  }

  /** In particular, without such ties any permutation of the matches is masked alike. */
  lemma PermutationMasksAlike(text: string, found: seq<Match>, other: seq<Match>, minLevel: nat)
    requires Spans(found, |text|) && multiset(other) == multiset(found) && NoTies(found)
    ensures Spans(other, |text|)
    ensures Masked(text, found, minLevel) == Masked(text, other, minLevel)
  {
    SameElements(found, other);
    forall y ensures Ties(Before, found, y) == Ties(Before, other, y) {
      var z := if exists m :: m in found && Tied(Before, m, y)
               then (var m :| m in found && Tied(Before, m, y); m) else y;
      TiesAreCopies(found, y, z);
      TiesAreCopies(other, y, z);
    }
    DetectionOrderIrrelevant(text, found, other, minLevel);
  }

  lemma {:induction false} NothingAfterWhole(ms: seq<Match>, length: nat)
    requires Spans(ms, length)
    ensures Claims(ms, length) == []
  {
    if ms != [] {
      assert ms[0] in ms;
      assert forall m :: m in ms[1..] ==> m in ms;
      NothingAfterWhole(ms[1..], length);
    }
  }

  predicate Whole(m: Match, text: string) {
    m.start == 0 && m.end == |text|
  }

  lemma LeastWhole(text: string, ms: seq<Match>, m: Match) returns (w: Match)
    requires Spans(ms, |text|) && Ordered(Before, ms) && m in ms && Whole(m, text)
    ensures w in ms && Whole(w, text)
    ensures forall n :: n in ms && Whole(n, text) ==> w.level <= n.level
    ensures Claims(ms, 0) == [w]
  {
    BeforeIsTotal();
    w := ms[0];
    assert w in ms;
    forall n | n in ms && Whole(n, text) ensures Before(w, n) {
      FirstIsLeast(Before, ms, n);
    }
    FirstIsLeast(Before, ms, m);
    assert forall n :: n in ms[1..] ==> n in ms;
    NothingAfterWhole(ms[1..], |text|);
  }

  lemma WholeAlone(text: string, claims: seq<Match>, w: Match, minLevel: nat)
    requires claims == [w] && Apart(claims, 0, |text|) && Whole(w, text)
    ensures Render(text, claims, 0, minLevel) == if w.level > minLevel then text else w.token
  {
    assert claims[1..] == [];
    assert text[0..0] == [] && text[|text|..] == [] && text[0..|text|] == text;
  }

  /**
   A match over the whole text settles everything: the most critical such match decides whether the
   text comes back as it is or as a single token. A request id, whose only whole match is a UUID at
   the internal level, passes unchanged.
   */
  lemma WholeTextMatch(text: string, found: seq<Match>, minLevel: nat, m: Match) returns (w: Match)
    requires Spans(found, |text|) && m in found && Whole(m, text)
    ensures w in found && Whole(w, text)
    ensures forall n :: n in found && Whole(n, text) ==> w.level <= n.level
    ensures Masked(text, found, minLevel) == if w.level > minLevel then text else w.token
  {
    ArrangedIsOrdered(found);
    OwnersAreApart(found, |text|);
    w := LeastWhole(text, Arranged(found), m);
    WholeAlone(text, Owners(found), w, minLevel);
  }

  /** Detected only above the threshold, a text over which some match spans the whole is not touched. */
  lemma InternalIdUnchanged(text: string, found: seq<Match>, minLevel: nat, m: Match)
    requires Spans(found, |text|) && m in found && Whole(m, text)
    ensures (forall n :: n in found && Whole(n, text) ==> n.level > minLevel) ==> Masked(text, found, minLevel) == text
  {
    var w := WholeTextMatch(text, found, minLevel, m);
  }
}

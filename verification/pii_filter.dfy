/**
 The PII filter's span resolution: overlapping matches are ordered, claimed greedily and spliced
 into the text in place. What the patterns match is an arbitrary list of non-empty spans.
 */
module PiiFilter {
  import opened StableSort

  datatype Match = Match(fieldType: string, level: nat, start: nat, end: nat, token: string)

  /** Order in which mask_text visits the matches: by start, then longest, then most critical. */
  predicate Before(a: Match, b: Match) {
    a.start < b.start ||
    (a.start == b.start &&
     (a.end > b.end || (a.end == b.end && a.level <= b.level)))
  }

  /** Order in which detect returns them. */
  predicate StartsBefore(a: Match, b: Match) {
    a.start <= b.start
  }

  predicate Spans(ms: seq<Match>, length: nat) {
    forall m :: m in ms ==> m.start < m.end <= length
  }

  function Detect(found: seq<Match>): seq<Match> {
    Sort(StartsBefore, found)
  }

  function Arranged(found: seq<Match>): seq<Match> {
    Sort(Before, Detect(found))
  }

  /** Matches that own their region: each one that starts at or after the end of the last owner. */
  function Claims(ms: seq<Match>, lastEnd: nat): seq<Match> {
    if ms == [] then []
    else if ms[0].start < lastEnd then Claims(ms[1..], lastEnd)
    else [ms[0]] + Claims(ms[1..], ms[0].end)
  }

  predicate Apart(claims: seq<Match>, from: nat, length: nat) {
    && (forall i :: 0 <= i < |claims| ==> from <= claims[i].start < claims[i].end <= length)
    && (forall i, j :: 0 <= i < j < |claims| ==> claims[i].end <= claims[j].start)
  }

  function Piece(text: string, claim: Match, minLevel: nat): string
    requires claim.start < claim.end <= |text|
  {
    if claim.level > minLevel then text[claim.start..claim.end] else claim.token
  }

  /**
   The text from position `from` on, left to right: unclaimed stretches as they are, claimed regions
   as their piece.
   */
  function Render(text: string, claims: seq<Match>, from: nat, minLevel: nat): string
    requires from <= |text| && Apart(claims, from, |text|)
    decreases |claims|
  {
    if claims == [] then text[from..]
    else
      var c := claims[0];
      text[from..c.start] + Piece(text, c, minLevel) + Render(text, claims[1..], c.end, minLevel)
  }

  function Owners(found: seq<Match>): seq<Match> {
    Claims(Arranged(found), 0)
  }

  function Masked(text: string, found: seq<Match>, minLevel: nat): string
    requires Spans(found, |text|)
  {
    OwnersAreApart(found, |text|);
    Render(text, Owners(found), 0, minLevel)
  }

  lemma BeforeIsTotal()
    ensures TotalPreorder(Before) && TotalPreorder(StartsBefore)
  {
  }

  lemma ArrangedIsOrdered(found: seq<Match>)
    ensures Ordered(Before, Arranged(found))
    ensures forall m :: m in Arranged(found) <==> m in found
  {
    BeforeIsTotal();
    SortIsStable(Before, Detect(found));
    SameElements(found, Detect(found));
    SameElements(Detect(found), Arranged(found));
  }

  lemma {:induction false} ClaimsAreApart(ms: seq<Match>, lastEnd: nat, length: nat)
    requires Spans(ms, length)
    ensures Apart(Claims(ms, lastEnd), lastEnd, length)
    ensures forall m :: m in Claims(ms, lastEnd) ==> m in ms
  {
    if ms == [] {
    } else {
      assert forall m :: m in ms[1..] ==> m in ms;
      if ms[0].start < lastEnd {
        ClaimsAreApart(ms[1..], lastEnd, length);
      } else {
        assert ms[0] in ms;
        ClaimsAreApart(ms[1..], ms[0].end, length);
      }
    }
  }

  /** The owned regions lie in the text, left to right and disjoint, and each was detected. */
  lemma OwnersAreApart(found: seq<Match>, length: nat)
    requires Spans(found, length)
    ensures Apart(Owners(found), 0, length)
    ensures forall m :: m in Owners(found) ==> m in found
  {
    ArrangedIsOrdered(found);
    ClaimsAreApart(Arranged(found), 0, length);
  }

  lemma {:induction false} ClaimedOrBlocked(ms: seq<Match>, lastEnd: nat, m: Match)
    requires Ordered(Before, ms) && m in ms && lastEnd <= m.start
    ensures m in Claims(ms, lastEnd)
         || exists c :: c in Claims(ms, lastEnd) && c.start <= m.start < c.end && Before(c, m)
  {
    var first, rest := ms[0], ms[1..];
    if first.start < lastEnd {
      ClaimedOrBlocked(rest, lastEnd, m);
    } else if first != m {
      assert Before(first, m);
      var claims := Claims(ms, lastEnd);
      assert claims == [first] + Claims(rest, first.end);
      if m.start < first.end {
        assert first in claims;
      } else {
        ClaimedOrBlocked(rest, first.end, m);
        if m in Claims(rest, first.end) {
          assert m in claims;
        } else {
          var c :| c in Claims(rest, first.end) && c.start <= m.start < c.end && Before(c, m);
          assert c in claims;
        }
      }
    }
  }

  /** The claim takes the match's place: from further left, or longer, or as long and at least as critical. */
  predicate TakesPlaceOf(c: Match, m: Match) {
    && c.start <= m.start < c.end
    && (c.start < m.start || c.end > m.end || (c.end == m.end && c.level <= m.level))
  }

  /** Each match, or one that takes its place, is among the claims. */
  ghost predicate AccountsFor(claims: seq<Match>, found: seq<Match>, from: nat) {
    forall m :: m in found && m.start >= from ==> exists c :: c in claims && TakesPlaceOf(c, m)
  }

  /**
   No detection is dropped without cause: it owns its region, or it starts inside the region of an owner
   that starts further left, or reaches further, or is as long and at least as critical.
   */
  lemma EveryMatchAccountedFor(found: seq<Match>, length: nat)
    requires Spans(found, length)
    ensures AccountsFor(Owners(found), found, 0)
  {
    ArrangedIsOrdered(found);
    forall m | m in found ensures exists c :: c in Owners(found) && TakesPlaceOf(c, m) {
      ClaimedOrBlocked(Arranged(found), 0, m);
      if m in Owners(found) {
        assert TakesPlaceOf(m, m);
      } else {
        var c :| c in Owners(found) && c.start <= m.start < c.end && Before(c, m);
        assert TakesPlaceOf(c, m);
      }
    }
  }

  lemma FirstIsLeftmost(claims: seq<Match>, from: nat, length: nat, c: Match)
    requires Apart(claims, from, length) && c in claims
    ensures c.start >= claims[0].start && (c == claims[0] || c.start >= claims[0].end)
  {
    var i :| 0 <= i < |claims| && claims[i] == c;
  }

  /** The first claims of two accounts are over the same region. */
  lemma FirstClaimed(found: seq<Match>, a: seq<Match>, b: seq<Match>, from: nat, length: nat)
    requires Apart(a, from, length) && Apart(b, from, length) && a != []
    requires Detected(a, found) && AccountsFor(b, found, from)
    ensures b != [] && b[0].start <= a[0].start
    ensures b[0].start == a[0].start ==> b[0].end > a[0].end || (b[0].end == a[0].end && b[0].level <= a[0].level)
  {
    assert a[0] in a;
    var c :| c in b && TakesPlaceOf(c, a[0]);
    FirstIsLeftmost(b, from, length, c);
  }

  lemma LaterAccount(found: seq<Match>, claims: seq<Match>, from: nat, length: nat)
    requires Spans(found, length) && Apart(claims, from, length) && claims != [] && AccountsFor(claims, found, from)
    ensures from <= claims[0].end
    ensures AccountsFor(claims[1..], found, claims[0].end) && Apart(claims[1..], claims[0].end, length)
  {
    forall m | m in found && m.start >= claims[0].end ensures exists c :: c in claims[1..] && TakesPlaceOf(c, m) {
      var c :| c in claims && TakesPlaceOf(c, m);
      var i :| 0 <= i < |claims| && claims[i] == c;
      assert i > 0 && claims[1..][i - 1] == c;
    }
  }

  predicate Detected(claims: seq<Match>, found: seq<Match>) {
    forall m :: m in claims ==> m in found
  }

  lemma DetectedRest(claims: seq<Match>, found: seq<Match>)
    requires Detected(claims, found) && claims != []
    ensures Detected(claims[1..], found)
  {
    assert forall m :: m in claims[1..] ==> m in claims;
  }

  predicate SameRegion(a: Match, b: Match) {
    a.start == b.start && a.end == b.end && a.level == b.level
  }

  /** Two lists of claims over the same regions, at the same levels. */
  predicate SameRegions(a: seq<Match>, b: seq<Match>) {
    |a| == |b| && forall i :: 0 <= i < |a| ==> SameRegion(a[i], b[i])
  }

  lemma SameFromFirst(a: seq<Match>, b: seq<Match>)
    requires a != [] && b != [] && SameRegion(a[0], b[0]) && SameRegions(a[1..], b[1..])
    ensures SameRegions(a, b)
  {
    forall i | 0 <= i < |a| ensures SameRegion(a[i], b[i]) {
      if i > 0 { assert a[i] == a[1..][i - 1] && b[i] == b[1..][i - 1]; }
    }
  }

  lemma {:induction false} OneAccount(found: seq<Match>, a: seq<Match>, b: seq<Match>, from: nat, length: nat)
    requires Spans(found, length) && Apart(a, from, length) && Apart(b, from, length)
    requires Detected(a, found) && Detected(b, found) && AccountsFor(a, found, from) && AccountsFor(b, found, from)
    ensures SameRegions(a, b)
    decreases |a|
  {
    hide AccountsFor, Apart, Spans, Detected;
    if a != [] { FirstClaimed(found, a, b, from, length); }
    if b != [] { FirstClaimed(found, b, a, from, length); }
    if a != [] {
      LaterAccount(found, a, from, length);
      LaterAccount(found, b, from, length);
      DetectedRest(a, found);
      DetectedRest(b, found);
      OneAccount(found, a[1..], b[1..], a[0].end, length);
      SameFromFirst(a, b);
    }
  }

  /**
   These two properties settle the result: any disjoint detected regions, left to right, that account for
   every detection are the owned regions.
   */
  lemma OwnersAreTheOnly(found: seq<Match>, claims: seq<Match>, length: nat)
    requires Spans(found, length) && Apart(claims, 0, length)
    requires Detected(claims, found) && AccountsFor(claims, found, 0)
    ensures SameRegions(Owners(found), claims)
  {
    OwnersAreApart(found, length);
    EveryMatchAccountedFor(found, length);
    hide Owners, AccountsFor, Apart, Spans;
    OneAccount(found, Owners(found), claims, 0, length);
  }

  /**
   Greedy choice, stated from the end of the list: the next match in the order becomes an owner
   exactly when every owner before it ends where it starts or earlier.
   */
  lemma {:induction false} NextClaim(ms: seq<Match>, m: Match, lastEnd: nat, length: nat)
    requires Spans(ms, length)
    ensures Claims(ms + [m], lastEnd) == Claims(ms, lastEnd) +
      (if lastEnd <= m.start && forall c :: c in Claims(ms, lastEnd) ==> c.end <= m.start
       then [m] else [])
  {
    if ms == [] {
      assert ms + [m] == [m];
    } else {
      assert (ms + [m])[1..] == ms[1..] + [m];
      assert ms[0] in ms;
      if ms[0].start < lastEnd {
        NextClaim(ms[1..], m, lastEnd, length);
      } else {
        NextClaim(ms[1..], m, ms[0].end, length);
        var later := Claims(ms[1..], ms[0].end);
        assert Claims(ms, lastEnd) == [ms[0]] + later;
        assert forall c :: c in [ms[0]] + later <==> c == ms[0] || c in later;
      }
    }
  }

  /** Cutting text[i..j] out of a string whose tail is text[from..], and putting `token` there. */
  lemma Splice(done: string, text: string, from: nat, i: nat, j: nat, token: string)
    requires from <= i <= j <= |text|
    ensures var whole := done + text[from..];
            var shift := |done| - from;
            whole[..i + shift] + token + whole[j + shift..] == done + text[from..i] + token + text[j..]
  {
    var whole := done + text[from..];
    assert whole[..i + |done| - from] == done + text[from..i];
    assert whole[j + |done| - from..] == text[j..];
  }

  lemma Regroup(a: string, b: string, c: string, d: string)
    ensures a + (b + c + d) == a + b + c + d
  {
  }

  lemma RenderStep(text: string, matches: seq<Match>, i: nat, lastEnd: nat, minLevel: nat, done: string)
    requires i < |matches| && Spans(matches, |text|) && lastEnd <= |text|
    requires matches[i].start >= lastEnd
    ensures matches[i].start < matches[i].end <= |text|
    ensures Apart(Claims(matches[i..], lastEnd), lastEnd, |text|)
    ensures Apart(Claims(matches[i + 1..], matches[i].end), matches[i].end, |text|)
    ensures done + Render(text, Claims(matches[i..], lastEnd), lastEnd, minLevel)
         == done + text[lastEnd..matches[i].start] + Piece(text, matches[i], minLevel)
                + Render(text, Claims(matches[i + 1..], matches[i].end), matches[i].end, minLevel)
  {
    var m := matches[i];
    assert m in matches;
    assert forall k :: k in matches[i..] ==> k in matches;
    assert matches[i..][0] == m && matches[i..][1..] == matches[i + 1..];
    ClaimsAreApart(matches[i..], lastEnd, |text|);
    ClaimsAreApart(matches[i + 1..], m.end, |text|);
    var rest := Claims(matches[i + 1..], m.end);
    assert Claims(matches[i..], lastEnd) == [m] + rest;
    hide Spans, Claims, Apart;
    assert ([m] + rest)[1..] == rest;
    Regroup(done, text[lastEnd..m.start], Piece(text, m, minLevel), Render(text, rest, m.end, minLevel));
  }

  /** Where the loop stands before match i: `done` is final, the rest of the result is still the text. */
  ghost predicate Progress(text: string, found: seq<Match>, minLevel: nat, i: nat, lastEnd: nat, done: string, result: string)
    requires Spans(found, |text|)
  {
    var matches := Arranged(found);
    && i <= |matches|
    && lastEnd <= |text|
    && Apart(Claims(matches[i..], lastEnd), lastEnd, |text|)
    && done + Render(text, Claims(matches[i..], lastEnd), lastEnd, minLevel) == Masked(text, found, minLevel)
    && result == done + text[lastEnd..]
  }

  lemma ProgressStarts(text: string, found: seq<Match>, minLevel: nat)
    requires Spans(found, |text|)
    ensures Progress(text, found, minLevel, 0, 0, "", text)
  {
    OwnersAreApart(found, |text|);
    assert Arranged(found)[0..] == Arranged(found);
  }

  lemma ProgressEnds(text: string, found: seq<Match>, minLevel: nat, lastEnd: nat, done: string, result: string)
    requires Spans(found, |text|)
    requires Progress(text, found, minLevel, |Arranged(found)|, lastEnd, done, result)
    ensures result == Masked(text, found, minLevel)
  {
    assert Arranged(found)[|Arranged(found)|..] == [];
  }

  lemma ProgressSkips(text: string, found: seq<Match>, minLevel: nat, i: nat, lastEnd: nat, done: string, result: string)
    requires Spans(found, |text|) && i < |Arranged(found)|
    requires Progress(text, found, minLevel, i, lastEnd, done, result)
    requires Arranged(found)[i].start < lastEnd
    ensures Progress(text, found, minLevel, i + 1, lastEnd, done, result)
  {
    assert Arranged(found)[i..][1..] == Arranged(found)[i + 1..];
  }

  lemma ProgressReplaces(text: string, found: seq<Match>, minLevel: nat, i: nat, lastEnd: nat,
                       done: string, result: string, m: Match)
    requires Spans(found, |text|) && i < |Arranged(found)| && m == Arranged(found)[i]
    requires Progress(text, found, minLevel, i, lastEnd, done, result)
    requires lastEnd <= m.start && m.level <= minLevel
    ensures m.start < m.end <= |text| && |result| == |done| + |text| - lastEnd
    ensures Progress(text, found, minLevel, i + 1, m.end,
                     done + text[lastEnd..m.start] + m.token,
                     result[..m.start + |done| - lastEnd] + m.token + result[m.end + |done| - lastEnd..])
  {
    hide Render, Claims, Apart, Masked, Ordered, Arranged;
    ArrangedIsOrdered(found);
    RenderStep(text, Arranged(found), i, lastEnd, minLevel, done);
    Splice(done, text, lastEnd, m.start, m.end, m.token);
  }

  lemma ProgressKeeps(text: string, found: seq<Match>, minLevel: nat, i: nat, lastEnd: nat,
                      done: string, result: string, m: Match)
    requires Spans(found, |text|) && i < |Arranged(found)| && m == Arranged(found)[i]
    requires Progress(text, found, minLevel, i, lastEnd, done, result)
    requires lastEnd <= m.start && m.level > minLevel
    ensures m.start < m.end <= |text|
    ensures Progress(text, found, minLevel, i + 1, m.end, done + text[lastEnd..m.start] + text[m.start..m.end], result)
  {
    hide Render, Claims, Apart, Masked, Ordered, Arranged;
    ArrangedIsOrdered(found);
    RenderStep(text, Arranged(found), i, lastEnd, minLevel, done);
    assert text[lastEnd..] == text[lastEnd..m.start] + text[m.start..m.end] + text[m.end..];
  }

  /** The splice loop: `result` is rewritten in place and `offset` is how much longer it has become. */
  method MaskText(text: string, found: seq<Match>, minLevel: nat) returns (result: string)
    requires Spans(found, |text|)
    ensures result == Masked(text, found, minLevel)
  {
    hide Progress, Masked, Ordered, Sort, Detect, Before;
    result := text;
    var offset: int := 0;
    var matches := Arranged(found);
    var lastEnd: nat := 0;
    ghost var done := "";
    ProgressStarts(text, found, minLevel);
    for i := 0 to |matches|
      invariant Progress(text, found, minLevel, i, lastEnd, done, result)
      invariant |done| == lastEnd + offset
      invariant |result| == |text| + offset
    {
      var m := matches[i];
      if m.start < lastEnd {
        ProgressSkips(text, found, minLevel, i, lastEnd, done, result);
        continue;
      }
      if m.level > minLevel {
        ProgressKeeps(text, found, minLevel, i, lastEnd, done, result, m);
        done := done + text[lastEnd..m.start] + text[m.start..m.end];
        lastEnd := m.end;
        continue;
      }
      ProgressReplaces(text, found, minLevel, i, lastEnd, done, result, m);
      done := done + text[lastEnd..m.start] + m.token;
      lastEnd := m.end;
      var start := m.start + offset;
      var end := m.end + offset;
      result := result[..start] + m.token + result[end..];
      offset := offset + |m.token| - (m.end - m.start);
    }
    ProgressEnds(text, found, minLevel, lastEnd, done, result);
  }
}

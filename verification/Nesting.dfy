/** Exactly which texts come out of scrubbing clean, by how delimiters are nested in them. */
module Nesting {
  import opened JsonValues
  import opened Prompts

  // ---------------------------------------------------------- the delimiters

  /** Three opening brackets, none after them, and the same at the end. */
  predicate Bracketed(d: string) {
    && |d| >= 7
    && (forall i | 0 <= i < |d| :: d[i] == '<' <==> i < 3)
    && (forall i | 0 <= i < |d| :: d[i] == '>' <==> |d| - 3 <= i)
  }

  lemma CharAt(s: string, i: nat, d: string, x: nat)
    requires MatchesAt(s, i, d) && x < |d|
    ensures i + x < |s| && s[i + x] == d[x]
  {
    assert s[i..i + |d|][x] == s[i + x];
  }

  /** Delimiters in a text do not overlap. */
  lemma NoOverlap(s: string, p: nat, d: string, q: nat, e: string)
    requires Bracketed(d) && Bracketed(e) && MatchesAt(s, p, d) && MatchesAt(s, q, e) && p <= q < p + |d|
    ensures p == q && d == e
  {
    hide MatchesAt;
    CharAt(s, q, e, 0);
    CharAt(s, p, d, q - p);
    CharAt(s, p, d, 3);
    CharAt(s, q, e, 3 - (q - p));
    SameEnd(s, p, d, e);
    forall x | 0 <= x < |d| ensures d[x] == e[x] {
      CharAt(s, p, d, x);
      CharAt(s, p, e, x);
    }
  }

  lemma SameEnd(s: string, p: nat, d: string, e: string)
    requires Bracketed(d) && Bracketed(e) && MatchesAt(s, p, d) && MatchesAt(s, p, e)
    ensures |d| == |e|
  {
    hide MatchesAt;
    CharAt(s, p, d, |d| - 3);
    CharAt(s, p, e, |e| - 3);
    if |d| < |e| { CharAt(s, p, e, |d| - 3); }
    if |e| < |d| { CharAt(s, p, d, |e| - 3); }
  }

  /** Bracketed delimiters, all different. */
  ghost predicate Proper(delims: seq<Delimiter>) {
    && (forall i | 0 <= i < |delims| :: Bracketed(delims[i]))
    && (forall i, j | 0 <= i < |delims| && 0 <= j < |delims| && delims[i] == delims[j] :: i == j)
  }

  /** The delimiters of the prompts are of that form. */
  lemma DelimitersAreProper()
    ensures Proper(DELIMITERS)
  {
    hide Bracketed;
    PayloadIsBracketed();
    EndPayloadIsBracketed();
    ExtractionIsBracketed();
    EndExtractionIsBracketed();
    var all := DELIMITERS;
    assert |all[0]| == 13 && |all[1]| == 17 && |all[2]| == 16 && |all[3]| == 20;
  }

  lemma PayloadIsBracketed()
    ensures Bracketed("<<<PAYLOAD>>>")
  {
  }

  lemma EndPayloadIsBracketed()
    ensures Bracketed("<<<END_PAYLOAD>>>")
  {
  }

  lemma ExtractionIsBracketed()
    ensures Bracketed("<<<EXTRACTION>>>")
  {
  }

  lemma EndExtractionIsBracketed()
    ensures Bracketed("<<<END_EXTRACTION>>>")
  {
  }

  // -------------------------------------------------------------- the condition

  /** A character, and the last of the delimiters taken out right before it; -1 if none was. */
  datatype Cell = Cell(letter: char, gap: int)

  function Plain(s: string): seq<Cell> { seq(|s|, i requires 0 <= i < |s| => Cell(s[i], -1)) }

  function Text(t: seq<Cell>): (s: string)
    ensures |s| == |t|
  {
    seq(|t|, i requires 0 <= i < |t| => t[i].letter)
  }

  function Max(a: int, b: int): int { if a < b then b else a }

  /** Between these cells only delimiters before the i-th were taken out. */
  predicate Below(t: seq<Cell>, from: nat, to: nat, i: int) {
    forall k | from <= k < to && k < |t| :: t[k].gap < i
  }

  predicate Ends(s: string, d: string) { |d| <= |s| && MatchesAt(s, |s| - |d|, d) }

  /** The delimiter that this text ends with. */
  function Completed(delims: seq<Delimiter>, s: string): (r: Option<nat>)
    ensures r.Some? ==> r.value < |delims| && Ends(s, delims[r.value])
    ensures r.None? ==> forall i | 0 <= i < |delims| :: !Ends(s, delims[i])
  {
    if delims == [] then None
    else
      var last := |delims| - 1;
      var earlier := Completed(delims[..last], s);
      if earlier.Some? then earlier else if Ends(s, delims[last]) then Some(last) else None
  }

  /** What is read and not taken out, and the gap that the next character comes after. */
  datatype Reading = Reading(stack: seq<Cell>, gap: int)

  const START := Reading([], -1)

  /** Read one character. A delimiter it completes is taken out, also around what has been taken
      out already; None if it is completed directly around itself or a later one. */
  function Read(delims: seq<Delimiter>, r: Reading, c: Cell): Option<Reading> {
    var pushed := r.stack + [Cell(c.letter, Max(r.gap, c.gap))];
    match Completed(delims, Text(pushed))
    case None => Some(Reading(pushed, -1))
    case Some(i) =>
      var from := |pushed| - |delims[i]|;
      if Below(pushed, from + 1, |pushed|, i) then Some(Reading(pushed[..from], Max(pushed[from].gap, i))) else None
  }

  predicate InOrder(delims: seq<Delimiter>, r: Reading, t: seq<Cell>)
    decreases |t|
  {
    t == [] || (Read(delims, r, t[0]).Some? && InOrder(delims, Read(delims, r, t[0]).value, t[1..]))
  }

  /** The delimiters that nest in s do so in the order in which they are removed. */
  predicate NestsInOrder(s: string, delims: seq<Delimiter>) { InOrder(delims, START, Plain(s)) }

  // ------------------------------------------------------- reading one delimiter

  /** A text that ends in a proper head of a delimiter ends with no delimiter. */
  lemma HeadCompletesNothing(u: string, d: string, x: nat, e: string)
    requires Bracketed(d) && Bracketed(e) && 0 < x < |d|
    ensures !Ends(u + d[..x], e)
  {
    hide MatchesAt;
    var s := u + d[..x];
    if Ends(s, e) {
      CharAt(s, |s| - |e|, e, |e| - 1);
      CharAt(s, |s| - |e|, e, |e| - 2);
      CharAt(s, |s| - |e|, e, |e| - 3);
    }
  }

  /** A text ends with at most one delimiter. */
  lemma OneCompleted(delims: seq<Delimiter>, s: string, i: nat)
    requires Proper(delims) && i < |delims| && Ends(s, delims[i])
    ensures Completed(delims, s) == Some(i)
  {
    hide MatchesAt, Bracketed;
    var r := Completed(delims, s).value;
    var d, e := delims[i], delims[r];
    if |d| <= |e| { NoOverlap(s, |s| - |e|, e, |s| - |d|, d); } else { NoOverlap(s, |s| - |d|, d, |s| - |e|, e); }
  }

  /** The stack after x characters of what stands at `from`. */
  function Pushed(r: Reading, t: seq<Cell>, from: nat, x: nat): seq<Cell>
    requires 0 < x && from + x <= |t|
  {
    r.stack + [Cell(t[from].letter, Max(r.gap, t[from].gap))] + t[from + 1..from + x]
  }

  lemma PushedText(r: Reading, t: seq<Cell>, from: nat, x: nat, d: string)
    requires MatchesAt(Text(t), from, d) && 0 < x <= |d|
    ensures from + |d| <= |t| && Text(Pushed(r, t, from, x)) == Text(r.stack) + d[..x]
  {
    forall k | 0 <= k < |d| ensures t[from + k].letter == d[k] { CharAt(Text(t), from, d, k); }
  }

  lemma NextPushed(r: Reading, t: seq<Cell>, from: nat, x: nat)
    requires 1 < x && from + x <= |t| && t[from + (x - 1)].gap >= -1
    ensures var c := t[from + (x - 1)];
      Pushed(r, t, from, x) == Pushed(r, t, from, x - 1) + [Cell(c.letter, Max(-1, c.gap))]
    ensures t[from + (x - 1)..][1..] == t[from + x..]
  {
  }

  /** A head of a delimiter is just pushed. */
  lemma {:induction false} HeadIsPushed(delims: seq<Delimiter>, r: Reading, t: seq<Cell>, from: nat, j: nat, x: nat)
    requires Proper(delims) && j < |delims| && MatchesAt(Text(t), from, delims[j]) && 0 < x < |delims[j]|
    requires forall k | 0 <= k < |t| :: t[k].gap >= -1
    ensures from + x <= |t|
    ensures InOrder(delims, r, t[from..]) == InOrder(delims, Reading(Pushed(r, t, from, x), -1), t[from + x..])
  {
    hide MatchesAt, Bracketed, Text, Ends, Pushed;
    var d := delims[j];
    PushedText(r, t, from, x, d);
    forall i | 0 <= i < |delims| ensures !Ends(Text(r.stack) + d[..x], delims[i]) {
      HeadCompletesNothing(Text(r.stack), d, x, delims[i]);
    }
    if x == 1 {
      FirstPushed(r, t, from);
      assert t[from..][1..] == t[from + 1..];
    } else {
      HeadIsPushed(delims, r, t, from, j, x - 1);
      NextPushed(r, t, from, x);
    }
  }

  lemma FirstPushed(r: Reading, t: seq<Cell>, from: nat)
    requires from < |t|
    ensures Pushed(r, t, from, 1) == r.stack + [Cell(t[from].letter, Max(r.gap, t[from].gap))]
  {
  }

  lemma PushedShape(r: Reading, t: seq<Cell>, from: nat, x: nat, j: int)
    requires 0 < x && from + x <= |t| && forall k | 0 <= k < |t| :: t[k].gap < j
    ensures var p := Pushed(r, t, from, x);
      && |p| == |r.stack| + x && p[..|r.stack|] == r.stack && p[|r.stack|].gap == Max(r.gap, t[from].gap)
      && Below(p, |r.stack| + 1, |p|, j)
  {
  }

  /** The last character completes the delimiter, which is taken out. */
  lemma LastIsRead(delims: seq<Delimiter>, r: Reading, t: seq<Cell>, from: nat, j: nat)
    requires Proper(delims) && j < |delims| && MatchesAt(Text(t), from, delims[j]) && |delims[j]| > 1
    requires forall k | 0 <= k < |t| :: -1 <= t[k].gap < j
    ensures from + |delims[j]| <= |t|
    ensures var n := |delims[j]|;
      Read(delims, Reading(Pushed(r, t, from, n - 1), -1), t[from + (n - 1)])
        == Some(Reading(r.stack, Max(Max(r.gap, t[from].gap), j)))
  {
    hide MatchesAt, Proper, Text, Completed, Pushed, Below, Ends;
    var d := delims[j];
    PushedText(r, t, from, |d|, d);
    NextPushed(r, t, from, |d|);
    PushedShape(r, t, from, |d|, j);
    assert d[..|d|] == d;
    EndsWith(Text(r.stack), d);
    OneCompleted(delims, Text(Pushed(r, t, from, |d|)), j);
  }

  /** A delimiter is read in one go, and leaves its index in the gap. */
  lemma DelimiterIsRead(delims: seq<Delimiter>, r: Reading, t: seq<Cell>, from: nat, j: nat)
    requires Proper(delims) && j < |delims| && MatchesAt(Text(t), from, delims[j])
    requires forall k | 0 <= k < |t| :: -1 <= t[k].gap < j
    ensures from + |delims[j]| <= |t|
    ensures InOrder(delims, r, t[from..])
        == InOrder(delims, Reading(r.stack, Max(Max(r.gap, t[from].gap), j)), t[from + |delims[j]|..])
  {
    hide MatchesAt, Proper, Text, Read, Pushed;
    var n := |delims[j]|;
    ProperIsBracketed(delims, j);
    LastIsRead(delims, r, t, from, j);
    HeadIsPushed(delims, r, t, from, j, n - 1);
    assert t[from + (n - 1)..][1..] == t[from + n..];
  }

  lemma ProperIsBracketed(delims: seq<Delimiter>, j: nat)
    requires Proper(delims) && j < |delims|
    ensures |delims[j]| >= 7
  {
  }

  lemma EndsWith(u: string, d: string)
    ensures Ends(u + d, d)
  {
  }

  // ------------------------------------------------------------------ one pass

  /** `Removed`, with a note of the pass in the gaps it makes. */
  function Cut(t: seq<Cell>, d: Delimiter, j: int, from: nat, gap: int): seq<Cell>
    requires from <= |t|
    decreases |t| - from
  {
    if from == |t| then []
    else if MatchesAt(Text(t), from, d) then Cut(t, d, j, from + |d|, Max(Max(gap, t[from].gap), j))
    else [Cell(t[from].letter, Max(gap, t[from].gap))] + Cut(t, d, j, from + 1, -1)
  }

  lemma {:induction false} CutIsRemoved(t: seq<Cell>, d: Delimiter, j: int, from: nat, gap: int)
    requires from <= |t|
    ensures Text(Cut(t, d, j, from, gap)) == Removed(Text(t), d, from)
    decreases |t| - from
  {
    if from < |t| {
      if MatchesAt(Text(t), from, d) { CutIsRemoved(t, d, j, from + |d|, Max(Max(gap, t[from].gap), j)); }
      else { CutIsRemoved(t, d, j, from + 1, -1); }
    }
  }

  predicate FromMinusOne(r: Reading) { r.gap >= -1 && forall k | 0 <= k < |r.stack| :: r.stack[k].gap >= -1 }

  /** Where a gap is noted does not matter. */
  lemma ReadGap(delims: seq<Delimiter>, r: Reading, q: int, c: Cell)
    requires FromMinusOne(r) && q >= -1 && c.gap >= -1
    ensures var next := Read(delims, r, Cell(c.letter, Max(q, c.gap)));
      && Read(delims, Reading(r.stack, Max(r.gap, q)), c) == next
      && (next.Some? ==> FromMinusOne(next.value))
  {
    hide Completed, Below, Text;
    assert Max(Max(r.gap, q), c.gap) == Max(r.gap, Max(q, c.gap));
  }

  /** A pass does not change whether the nesting is in order. */
  lemma {:induction false} CutKeepsOrder(delims: seq<Delimiter>, r: Reading, t: seq<Cell>, j: nat, from: nat, q: int)
    requires Proper(delims) && j < |delims| && from <= |t| && FromMinusOne(r) && q >= -1
    requires forall k | 0 <= k < |t| :: -1 <= t[k].gap < j
    ensures InOrder(delims, Reading(r.stack, Max(r.gap, q)), t[from..]) == InOrder(delims, r, Cut(t, delims[j], j, from, q))
    decreases |t| - from
  {
    hide Proper, Text, Read, FromMinusOne, MatchesAt;
    var d := delims[j];
    if from < |t| {
      if MatchesAt(Text(t), from, d) {
        DelimiterIsRead(delims, Reading(r.stack, Max(r.gap, q)), t, from, j);
        CutKeepsOrder(delims, r, t, j, from + |d|, Max(Max(q, t[from].gap), j));
      } else {
        var cell, rest := Cell(t[from].letter, Max(q, t[from].gap)), Cut(t, d, j, from + 1, -1);
        assert t[from..][1..] == t[from + 1..] && ([cell] + rest)[1..] == rest;
        ReadGap(delims, r, q, t[from]);
        var next := Read(delims, r, cell);
        if next.Some? {
          GapStays(next.value);
          CutKeepsOrder(delims, next.value, t, j, from + 1, -1);
        }
      }
    }
  }

  lemma GapStays(r: Reading)
    requires FromMinusOne(r)
    ensures Reading(r.stack, Max(r.gap, -1)) == r
  {
  }

  /** What n passes have established: a delimiter of theirs that still stands, or stands again,
      was completed by a pass not before its own. */
  ghost predicate Settled(t: seq<Cell>, delims: seq<Delimiter>, n: nat) {
    && (forall k | 0 <= k < |t| :: -1 <= t[k].gap < n)
    && (forall i: nat, q: nat | i < n && i < |delims| && MatchesAt(Text(t), q, delims[i]) ::
          !Below(t, q + 1, q + |delims[i]|, i))
  }

  /** The first cell after a gap has noted it. */
  lemma {:induction false} GapIsNoted(t: seq<Cell>, d: Delimiter, j: int, from: nat, gap: int)
    requires from <= |t|
    ensures var r := Cut(t, d, j, from, gap); r != [] ==> r[0].gap >= gap
    decreases |t| - from
  {
    if from < |t| && MatchesAt(Text(t), from, d) { GapIsNoted(t, d, j, from + |d|, Max(Max(gap, t[from].gap), j)); }
  }

  /** Where this pass has noted nothing, it has cut nothing. */
  lemma {:induction false} NothingNoted(t: seq<Cell>, d: Delimiter, j: nat, from: nat, m: nat)
    requires from <= |t| && forall k | 0 <= k < |t| :: t[k].gap >= -1
    requires m <= |Cut(t, d, j, from, -1)| && Below(Cut(t, d, j, from, -1), 0, m, j)
    ensures from + m <= |t| && Cut(t, d, j, from, -1)[..m] == t[from..from + m]
    decreases m
  {
    if m > 0 {
      var r := Cut(t, d, j, from, -1);
      assert r[0].gap < j;
      if MatchesAt(Text(t), from, d) {
        GapIsNoted(t, d, j, from + |d|, Max(Max(-1, t[from].gap), j));
      } else {
        var rest := Cut(t, d, j, from + 1, -1);
        assert r == [t[from]] + rest;
        forall k | 0 <= k < m - 1 ensures rest[k].gap < j { assert r[k + 1] == rest[k]; }
        NothingNoted(t, d, j, from + 1, m - 1);
        assert r[..m] == [t[from]] + rest[..m - 1];
      }
    }
  }

  lemma {:induction false} GapsAfterCut(t: seq<Cell>, d: Delimiter, j: nat, from: nat, gap: int)
    requires from <= |t| && -1 <= gap <= j && forall k | 0 <= k < |t| :: -1 <= t[k].gap < j
    ensures forall k | 0 <= k < |Cut(t, d, j, from, gap)| :: -1 <= Cut(t, d, j, from, gap)[k].gap <= j
    decreases |t| - from
  {
    if from < |t| {
      if MatchesAt(Text(t), from, d) { GapsAfterCut(t, d, j, from + |d|, Max(Max(gap, t[from].gap), j)); }
      else { GapsAfterCut(t, d, j, from + 1, -1); }
    }
  }

  /** Cells that a pass has left together look as before. */
  lemma SameCells(t: seq<Cell>, r: seq<Cell>, from: nat, d: Delimiter, i: int)
    requires |d| <= |r| && from + |d| <= |t|
    requires r[0].letter == t[from].letter && r[1..|d|] == t[from + 1..from + |d|]
    ensures MatchesAt(Text(r), 0, d) ==> MatchesAt(Text(t), from, d)
    ensures Below(r, 1, |d|, i) ==> Below(t, from + 1, from + |d|, i)
  {
    assert forall k | 1 <= k < |d| :: r[k] == t[from + 1..from + |d|][k - 1] == t[from + k];
    assert Text(r)[0..|d|] == Text(t)[from..from + |d|];
    forall k | from + 1 <= k < from + |d| && Below(r, 1, |d|, i) ensures t[k].gap < i { assert r[k - from].gap < i; }
  }

  /** A delimiter at the head of what is left after the pass was there before, or was completed
      by this pass. */
  lemma HeadIsSettled(t: seq<Cell>, delims: seq<Delimiter>, n: nat, from: nat, q: int, i: nat)
    requires n < |delims| && Settled(t, delims, n) && from < |t| && !MatchesAt(Text(t), from, delims[n]) && i <= n
    requires var r := Cut(t, delims[n], n, from, q); MatchesAt(Text(r), 0, delims[i])
    ensures !Below(Cut(t, delims[n], n, from, q), 1, |delims[i]|, i)
  {
    hide MatchesAt;
    var d := delims[i];
    var r, rest := Cut(t, delims[n], n, from, q), Cut(t, delims[n], n, from + 1, -1);
    assert r == [r[0]] + rest && r[0].letter == t[from].letter;
    MatchFits(Text(r), 0, d);
    if Below(r, 1, |d|, i) {
      forall k | 0 <= k < |d| - 1 ensures rest[k].gap < n { assert r[k + 1] == rest[k]; }
      NothingNoted(t, delims[n], n, from + 1, |d| - 1);
      assert r[1..|d|] == rest[..|d| - 1];
      SameCells(t, r, from, d, i);
    }
  }

  lemma {:induction false} CutSettles(t: seq<Cell>, delims: seq<Delimiter>, n: nat, from: nat, q: int, i: nat, at: nat)
    requires n < |delims| && Settled(t, delims, n) && from <= |t| && i <= n
    requires var r := Cut(t, delims[n], n, from, q); MatchesAt(Text(r), at, delims[i])
    ensures !Below(Cut(t, delims[n], n, from, q), at + 1, at + |delims[i]|, i)
    decreases |t| - from
  {
    hide Settled;
    var d := delims[n];
    var r := Cut(t, d, n, from, q);
    if from < |t| {
      if MatchesAt(Text(t), from, d) {
        CutSettles(t, delims, n, from + |d|, Max(Max(q, t[from].gap), n), i, at);
      } else if at == 0 {
        HeadIsSettled(t, delims, n, from, q, i);
      } else {
        var rest := Cut(t, d, n, from + 1, -1);
        MatchMovesDown(r, rest, at, delims[i]);
        CutSettles(t, delims, n, from + 1, -1, i, at - 1);
        var k :| at <= k < at - 1 + |delims[i]| && k < |rest| && rest[k].gap >= i;
        assert r[k + 1] == rest[k];
      }
    }
  }

  lemma MatchMovesDown(r: seq<Cell>, rest: seq<Cell>, at: nat, d: string)
    requires r != [] && r[1..] == rest && at > 0 && MatchesAt(Text(r), at, d)
    ensures MatchesAt(Text(rest), at - 1, d)
  {
    assert Text(rest) == Text(r)[1..];
    assert Text(rest)[at - 1..at - 1 + |d|] == Text(r)[at..at + |d|];
  }

  lemma PassSettles(t: seq<Cell>, delims: seq<Delimiter>, n: nat)
    requires n < |delims| && Settled(t, delims, n)
    ensures Settled(Cut(t, delims[n], n, 0, -1), delims, n + 1)
  {
    hide MatchesAt;
    var r := Cut(t, delims[n], n, 0, -1);
    GapsAfterCut(t, delims[n], n, 0, -1);
    forall i: nat, q: nat | i < n + 1 && i < |delims| && MatchesAt(Text(r), q, delims[i])
      ensures !Below(r, q + 1, q + |delims[i]|, i)
    {
      CutSettles(t, delims, n, 0, -1, i, q);
    }
  }

  // ---------------------------------------------------------------- all passes

  function CutAll(s: string, delims: seq<Delimiter>, n: nat): seq<Cell>
    requires n <= |delims|
  {
    if n == 0 then Plain(s) else Cut(CutAll(s, delims, n - 1), delims[n - 1], n - 1, 0, -1)
  }

  lemma {:induction false} PassesKeepOrder(s: string, delims: seq<Delimiter>, n: nat)
    requires Proper(delims) && n <= |delims|
    ensures Settled(CutAll(s, delims, n), delims, n) && Text(CutAll(s, delims, n)) == Scrub(s, delims[..n])
    ensures InOrder(delims, START, CutAll(s, delims, n)) == NestsInOrder(s, delims)
  {
    hide Proper, Settled, InOrder, MatchesAt;
    if n == 0 {
      NothingCutYet(s, delims);
    } else {
      PassesKeepOrder(s, delims, n - 1);
      var t := CutAll(s, delims, n - 1);
      PassSettles(t, delims, n - 1);
      CutIsRemoved(t, delims[n - 1], n - 1, 0, -1);
      assert delims[..n][..n - 1] == delims[..n - 1];
      assert t[0..] == t;
      SettledGaps(t, delims, n - 1);
      CutKeepsOrder(delims, START, t, n - 1, 0, -1);
    }
  }

  lemma NothingCutYet(s: string, delims: seq<Delimiter>)
    ensures Settled(Plain(s), delims, 0) && Text(Plain(s)) == s
  {
  }

  lemma SettledGaps(t: seq<Cell>, delims: seq<Delimiter>, n: nat)
    requires Settled(t, delims, n)
    ensures forall k | 0 <= k < |t| :: -1 <= t[k].gap < n
  {
  }

  /** After the last pass, the nesting is in order exactly if no delimiter is left. */
  lemma {:induction false} NothingLeft(delims: seq<Delimiter>, t: seq<Cell>, n: nat)
    requires Settled(t, delims, |delims|) && n <= |t|
    requires forall i: nat, q: nat | i < |delims| && MatchesAt(Text(t), q, delims[i]) :: q + |delims[i]| > n
    ensures InOrder(delims, Reading(t[..n], -1), t[n..]) <==> Clean(Text(t), delims)
    decreases |t| - n
  {
    hide MatchesAt, Below;
    if n == |t| {
      forall i: nat, q: nat | i < |delims| ensures !MatchesAt(Text(t), q, delims[i]) {
        if MatchesAt(Text(t), q, delims[i]) { MatchFits(Text(t), q, delims[i]); }
      }
    } else {
      var pushed := t[..n + 1];
      assert pushed == t[..n] + [Cell(t[n].letter, Max(-1, t[n].gap))];
      assert Text(pushed) == Text(t)[..n + 1] && t[n..][1..] == t[n + 1..];
      match Completed(delims, Text(pushed))
      case Some(i) =>
        EndsInside(Text(t), n + 1, delims[i]);
        BelowInside(t, n + 1, n + 1 - |delims[i]| + 1, i);
        assert Contains(Text(t), delims[i]);
      case None =>
        forall i: nat, q: nat | i < |delims| && MatchesAt(Text(t), q, delims[i]) ensures q + |delims[i]| > n + 1 {
          if q + |delims[i]| == n + 1 { EndsInside(Text(t), n + 1, delims[i]); }
        }
        NothingLeft(delims, t, n + 1);
    }
  }

  lemma EndsInside(s: string, n: nat, d: string)
    requires n <= |s|
    ensures Ends(s[..n], d) <==> |d| <= n && MatchesAt(s, n - |d|, d)
  {
    if |d| <= n { assert s[..n][n - |d|..] == s[n - |d|..n]; }
  }

  lemma BelowInside(t: seq<Cell>, n: nat, from: nat, i: nat)
    requires n <= |t|
    ensures Below(t[..n], from, n, i) == Below(t, from, n, i)
  {
  }

  /** Exactly the texts come out clean in which delimiters nest in the order of removal: no
      delimiter is completed directly around itself or around a later one. */
  lemma ComesOutCleanIff(s: string, delims: seq<Delimiter>)
    requires Proper(delims)
    ensures Clean(Scrub(s, delims), delims) <==> NestsInOrder(s, delims)
  {
    hide Proper, Settled, InOrder, MatchesAt, Scrub;
    var t := CutAll(s, delims, |delims|);
    PassesKeepOrder(s, delims, |delims|);
    assert delims[..|delims|] == delims;
    assert t[..0] == [] && t[0..] == t;
    NothingLeft(delims, t, 0);
  }

  /** In every string value of the payload the delimiters nest in order. */
  ghost predicate PayloadInOrder(value: Json) {
    forall path | At(value, path).Some? && At(value, path).value.Str? ::
      NestsInOrder(At(value, path).value.s, DELIMITERS)
  }

  /** Exactly which payloads come out of `_scrub_payload` clean. */
  lemma PayloadComesOutCleanIff(value: Json)
    ensures CleanPayload(ScrubPayload(value)) <==> PayloadInOrder(value)
  {
    hide Clean, Scrub, NestsInOrder, Proper;
    DelimitersAreProper();
    if CleanPayload(ScrubPayload(value)) {
      forall path | At(value, path).Some? && At(value, path).value.Str?
        ensures NestsInOrder(At(value, path).value.s, DELIMITERS)
      {
        ScrubbedAt(value, path);
        ComesOutCleanIff(At(value, path).value.s, DELIMITERS);
      }
    }
    if PayloadInOrder(value) {
      forall path | At(ScrubPayload(value), path).Some? && At(ScrubPayload(value), path).value.Str?
        ensures Clean(At(ScrubPayload(value), path).value.s, DELIMITERS)
      {
        ScrubbedAt(value, path);
        ComesOutCleanIff(At(value, path).value.s, DELIMITERS);
      }
    }
  }

  // ---------------------------------------------------------- a simple condition

  /** Every '<' of the text belongs to a delimiter. */
  ghost predicate OwnedBrackets(s: string, delims: seq<Delimiter>) {
    forall p: nat | p < |s| && s[p] == '<' :: InDelimiter(s, delims, p)
  }

  ghost predicate InDelimiter(s: string, delims: seq<Delimiter>, p: nat) {
    exists q: nat, e | e in delims && q <= p < q + |e| :: MatchesAt(s, q, e)
  }

  predicate NoOpening(r: Reading) { forall k | 0 <= k < |r.stack| :: r.stack[k].letter != '<' }

  /** Where no bracket is open, nothing is completed. */
  lemma NothingOpen(delims: seq<Delimiter>, r: Reading, c: Cell)
    requires Proper(delims) && NoOpening(r) && c.letter != '<'
    ensures Read(delims, r, c).Some? && NoOpening(Read(delims, r, c).value)
  {
    hide MatchesAt;
    var pushed := r.stack + [Cell(c.letter, Max(r.gap, c.gap))];
    forall i | 0 <= i < |delims| ensures !Ends(Text(pushed), delims[i]) {
      if Ends(Text(pushed), delims[i]) { CharAt(Text(pushed), |pushed| - |delims[i]|, delims[i], 0); }
    }
  }

  /** No delimiter of s starts before this position and ends after it. */
  ghost predicate Between(s: string, delims: seq<Delimiter>, from: nat) {
    forall q: nat, e | e in delims && MatchesAt(s, q, e) :: from <= q || q + |e| <= from
  }

  lemma {:induction false} OwnedIsInOrder(s: string, delims: seq<Delimiter>, r: Reading, from: nat)
    requires Proper(delims) && OwnedBrackets(s, delims) && NoOpening(r) && from <= |s| && Between(s, delims, from)
    ensures InOrder(delims, r, Plain(s)[from..])
    decreases |s| - from
  {
    hide Proper, MatchesAt, Read, NoOpening;
    var t := Plain(s);
    assert Text(t) == s;
    if j: nat :| j < |delims| && MatchesAt(s, from, delims[j]) {
      DelimiterIsRead(delims, r, t, from, j);
      AfterMatch(s, delims, from, j);
      var next := Reading(r.stack, Max(Max(r.gap, t[from].gap), j));
      assert NoOpening(next) by { SameStack(r, next); }
      OwnedIsInOrder(s, delims, next, from + |delims[j]|);
    } else if from < |s| {
      NoneStarts(s, delims, from);
      NothingOpen(delims, r, t[from]);
      OwnedIsInOrder(s, delims, Read(delims, r, t[from]).value, from + 1);
      assert t[from..][1..] == t[from + 1..];
    }
  }

  lemma SameStack(r: Reading, next: Reading)
    requires NoOpening(r) && next.stack == r.stack
    ensures NoOpening(next)
  {
  }

  lemma AfterMatch(s: string, delims: seq<Delimiter>, from: nat, j: nat)
    requires Proper(delims) && Between(s, delims, from) && j < |delims| && MatchesAt(s, from, delims[j])
    ensures from + |delims[j]| <= |s| && Between(s, delims, from + |delims[j]|)
  {
    hide MatchesAt, Bracketed;
    MatchFits(s, from, delims[j]);
    forall q: nat, e | e in delims && MatchesAt(s, q, e) ensures from + |delims[j]| <= q || q + |e| <= from + |delims[j]| {
      if from <= q < from + |delims[j]| { NoOverlap(s, from, delims[j], q, e); }
    }
  }

  lemma NoneStarts(s: string, delims: seq<Delimiter>, from: nat)
    requires OwnedBrackets(s, delims) && Between(s, delims, from) && from < |s|
    requires forall j: nat | j < |delims| :: !MatchesAt(s, from, delims[j])
    ensures s[from] != '<' && Between(s, delims, from + 1)
  {
    hide MatchesAt;
  }

  /** A text in which every '<' belongs to a delimiter comes out clean. */
  lemma OwnedBracketsComeOutClean(s: string, delims: seq<Delimiter>)
    requires Proper(delims) && OwnedBrackets(s, delims)
    ensures Clean(Scrub(s, delims), delims)
  {
    hide Proper, OwnedBrackets, Scrub, MatchesAt;
    OwnedIsInOrder(s, delims, START, 0);
    assert Plain(s)[0..] == Plain(s);
    ComesOutCleanIff(s, delims);
  }
}

/** Removing the prompts' own delimiters from vendor text, lifted over a JSON tree. */
module Prompts {
  import opened JsonValues

  type Delimiter = d: string | d != "" witness "<<<PAYLOAD>>>"

  /** The classifier's and the verifier's markers, in the order they are removed. */
  const DELIMITERS: seq<Delimiter> :=
    ["<<<PAYLOAD>>>", "<<<END_PAYLOAD>>>", "<<<EXTRACTION>>>", "<<<END_EXTRACTION>>>"]

  predicate MatchesAt(s: string, i: nat, d: string) { i + |d| <= |s| && s[i..i + |d|] == d }

  ghost predicate Contains(s: string, d: string) { exists i: nat :: MatchesAt(s, i, d) }

  ghost predicate Clean(s: string, delims: seq<Delimiter>) { forall d | d in delims :: !Contains(s, d) }

  /** `s.replace(d, "")` from position `from` on: matches are found left to right and do not
      overlap. */
  function Removed(s: string, d: Delimiter, from: nat): string
    requires from <= |s|
    decreases |s| - from
  {
    if from == |s| then ""
    else if MatchesAt(s, from, d) then Removed(s, d, from + |d|)
    else [s[from]] + Removed(s, d, from + 1)
  }

  /** The positions that survive. */
  function Kept(s: string, d: Delimiter, from: nat): seq<nat>
    requires from <= |s|
    decreases |s| - from
  {
    if from == |s| then []
    else if MatchesAt(s, from, d) then Kept(s, d, from + |d|)
    else [from] + Kept(s, d, from + 1)
  }

  /** `_scrub_delimiters`: one pass per delimiter. */
  function Scrub(s: string, delims: seq<Delimiter>): string
  {
    if delims == [] then s
    else Removed(Scrub(s, delims[..|delims| - 1]), delims[|delims| - 1], 0)
  }

  /** Strictly increasing positions within a text of length n. */
  predicate Positions(kept: seq<nat>, n: nat) {
    && (forall i | 0 <= i < |kept| :: kept[i] < n)
    && (forall i, j | 0 <= i < j < |kept| :: kept[i] < kept[j])
  }

  lemma {:induction false} KeptPositions(s: string, d: Delimiter, from: nat)
    requires from <= |s|
    ensures Positions(Kept(s, d, from), |s|)
    ensures forall i | 0 <= i < |Kept(s, d, from)| ::
      from <= Kept(s, d, from)[i] && !MatchesAt(s, Kept(s, d, from)[i], d)
    decreases |s| - from
  {
    if from < |s| { KeptPositions(s, d, if MatchesAt(s, from, d) then from + |d| else from + 1); }
  }

  lemma {:induction false} RemovedKeeps(s: string, d: Delimiter, from: nat)
    requires from <= |s|
    ensures |Kept(s, d, from)| == |Removed(s, d, from)|
    ensures forall i | 0 <= i < |Kept(s, d, from)| ::
      Kept(s, d, from)[i] < |s| && Removed(s, d, from)[i] == s[Kept(s, d, from)[i]]
    decreases |s| - from
  {
    if from < |s| { RemovedKeeps(s, d, if MatchesAt(s, from, d) then from + |d| else from + 1); }
  }

  /** The positions of the original that survive all passes. */
  function KeptByAll(s: string, delims: seq<Delimiter>): seq<nat>
  {
    if delims == [] then seq(|s|, i => i)
    else
      var earlier := delims[..|delims| - 1];
      Through(KeptByAll(s, earlier), Kept(Scrub(s, earlier), delims[|delims| - 1], 0))
  }

  function Through(outer: seq<nat>, inner: seq<nat>): seq<nat> {
    seq(|inner|, i requires 0 <= i < |inner| => if inner[i] < |outer| then outer[inner[i]] else 0)
  }

  lemma ThroughPositions(outer: seq<nat>, inner: seq<nat>, n: nat)
    requires Positions(outer, n) && Positions(inner, |outer|)
    ensures Positions(Through(outer, inner), n)
  {
  }

  /** Scrubbing only deletes: the result is the original at increasing positions. */
  lemma {:induction false} ScrubOnlyDeletes(s: string, delims: seq<Delimiter>)
    ensures var kept := KeptByAll(s, delims);
      && Positions(kept, |s|) && |kept| == |Scrub(s, delims)|
      && forall i | 0 <= i < |kept| :: Scrub(s, delims)[i] == s[kept[i]]
  {
    if delims != [] {
      var earlier := delims[..|delims| - 1];
      var u := Scrub(s, earlier);
      ScrubOnlyDeletes(s, earlier);
      KeptPositions(u, delims[|delims| - 1], 0);
      RemovedKeeps(u, delims[|delims| - 1], 0);
      ThroughPositions(KeptByAll(s, earlier), Kept(u, delims[|delims| - 1], 0), |s|);
    }
  }

  /** n consecutive entries that are neighbours in the original too. */
  predicate Contiguous(kept: seq<nat>, i: nat, n: nat) {
    i + n <= |kept| && forall j | i <= j < i + n :: kept[j] == kept[i] + (j - i)
  }

  lemma {:induction false} PositionsSpread(kept: seq<nat>, n: nat, a: nat, b: nat)
    requires Positions(kept, n) && a <= b < |kept|
    ensures kept[b] - kept[a] >= b - a
  {
    if a < b { PositionsSpread(kept, n, a, b - 1); }
  }

  /** Neighbours through two selections are neighbours in each. */
  lemma {:induction false} ContiguousInner(outer: seq<nat>, inner: seq<nat>, n: nat, i: nat, m: nat)
    requires Positions(outer, n) && Positions(inner, |outer|) && 0 < m && Contiguous(Through(outer, inner), i, m)
    ensures Contiguous(inner, i, m) && inner[i] + m <= |outer| && Contiguous(outer, inner[i], m)
  {
    if m > 1 {
      ContiguousInner(outer, inner, n, i, m - 1);
      var a, b := inner[i + m - 2], inner[i + m - 1];
      var through := Through(outer, inner);
      assert through[i + (m - 1)] == through[i] + (m - 1) && through[i + (m - 2)] == through[i] + (m - 2);
      assert outer[b] == outer[a] + 1;
      PositionsSpread(outer, n, a, b);
    }
  }

  /** A delimiter left in scrubbed text spans a cut: it was not there before. */
  lemma {:induction false} LeftoversSpanACut(s: string, delims: seq<Delimiter>, d: Delimiter, i: nat)
    requires d in delims && MatchesAt(Scrub(s, delims), i, d)
    ensures i + |d| <= |KeptByAll(s, delims)| && !Contiguous(KeptByAll(s, delims), i, |d|)
  {
    ScrubOnlyDeletes(s, delims);
    var last := delims[|delims| - 1];
    var earlier := delims[..|delims| - 1];
    var u := Scrub(s, earlier);
    var outer, inner := KeptByAll(s, earlier), Kept(u, last, 0);
    ScrubOnlyDeletes(s, earlier);
    KeptPositions(u, last, 0);
    RemovedKeeps(u, last, 0);
    if Contiguous(KeptByAll(s, delims), i, |d|) {
      ContiguousInner(outer, inner, |s|, i, |d|);
      SameSpan(u, Scrub(s, delims), inner, i, d);
      if d != last { LeftoversSpanACut(s, earlier, d, inner[i]); }
    }
  }

  lemma SameSpan(u: string, r: string, inner: seq<nat>, i: nat, d: Delimiter)
    requires |inner| == |r| && Positions(inner, |u|)
    requires forall j | 0 <= j < |r| :: r[j] == u[inner[j]]
    requires MatchesAt(r, i, d) && Contiguous(inner, i, |d|)
    ensures MatchesAt(u, inner[i], d)
  {
    assert inner[i + (|d| - 1)] == inner[i] + (|d| - 1);
    forall m | 0 <= m < |d| ensures u[inner[i] + m] == d[m] {
      assert inner[i + m] == inner[i] + m;
      assert r[i..i + |d|][m] == d[m];
    }
    assert u[inner[i]..inner[i] + |d|] == d;
  }

  function Joined(pieces: seq<string>, separator: string): string {
    if pieces == [] then ""
    else if |pieces| == 1 then pieces[0]
    else pieces[0] + separator + Joined(pieces[1..], separator)
  }

  /** The text is these pieces joined by d, the result is they joined by nothing, and d is in
      none of them. */
  ghost predicate IsSplit(pieces: seq<string>, text: string, d: Delimiter, result: string) {
    && pieces != [] && pieces[0] <= text
    && Joined(pieces, d) == text && Joined(pieces, "") == result
    && forall i | 0 <= i < |pieces| :: !Contains(pieces[i], d)
  }

  lemma SplitAtMatch(pieces: seq<string>, text: string, d: Delimiter, result: string)
    requires IsSplit(pieces, text, d, result)
    ensures IsSplit([""] + pieces, d + text, d, result)
  {
    assert ([""] + pieces)[1..] == pieces;
  }

  lemma JoinedHead(c: char, pieces: seq<string>, separator: string)
    requires pieces != []
    ensures Joined([[c] + pieces[0]] + pieces[1..], separator) == [c] + Joined(pieces, separator)
  {
    var longer := [[c] + pieces[0]] + pieces[1..];
    assert longer[1..] == pieces[1..];
  }

  lemma SplitOnward(c: char, pieces: seq<string>, text: string, d: Delimiter, result: string)
    requires IsSplit(pieces, text, d, result) && !MatchesAt([c] + text, 0, d)
    ensures IsSplit([[c] + pieces[0]] + pieces[1..], [c] + text, d, [c] + result)
  {
    hide MatchesAt, Joined;
    JoinedHead(c, pieces, d);
    JoinedHead(c, pieces, "");
    NotInLonger(c, text, d, pieces[0]);
  }

  lemma NotInLonger(c: char, text: string, d: Delimiter, piece: string)
    requires piece <= text && !Contains(piece, d) && !MatchesAt([c] + text, 0, d)
    ensures !Contains([c] + piece, d)
  {
    var longer := [c] + piece;
    forall i: nat ensures !MatchesAt(longer, i, d) {
      if MatchesAt(longer, i, d) && i > 0 {
        assert longer[i..i + |d|] == piece[i - 1..i - 1 + |d|];
        assert MatchesAt(piece, i - 1, d);
      }
      if |d| <= |longer| { assert longer[0..|d|] == ([c] + text)[0..|d|]; }
    }
  }

  lemma NothingIsSplit(d: Delimiter)
    ensures IsSplit([""], "", d, "")
  {
  }

  lemma SplitIsNotEmpty(pieces: seq<string>, text: string, d: Delimiter, result: string)
    requires IsSplit(pieces, text, d, result)
    ensures pieces != []
  {
  }

  /** A pass loses nothing but the delimiter: the text is some pieces without it, joined by it,
      and the result is the same pieces joined by nothing. */
  lemma {:induction false} RemovedIsSplitAndJoined(s: string, d: Delimiter, from: nat) returns (pieces: seq<string>)
    requires from <= |s|
    ensures IsSplit(pieces, s[from..], d, Removed(s, d, from))
    decreases |s| - from
  {
    hide IsSplit;
    if from == |s| {
      pieces := [""];
      NothingIsSplit(d);
    } else if MatchesAt(s, from, d) {
      var rest := RemovedIsSplitAndJoined(s, d, from + |d|);
      assert s[from..] == d + s[from + |d|..];
      SplitAtMatch(rest, s[from + |d|..], d, Removed(s, d, from + |d|));
      pieces := [""] + rest;
    } else {
      var rest := RemovedIsSplitAndJoined(s, d, from + 1);
      assert s[from..] == [s[from]] + s[from + 1..];
      assert !MatchesAt([s[from]] + s[from + 1..], 0, d);
      SplitIsNotEmpty(rest, s[from + 1..], d, Removed(s, d, from + 1));
      SplitOnward(s[from], rest, s[from + 1..], d, Removed(s, d, from + 1));
      pieces := [[s[from]] + rest[0]] + rest[1..];
    }
  }

  // --------------------------------------------------------------- clean texts

  lemma {:induction false} RemovedShrinks(s: string, d: Delimiter, from: nat)
    requires from <= |s|
    ensures |Removed(s, d, from)| <= |s| - from
    decreases |s| - from
  {
    hide MatchesAt;
    if from < |s| {
      if MatchesAt(s, from, d) { MatchFits(s, from, d); RemovedShrinks(s, d, from + |d|); }
      else { RemovedShrinks(s, d, from + 1); }
    }
  }

  lemma MatchFits(s: string, i: nat, d: string)
    requires MatchesAt(s, i, d)
    ensures i + |d| <= |s|
  {
  }

  lemma {:induction false} MatchIsRemoved(s: string, d: Delimiter, from: nat, i: nat)
    requires from <= i && MatchesAt(s, i, d) && from <= |s|
    ensures |Removed(s, d, from)| < |s| - from
    decreases |s| - from
  {
    hide MatchesAt;
    MatchFits(s, i, d);
    if MatchesAt(s, from, d) {
      MatchFits(s, from, d);
      RemovedShrinks(s, d, from + |d|);
    } else {
      MatchIsRemoved(s, d, from + 1, i);
    }
  }

  lemma {:induction false} RemovedUnchanged(s: string, d: Delimiter, from: nat)
    requires from <= |s| && forall i: nat | from <= i :: !MatchesAt(s, i, d)
    ensures Removed(s, d, from) == s[from..]
    decreases |s| - from
  {
    hide MatchesAt;
    if from < |s| {
      assert !MatchesAt(s, from, d);
      RemovedUnchanged(s, d, from + 1);
      assert s[from..] == [s[from]] + s[from + 1..];
    }
  }

  /** Exactly the texts without any delimiter are left as they are. */
  lemma {:induction false} UnchangedIffClean(s: string, delims: seq<Delimiter>)
    ensures |Scrub(s, delims)| <= |s|
    ensures Scrub(s, delims) == s <==> Clean(s, delims)
  {
    if delims != [] {
      var earlier, last := delims[..|delims| - 1], delims[|delims| - 1];
      UnchangedIffClean(s, earlier);
      var u := Scrub(s, earlier);
      RemovedShrinks(u, last, 0);
      if i: nat :| MatchesAt(u, i, last) {
        MatchIsRemoved(u, last, 0, i);
      } else {
        RemovedUnchanged(u, last, 0);
        assert u[0..] == u;
      }
      assert Clean(s, delims) <==> Clean(s, earlier) && !Contains(s, last) by {
        assert delims == earlier + [last];
      }
    }
  }

  lemma Regroup(head: string, middle: string, rest: string)
    ensures head + (middle + rest) == (head + middle) + rest
  {
  }

  lemma {:induction false} RemovedPrefix(s: string, d: Delimiter, from: nat, k: nat)
    requires from <= k <= |s| && forall i: nat | from <= i < k :: !MatchesAt(s, i, d)
    ensures Removed(s, d, from) == s[from..k] + Removed(s, d, k)
    decreases k - from
  {
    hide MatchesAt;
    if from < k {
      RemovedPrefix(s, d, from + 1, k);
      assert !MatchesAt(s, from, d);
      Regroup([s[from]], s[from + 1..k], Removed(s, d, k));
      HeadOfSlice(s, from, k);
    }
  }

  lemma HeadOfSlice(s: string, from: nat, k: nat)
    requires from < k <= |s|
    ensures s[from..k] == [s[from]] + s[from + 1..k]
  {
  }

  /** Deleting the first match when the rest is too short to hold another. */
  lemma OneMatch(s: string, d: Delimiter, k: nat)
    requires MatchesAt(s, k, d) && |s| < k + 2 * |d| && forall i: nat | i < k :: !MatchesAt(s, i, d)
    ensures Removed(s, d, 0) == s[..k] + s[k + |d|..]
  {
    RemovedPrefix(s, d, 0, k);
    RemovedUnchanged(s, d, k + |d|);
    assert s[0..k] == s[..k];
  }

  lemma ShorterIsUnchanged(s: string, delims: seq<Delimiter>)
    requires forall d | d in delims :: |s| < |d|
    ensures Scrub(s, delims) == s
  {
    UnchangedIffClean(s, delims);
  }

  lemma {:induction false} ScrubInTwo(s: string, first: seq<Delimiter>, then_: seq<Delimiter>)
    ensures Scrub(s, first + then_) == Scrub(Scrub(s, first), then_)
  {
    if then_ == [] {
      assert first + then_ == first;
    } else {
      ScrubInTwo(s, first, then_[..|then_| - 1]);
      assert (first + then_)[..|first + then_| - 1] == first + then_[..|then_| - 1];
    }
  }

  lemma Mismatch(s: string, i: nat, d: string, j: nat)
    requires j < |d| && i + j < |s| && s[i + j] != d[j]
    ensures !MatchesAt(s, i, d)
  {
    if i + |d| <= |s| { assert s[i..i + |d|][j] == s[i + j]; }
  }

  lemma FirstMatch(s: string, d: Delimiter)
    requires d == "<<<PAYLOAD>>>" && s == "<<<PAY" + d + "LOAD>>>"
    ensures MatchesAt(s, 6, d) && forall i: nat | i < 6 :: !MatchesAt(s, i, d)
  {
    hide MatchesAt;
    assert MatchesAt(s, 6, d) by { MatchInTheMiddle("<<<PAY", d, "LOAD>>>"); }
    assert s[6] == s[7] == s[8] == '<' && s[4] == 'A' && s[5] == 'Y';
    Mismatch(s, 0, d, 6);
    Mismatch(s, 1, d, 3);
    Mismatch(s, 2, d, 3);
    Mismatch(s, 3, d, 3);
    Mismatch(s, 4, d, 3);
    Mismatch(s, 5, d, 3);
  }

  lemma MatchInTheMiddle(a: string, d: string, b: string)
    ensures MatchesAt(a + d + b, |a|, d)
  {
  }

  lemma FragmentsJoin(s: string, d: Delimiter)
    requires d == "<<<PAYLOAD>>>" && s == "<<<PAY" + d + "LOAD>>>"
    ensures Scrub(s, [d]) == d
  {
    hide Scrub, Removed, MatchesAt;
    FirstMatch(s, d);
    OneMatch(s, d, 6);
    assert s[..6] == "<<<PAY" && s[6 + |d|..] == "LOAD>>>";
    ScrubOnce(s, d);
  }

  lemma OthersAreLonger(d: Delimiter)
    requires |d| == 13
    ensures Scrub(d, DELIMITERS[1..]) == d
  {
    hide Scrub;
    ShorterIsUnchanged(d, DELIMITERS[1..]);
  }

  /** One pass per delimiter can join fragments into a delimiter again. */
  lemma OnePassMayLeaveADelimiter(s: string, d: Delimiter)
    requires d == "<<<PAYLOAD>>>" && s == "<<<PAY" + d + "LOAD>>>"
    ensures Scrub(s, DELIMITERS) == d && d in DELIMITERS
  {
    hide Scrub;
    FragmentsJoin(s, d);
    OthersAreLonger(d);
    ScrubInTwo(s, [d], DELIMITERS[1..]);
    assert DELIMITERS[0] == d;
    assert [d] + DELIMITERS[1..] == DELIMITERS;
  }

  lemma ScrubOnce(s: string, d: Delimiter)
    ensures Scrub(s, [d]) == Removed(s, d, 0)
  {
    assert [d][..0] == [];
    assert Scrub(s, []) == s;
  }

  /** `_scrub_delimiters`. */
  method ScrubDelimiters(text: string) returns (value: string)
    ensures value == Scrub(text, DELIMITERS)
    ensures Clean(text, DELIMITERS) <==> value == text
  {
    value := text;
    for i := 0 to |DELIMITERS|
      invariant value == Scrub(text, DELIMITERS[..i])
    {
      assert DELIMITERS[..i + 1][..i] == DELIMITERS[..i];
      value := Replace(value, DELIMITERS[i]);
    }
    assert DELIMITERS[..|DELIMITERS|] == DELIMITERS;
    UnchangedIffClean(text, DELIMITERS);
  }

  /** `text.replace(d, "")`. */
  method Replace(text: string, d: Delimiter) returns (value: string)
    ensures value == Removed(text, d, 0)
  {
    value := "";
    var i := 0;
    while i < |text|
      invariant i <= |text| && value + Removed(text, d, i) == Removed(text, d, 0)
    {
      if MatchesAt(text, i, d) {
        i := i + |d|;
      } else {
        value := value + [text[i]];
        i := i + 1;
      }
    }
  }

  // ------------------------------------------------------------------- payloads

  /** `_scrub_payload`: string values at any depth, never keys. */
  function ScrubPayload(value: Json): Json {
    match value
    case Str(s) => Str(Scrub(s, DELIMITERS))
    case Obj(fields) => Obj(map k | k in fields :: ScrubPayload(fields[k]))
    case Arr(items) => Arr(seq(|items|, i requires 0 <= i < |items| => ScrubPayload(items[i])))
    case _ => value
  }

  datatype Step = Field(name: string) | Index(position: nat)

  /** The value at a path, if there is one. */
  function At(value: Json, path: seq<Step>): Option<Json> {
    if path == [] then Some(value)
    else
      match path[0]
      case Field(k) => if value.Obj? && k in value.fields then At(value.fields[k], path[1..]) else None
      case Index(i) => if value.Arr? && i < |value.items| then At(value.items[i], path[1..]) else None
  }

  /** The keys of an object or the length of an array; leaves have neither. */
  function Shape(value: Json): (set<string>, int) {
    (if value.Obj? then value.fields.Keys else {}, if value.Arr? then |value.items| else -1)
  }

  /** At every path there is a value before scrubbing exactly if there is one after; shape and
      keys agree, a string is scrubbed and any other leaf is the same. */
  lemma {:induction false} ScrubbedAt(value: Json, path: seq<Step>)
    ensures var before, after := At(value, path), At(ScrubPayload(value), path);
      match before
      case None => after.None?
      case Some(Str(s)) => after == Some(Str(Scrub(s, DELIMITERS)))
      case Some(v) =>
        after.Some? && Shape(after.value) == Shape(v) && (v.Obj? <==> after.value.Obj?)
        && (!v.Obj? && !v.Arr? ==> after.value == v)
    decreases |path|
  {
    if path == [] {
      if value.Obj? { assert ScrubPayload(value).fields.Keys == value.fields.Keys; }
    } else {
      match path[0]
      case Field(k) => if value.Obj? && k in value.fields { ScrubbedAt(value.fields[k], path[1..]); }
      case Index(i) => if value.Arr? && i < |value.items| { ScrubbedAt(value.items[i], path[1..]); }
    }
  }

  /** No string value anywhere in the payload holds a delimiter. */
  ghost predicate CleanPayload(value: Json) {
    forall path | At(value, path).Some? && At(value, path).value.Str? :: Clean(At(value, path).value.s, DELIMITERS)
  }

  lemma CleanParts(value: Json, step: Step)
    requires CleanPayload(value) && At(value, [step]).Some?
    ensures CleanPayload(At(value, [step]).value)
  {
    var part := At(value, [step]).value;
    forall path | At(part, path).Some? && At(part, path).value.Str?
      ensures Clean(At(part, path).value.s, DELIMITERS)
    {
      assert ([step] + path)[1..] == path && [step][1..] == [];
      assert At(value, [step] + path) == At(part, path);
    }
  }

  lemma {:induction false} CleanIsUnchanged(value: Json)
    requires CleanPayload(value)
    ensures ScrubPayload(value) == value
    decreases value
  {
    match value
    case Str(s) =>
      assert At(value, []) == Some(value);
      UnchangedIffClean(s, DELIMITERS);
    case Obj(fields) =>
      forall k | k in fields ensures ScrubPayload(fields[k]) == fields[k] {
        assert At(value, [Field(k)]) == Some(fields[k]);
        CleanParts(value, Field(k));
        CleanIsUnchanged(fields[k]);
      }
      assert ScrubPayload(value).fields == fields;
    case Arr(items) =>
      forall i | 0 <= i < |items| ensures ScrubPayload(items[i]) == items[i] {
        assert At(value, [Index(i)]) == Some(items[i]);
        CleanParts(value, Index(i));
        CleanIsUnchanged(items[i]);
      }
      assert ScrubPayload(value).items == items;
    case _ =>
  }

  /** Scrubbing leaves exactly the payloads without delimiters in their values as they are. */
  lemma PayloadUnchangedIffClean(value: Json)
    ensures ScrubPayload(value) == value <==> CleanPayload(value)
  {
    if ScrubPayload(value) == value {
      forall path | At(value, path).Some? && At(value, path).value.Str?
        ensures Clean(At(value, path).value.s, DELIMITERS)
      {
        ScrubbedAt(value, path);
        UnchangedIffClean(At(value, path).value.s, DELIMITERS);
      }
    } else if CleanPayload(value) {
      CleanIsUnchanged(value);
    }
  }
}

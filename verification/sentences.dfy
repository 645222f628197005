/** The sentence splitter of `split_into_scenes`:
    `re.split(r'(?<=[.!?])\\s+', text)`.

    The pattern is a raw string, so `\\` is an escaped backslash and the
    pattern matches a literal backslash followed by one or more letters `s`
    (after a `.`, `!` or `?`), not a run of whitespace. This module models the
    pattern as written; on ordinary prose it never matches, so the whole text
    is one unit. The scene splitter itself (module `Scenes`) is proved for
    every non-empty unit list, so it does not depend on this choice. */
module Sentences {

  predicate EndsSentence(c: char) {
    c == '.' || c == '!' || c == '?'
  }

  /** The pattern as written matches at `k`: the look-behind sees `.`, `!` or
      `?` at `k - 1`, then a backslash and at least one `s`. */
  predicate MatchesAt(s: string, k: nat) {
    1 <= k && k + 1 < |s| && EndsSentence(s[k - 1]) && s[k] == '\\' && s[k + 1] == 's'
  }

  /** End of the greedy `s+` run that starts at `k`. */
  function SkipRun(s: string, k: nat): (e: nat)
    requires k <= |s|
    ensures k <= e <= |s|
    ensures forall j :: k <= j < e ==> s[j] == 's'
    ensures e < |s| ==> s[e] != 's'
    decreases |s| - k
  {
    if k < |s| && s[k] == 's' then SkipRun(s, k + 1) else k
  }

  /** Scan from `k` for the next match, the current unit having started at
      `from`. Matches cannot overlap: a match consists of `\` and `s`, and the
      look-behind needs a sentence end before it. */
  function Scan(s: string, from: nat, k: nat): (units: seq<string>)
    requires from <= k <= |s|
    ensures |units| >= 1
    decreases |s| - k
  {
    if k == |s| then [s[from..]]
    else if MatchesAt(s, k) then
      var e := SkipRun(s, k + 1);
      [s[from..k]] + Scan(s, e, e)
    else Scan(s, from, k + 1)
  }

  /** `re.split` with the pattern as written. `re.split` always yields at
      least one piece, which is what sends a one-scene request into the
      sentence branch. */
  function SplitLiteral(s: string): (units: seq<string>)
    ensures |units| >= 1
  {
    Scan(s, 0, 0)
  }

  /** Scanning from `k` yields a single piece exactly when the pattern
      matches nowhere from `k` on, and that piece is the rest of the text. */
  lemma {:induction false} ScanOneUnit(s: string, from: nat, k: nat)
    requires from <= k <= |s|
    ensures |Scan(s, from, k)| == 1 <==> forall p :: k <= p < |s| ==> !MatchesAt(s, p)
    ensures |Scan(s, from, k)| == 1 ==> Scan(s, from, k) == [s[from..]]
    decreases |s| - k
  {
    if k < |s| && !MatchesAt(s, k) {
      ScanOneUnit(s, from, k + 1);
    }
  }

  /** `re.split` returns the text unchanged, as its only piece, exactly when
      the pattern matches nowhere in it. */
  lemma OneUnitIffNoMatch(s: string)
    ensures SplitLiteral(s) == [s] <==> forall p :: 0 <= p < |s| ==> !MatchesAt(s, p)
  {
    ScanOneUnit(s, 0, 0);
    assert s[0..] == s;
  }

  /** Text without a backslash is never split: it is a single unit. */
  lemma NoBackslashOneUnit(s: string)
    requires forall j :: 0 <= j < |s| ==> s[j] != '\\'
    ensures SplitLiteral(s) == [s]
  {
    OneUnitIffNoMatch(s);
  }

  /** A match inside a piece `s[from..end]` is a match of the text. */
  lemma MatchInSlice(s: string, from: nat, end: nat, j: nat)
    requires from <= end <= |s| && MatchesAt(s[from..end], j)
    ensures MatchesAt(s, from + j) && from + j + 1 < end
  {
    var unit := s[from..end];
    assert unit[j - 1] == s[from + j - 1] && unit[j] == s[from + j] && unit[j + 1] == s[from + j + 1];
  }

  /** No piece still contains the pattern: every match has been split on. */
  lemma {:induction false} ScanUnitsClean(s: string, from: nat, k: nat)
    requires from <= k <= |s|
    requires forall p :: from < p < k ==> !MatchesAt(s, p)
    ensures forall i, j :: 0 <= i < |Scan(s, from, k)| && 0 <= j < |Scan(s, from, k)[i]| ==>
              !MatchesAt(Scan(s, from, k)[i], j)
    decreases |s| - k
  {
    var units := Scan(s, from, k);
    if k == |s| {
      forall j | 0 <= j < |s[from..]|
        ensures !MatchesAt(s[from..], j)
      {
        if MatchesAt(s[from..], j) {
          MatchInSlice(s, from, |s|, j);
        }
      }
    } else if MatchesAt(s, k) {
      var e := SkipRun(s, k + 1);
      ScanUnitsClean(s, e, e);
      forall j | 0 <= j < |s[from..k]|
        ensures !MatchesAt(s[from..k], j)
      {
        if MatchesAt(s[from..k], j) {
          MatchInSlice(s, from, k, j);
        }
      }
      assert units == [s[from..k]] + Scan(s, e, e);
    } else {
      ScanUnitsClean(s, from, k + 1);
    }
  }

  /** No piece of `re.split` contains the pattern. */
  lemma UnitsHaveNoMatch(s: string)
    ensures forall i, j :: 0 <= i < |SplitLiteral(s)| && 0 <= j < |SplitLiteral(s)[i]| ==>
              !MatchesAt(SplitLiteral(s)[i], j)
  {
    ScanUnitsClean(s, 0, 0);
  }

  /** Piece `i` of `units` is `s[starts[i]..ends[i]]`. */
  ghost predicate PiecesAt(s: string, units: seq<string>, starts: seq<nat>, ends: seq<nat>) {
    && |starts| == |ends| == |units|
    && forall i :: 0 <= i < |ends| ==> starts[i] <= ends[i] <= |s| && units[i] == s[starts[i]..ends[i]]
  }

  /** Between two pieces lies exactly one whole match: it starts where the
      earlier piece ends and runs over every `s` after the backslash. */
  ghost predicate GapsAt(s: string, starts: seq<nat>, ends: seq<nat>)
    requires |starts| == |ends|
  {
    forall i :: 0 <= i < |ends| - 1 ==> MatchesAt(s, ends[i]) && starts[i + 1] == SkipRun(s, ends[i] + 1)
  }

  /** No match starts inside a piece. */
  ghost predicate CleanAt(s: string, starts: seq<nat>, ends: seq<nat>)
    requires |starts| == |ends|
  {
    forall i, p :: 0 <= i < |ends| && starts[i] <= p < ends[i] ==> !MatchesAt(s, p)
  }

  /** `units` tile `s` from position `from` to its end: the pieces lie in
      order, the first starting at `from` and the last ending at the end
      of `s`, with one maximal match between each two and none inside. */
  ghost predicate Tiles(s: string, from: nat, units: seq<string>, starts: seq<nat>, ends: seq<nat>) {
    && PiecesAt(s, units, starts, ends)
    && |units| >= 1
    && starts[0] == from && ends[|ends| - 1] == |s|
    && GapsAt(s, starts, ends)
    && CleanAt(s, starts, ends)
  }

  /** A piece in front of a tiling keeps each piece where it lies. */
  lemma PiecesCons(s: string, from: nat, k: nat, rest: seq<string>, starts: seq<nat>, ends: seq<nat>)
    requires from <= k <= |s|
    requires PiecesAt(s, rest, starts, ends)
    ensures PiecesAt(s, [s[from..k]] + rest, [from] + starts, [k] + ends)
  {
    var st, en, units := [from] + starts, [k] + ends, [s[from..k]] + rest;
    forall i | 1 <= i < |en|
      ensures st[i] <= en[i] <= |s| && units[i] == s[st[i]..en[i]]
    {
      assert st[i] == starts[i - 1] && en[i] == ends[i - 1] && units[i] == rest[i - 1];
    }
  }

  /** A match in front of a tiling is the gap before its first piece. */
  lemma GapsCons(s: string, from: nat, k: nat, starts: seq<nat>, ends: seq<nat>)
    requires MatchesAt(s, k) && |starts| == |ends| >= 1 && starts[0] == SkipRun(s, k + 1)
    requires GapsAt(s, starts, ends)
    ensures GapsAt(s, [from] + starts, [k] + ends)
  {
    var st, en := [from] + starts, [k] + ends;
    forall i | 1 <= i < |en| - 1
      ensures MatchesAt(s, en[i]) && st[i + 1] == SkipRun(s, en[i] + 1)
    {
      assert en[i] == ends[i - 1] && st[i + 1] == starts[i];
    }
  }

  /** A match-free piece in front of a tiling keeps the pieces clean. */
  lemma CleanCons(s: string, from: nat, k: nat, starts: seq<nat>, ends: seq<nat>)
    requires forall p :: from <= p < k ==> !MatchesAt(s, p)
    requires |starts| == |ends| && CleanAt(s, starts, ends)
    ensures CleanAt(s, [from] + starts, [k] + ends)
  {
    var st, en := [from] + starts, [k] + ends;
    forall i, p | 1 <= i < |en| && st[i] <= p < en[i]
      ensures !MatchesAt(s, p)
    {
      assert st[i] == starts[i - 1] && en[i] == ends[i - 1];
    }
  }

  /** The pieces of `Scan(s, from, k)` tile `s` from `from` on. */
  lemma {:induction false} ScanPieces(s: string, from: nat, k: nat) returns (starts: seq<nat>, ends: seq<nat>)
    requires from <= k <= |s|
    requires forall p :: from <= p < k ==> !MatchesAt(s, p)
    ensures Tiles(s, from, Scan(s, from, k), starts, ends)
    decreases |s| - k
  {
    if k == |s| {
      starts, ends := [from], [|s|];
    } else if MatchesAt(s, k) {
      var e := SkipRun(s, k + 1);
      assert s[e - 1] == 's';
      var st, en := ScanPieces(s, e, e);
      PiecesCons(s, from, k, Scan(s, e, e), st, en);
      GapsCons(s, from, k, st, en);
      CleanCons(s, from, k, st, en);
      starts, ends := [from] + st, [k] + en;
    } else {
      starts, ends := ScanPieces(s, from, k + 1);
    }
  }

  /** The pieces of `re.split` put back where they came from: they tile the
      whole text in order, and each gap between two pieces is one maximal
      match of the pattern. */
  lemma SplitPieces(s: string) returns (starts: seq<nat>, ends: seq<nat>)
    ensures Tiles(s, 0, SplitLiteral(s), starts, ends)
  {
    starts, ends := ScanPieces(s, 0, 0);
  }

  /** A backslash-s after a full stop does split. */
  lemma BackslashSplits()
    ensures SplitLiteral("A.\\sB") == ["A.", "B"]
  {
    var s := "A.\\sB";
    assert !MatchesAt(s, 0) && !MatchesAt(s, 1) && MatchesAt(s, 2);
    assert SkipRun(s, 3) == 4;
    assert s[4..] == "B" && s[0..2] == "A.";
    assert Scan(s, 4, 4) == ["B"];
    assert Scan(s, 0, 2) == ["A."] + Scan(s, 4, 4);
    assert Scan(s, 0, 0) == Scan(s, 0, 1) == Scan(s, 0, 2);
  }
}

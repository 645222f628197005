/** `split_into_scenes(desc, n_scenes)`: cut the user's description into the
    scene briefs that `generate` turns into prompts. Three branches:
    bucketing sentence units, repeating a short description with a
    " — detail k" suffix, and fixed-width slicing padded with a filler. */
module Scenes {
  import opened Text
  import opened Numerals
  import opened Chunking
  import Sentences

  const ContinuationFiller := "A continuation of the scene."
  const BridgingFiller := "A bridging visual scene."
  /** Descriptions shorter than this take the " — detail k" branch. */
  const ShortLimit := 50
  /** The fixed-width slices are at least this wide. */
  const MinWidth := 20
  const DetailInfix := " \U{2014} detail "

  /** Python's `xs[:n]` for `n >= 0`. */
  function Take(xs: seq<string>, n: nat): (r: seq<string>)
    ensures |r| == Min(n, |xs|) && r == xs[..|r|]
  {
    xs[..Min(n, |xs|)]
  }

  /** `while len(scenes) < n: scenes.append(filler)`: the list is kept as a
      prefix and filled up to `n` items with `filler`. */
  function PadTo(scenes: seq<string>, n: nat, filler: string): (r: seq<string>)
    ensures |r| == Max(n, |scenes|)
    ensures r[..|scenes|] == scenes
    ensures forall k :: |scenes| <= k < |r| ==> r[k] == filler
    decreases n - |scenes|
  {
    if |scenes| < n then PadTo(scenes + [filler], n, filler) else scenes
  }

  // ---------------------------------------------------------------------
  // Sentence branch (enough units for every scene)
  // ---------------------------------------------------------------------

  /** The first loop of the sentence branch: while fewer than `n` scenes
      and units remain, append the stripped space-join of the next `per`
      units (the slice is clamped to the end of the list). */
  function Gather(units: seq<string>, per: nat, n: nat, i: nat, scenes: seq<string>): seq<string>
    requires per >= 1
    decreases |units| - Min(i, |units|)
  {
    if |scenes| < n && i < |units| then
      var chunk := Strip(Join(" ", units[i..Min(i + per, |units|)]));
      Gather(units, per, n, i + per, scenes + [chunk])
    else scenes
  }

  /** `k` groups of `per` items fit into `len` items. */
  predicate Fits(len: nat, per: nat, k: nat)
    decreases k
  {
    k == 0 || (per <= len && Fits(len - per, per, k - 1))
  }

  lemma {:induction false} FitsProduct(len: nat, per: nat, k: nat)
    ensures Fits(len, per, k) <==> k * per <= len
    decreases k
  {
    if k > 0 {
      assert (k - 1) * per + per == k * per;
      if per <= len {
        FitsProduct(len - per, per, k - 1);
      }
    }
  }

  /** Reference definition of the sentence branch: `k` scenes, each the
      stripped space-join of the next `per` units, independent of the loop
      that builds them. */
  function Buckets(units: seq<string>, per: nat, k: nat): (r: seq<string>)
    requires Fits(|units|, per, k)
    ensures |r| == k
    decreases k
  {
    if k == 0 then []
    else [Strip(Join(" ", units[..per]))] + Buckets(units[per..], per, k - 1)
  }

  /** Where group `m` of `per` items begins, counted up group by group. */
  function Offset(m: nat, per: nat): nat {
    if m == 0 then 0 else Offset(m - 1, per) + per
  }

  lemma {:induction false} OffsetIsProduct(m: nat, per: nat)
    ensures Offset(m, per) == m * per
  {
    if m > 0 {
      OffsetIsProduct(m - 1, per);
      assert (m - 1) * per + per == m * per;
    }
  }

  /** Scene `m` of the reference definition is the stripped space-join of
      the `per` units from offset `m` groups in. */
  lemma {:induction false} BucketsAtOffset(units: seq<string>, per: nat, k: nat, m: nat)
    requires Fits(|units|, per, k) && m < k
    ensures Offset(m, per) + per <= |units|
    ensures Buckets(units, per, k)[m] == Strip(Join(" ", units[Offset(m, per) .. Offset(m, per) + per]))
    decreases m
  {
    assert per <= |units| && Fits(|units| - per, per, k - 1);
    var rest := units[per..];
    var head := Strip(Join(" ", units[..per]));
    assert Buckets(units, per, k) == [head] + Buckets(rest, per, k - 1);
    if m == 0 {
      assert Offset(m, per) == 0;
      assert units[0 .. per] == units[..per];
    } else {
      var lo := Offset(m - 1, per);
      var at := Offset(m, per);
      assert at == lo + per;
      BucketsAtOffset(rest, per, k - 1, m - 1);
      ShiftedGroup(units, per, lo, at);
      assert Buckets(units, per, k)[m] == Buckets(rest, per, k - 1)[m - 1];
    }
  }

  /** A group `lo` items into the remainder after the first `per` is the
      group `at = lo + per` items into the whole. */
  lemma ShiftedGroup(units: seq<string>, per: nat, lo: nat, at: nat)
    requires at == lo + per && at + per <= |units|
    ensures units[per..][lo .. lo + per] == units[at .. at + per]
  {
    SliceOfSuffix(units, per, lo, per);
  }

  /** Scene `m` of the reference definition is the stripped space-join of
      units `[m*per, (m+1)*per)`. */
  lemma BucketsAt(units: seq<string>, per: nat, k: nat, m: nat)
    requires Fits(|units|, per, k) && m < k
    ensures (m + 1) * per <= |units|
    ensures Buckets(units, per, k)[m] == Strip(Join(" ", units[m * per .. (m + 1) * per]))
  {
    BucketsAtOffset(units, per, k, m);
    OffsetIsProduct(m, per);
    assert (m + 1) * per == m * per + per;
  }

  /** Units per scene: `max(1, len(units) // n)`. */
  function PerScene(count: nat, n: nat): nat
    requires n >= 1
  {
    Max(1, count / n)
  }

  /** The sentence branch as written: gather, pad with the continuation
      filler, cut to `n`. */
  function SentenceBranch(units: seq<string>, n: nat): seq<string>
    requires 1 <= n <= |units|
  {
    var per := PerScene(|units|, n);
    Take(PadTo(Gather(units, per, n, 0, []), n, ContinuationFiller), n)
  }

  lemma MulMono(a: nat, b: nat, c: nat)
    requires a <= b
    ensures a * c <= b * c
  {
  }

  /** With at least `n` units, `per` is the floor quotient, at least one,
      and fewer than `n` units are left over. */
  lemma PerSceneFacts(count: nat, n: nat)
    requires 1 <= n <= count
    ensures PerScene(count, n) == count / n >= 1
    ensures n * PerScene(count, n) <= count < n * PerScene(count, n) + n
  {
    var q := count / n;
    var r := count % n;
    assert count == n * q + r;
  }

  /** Each trip through the gather loop appends the next bucket; with
      `k` scenes still wanted and enough units for them it stops after
      exactly those `k`, before running out of units. */
  lemma {:induction false} GatherBuckets(units: seq<string>, per: nat, n: nat, i: nat, scenes: seq<string>)
    requires per >= 1 && |scenes| <= n && i <= |units|
    requires Fits(|units| - i, per, n - |scenes|)
    ensures Gather(units, per, n, i, scenes) == scenes + Buckets(units[i..], per, n - |scenes|)
    decreases n - |scenes|
  {
    var k := n - |scenes|;
    if k > 0 {
      assert i + per <= |units|;
      var chunk := Strip(Join(" ", units[i..i + per]));
      var rest := Buckets(units[i + per..], per, k - 1);
      assert Gather(units, per, n, i, scenes) == Gather(units, per, n, i + per, scenes + [chunk]);
      GatherBuckets(units, per, n, i + per, scenes + [chunk]);
      assert Buckets(units[i..], per, k) == [chunk] + rest by {
        assert units[i..][..per] == units[i..i + per];
        assert units[i..][per..] == units[i + per..];
      }
      assert (scenes + [chunk]) + rest == scenes + ([chunk] + rest);
    } else {
      assert Buckets(units[i..], per, k) == [];
    }
  }

  /** With at least `n` units the sentence branch yields exactly `n` scenes,
      scene `m` being units `[m*per, (m+1)*per)` with `per = len // n`, in
      source order; the padding loop never runs and the fewer than `n`
      trailing units past `n*per` are dropped. */
  lemma SentenceBranchShape(units: seq<string>, n: nat)
    requires 1 <= n <= |units|
    ensures var per := |units| / n;
      && per >= 1
      && n * per <= |units| < n * per + n
      && Fits(|units|, per, n)
      && SentenceBranch(units, n) == Buckets(units, per, n)
  {
    PerSceneFacts(|units|, n);
    var per := PerScene(|units|, n);
    FitsProduct(|units|, per, n);
    GatherBuckets(units, per, n, 0, []);
    var g := Gather(units, per, n, 0, []);
    assert units[0..] == units;
    assert PadTo(g, n, ContinuationFiller) == g;
  }

  // ---------------------------------------------------------------------
  // Fewer units than scenes
  // ---------------------------------------------------------------------

  /** `[desc + f" — detail {i+1}" for i in range(n)]`. */
  function DetailBranch(desc: string, n: nat): seq<string> {
    seq(n, k requires 0 <= k < n => desc + DetailInfix + NatToString(k + 1))
  }

  /** The detail branch repeats the whole description in each of its `n`
      items, and the numbering keeps the items pairwise distinct. */
  lemma DetailBranchShape(desc: string, n: nat)
    ensures |DetailBranch(desc, n)| == n
    ensures forall k :: 0 <= k < n ==> StartsWith(DetailBranch(desc, n)[k], desc)
    ensures forall j, k :: 0 <= j < k < n ==> DetailBranch(desc, n)[j] != DetailBranch(desc, n)[k]
  {
    var r := DetailBranch(desc, n);
    forall k | 0 <= k < n ensures StartsWith(r[k], desc) {
      assert r[k][..|desc|] == desc;
    }
    forall j, k | 0 <= j < k < n ensures r[j] != r[k] {
      var p := desc + DetailInfix;
      if r[j] == r[k] {
        assert r[j][|p|..] == NatToString(j + 1);
        assert r[k][|p|..] == NatToString(k + 1);
        NatToStringInjective(j + 1, k + 1);
      }
    }
  }

  /** Slice width of the fixed-width branch: `max(20, len(desc) // n)`. */
  function Width(desc: string, n: nat): nat
    requires n >= 1
  {
    Max(MinWidth, |desc| / n)
  }

  /** `[desc[i:i+w].strip() for i in range(0, len(desc), w)]`. */
  function StripAll(pieces: seq<string>): (r: seq<string>)
    ensures |r| == |pieces|
    ensures forall k :: 0 <= k < |r| ==> r[k] == Strip(pieces[k])
  {
    seq(|pieces|, k requires 0 <= k < |pieces| => Strip(pieces[k]))
  }

  /** The fixed-width branch as written: slices, then the bridging filler up
      to `n`, and no truncation. */
  function FixedWidthBranch(desc: string, n: nat): seq<string>
    requires n >= 1
  {
    PadTo(StripAll(Chunk(desc, Width(desc, n))), n, BridgingFiller)
  }

  /** The fixed-width branch yields the stripped slices
      `desc[k*w : (k+1)*w]` in source order, `ceil(len(desc)/w)` of them,
      followed by bridging fillers up to `n`. It is never cut, so it has at
      least `n` items and more than `n` when the slices outnumber the
      scenes. */
  lemma FixedWidthShape(desc: string, n: nat)
    requires n >= 1
    ensures var w := Width(desc, n);
      var count := |Chunk(desc, w)|;
      var r := FixedWidthBranch(desc, n);
      && |desc| <= count * w < |desc| + w
      && |r| == Max(n, count)
      && (forall k :: 0 <= k < count ==>
            k * w < |desc| && r[k] == Strip(desc[k * w .. Min((k + 1) * w, |desc|)]))
      && (forall k :: count <= k < |r| ==> r[k] == BridgingFiller)
  {
    var w := Width(desc, n);
    ChunkCount(desc, w);
    var pieces := Chunk(desc, w);
    var r := FixedWidthBranch(desc, n);
    forall k | 0 <= k < |pieces|
      ensures k * w < |desc| && r[k] == Strip(desc[k * w .. Min((k + 1) * w, |desc|)])
    {
      ChunkAt(desc, w, k);
      assert r[k] == StripAll(pieces)[k];
    }
  }

  // ---------------------------------------------------------------------
  // The splitter
  // ---------------------------------------------------------------------

  /** `split_into_scenes` once the units are known. `units` is what the
      sentence splitter returned for the stripped description, which is
      never an empty list. Never fewer than `n` scenes; exactly `n` unless
      the fixed-width branch runs. */
  function SplitWith(desc: string, units: seq<string>, n: nat): (r: seq<string>)
    requires n >= 1 && |units| >= 1
    ensures |r| >= n
    ensures |units| >= n || |desc| < ShortLimit ==> |r| == n
  {
    if |units| >= n then
      SentenceBranchShape(units, n);
      SentenceBranch(units, n)
    else if |desc| < ShortLimit then
      DetailBranchShape(desc, n);
      DetailBranch(desc, n)
    else
      FixedWidthShape(desc, n);
      FixedWidthBranch(desc, n)
  }

  /** `split_into_scenes(desc, n)` as written, with the sentence splitter's
      pattern as written. */
  function SplitIntoScenes(desc: string, n: nat): (r: seq<string>)
    requires n >= 1
    ensures |r| >= n
  {
    SplitWith(desc, Sentences.SplitLiteral(Strip(desc)), n)
  }

  /** The splitter returns more than `n` scenes exactly when there are fewer
      units than scenes, the description is at least 50 characters long and
      `n` slices of width `w` do not cover it. */
  lemma OverflowExactly(desc: string, units: seq<string>, n: nat)
    requires n >= 1 && |units| >= 1
    ensures |SplitWith(desc, units, n)| > n <==>
              |units| < n && |desc| >= ShortLimit && |desc| > n * Width(desc, n)
  {
    if |units| < n && |desc| >= ShortLimit {
      var w := Width(desc, n);
      var count := |Chunk(desc, w)|;
      FixedWidthShape(desc, n);
      if count > n {
        MulMono(n + 1, count, w);
        assert (n + 1) * w == n * w + w;
      } else {
        MulMono(count, n, w);
      }
    }
  }

  /** With a single scene the whole unit list becomes that scene. */
  lemma OneScene(desc: string, units: seq<string>)
    requires |units| >= 1
    ensures SplitWith(desc, units, 1) == [Strip(Join(" ", units))]
  {
    SentenceBranchShape(units, 1);
    var per := |units| / 1;
    assert per == |units|;
    assert units[..per] == units;
    assert Buckets(units, per, 1) == [Strip(Join(" ", units))] + Buckets(units[per..], per, 0);
    assert SplitWith(desc, units, 1) == SentenceBranch(units, 1);
  }

  /** With the pattern as written, a one-scene request on a description
      without a backslash returns the stripped description. */
  lemma OneSceneWholeDescription(desc: string)
    requires forall j :: 0 <= j < |desc| ==> desc[j] != '\\'
    ensures SplitIntoScenes(desc, 1) == [Strip(desc)]
  {
    var t := Strip(desc);
    forall j | 0 <= j < |t| ensures t[j] != '\\' {
      StripChars(desc, t[j]);
    }
    Sentences.NoBackslashOneUnit(t);
    OneScene(desc, [t]);
    StripIdempotent(desc);
  }

  /** With the pattern as written, three plain sentences asked for as three
      scenes are not split at their full stops: the text is one unit, it is
      shorter than 50 characters, and every scene repeats all of it with a
      " — detail k" suffix. */
  lemma ThreeSentencesExample()
    ensures var d := "A dog runs. A cat hides. The sun sets.";
      SplitIntoScenes(d, 3) == DetailBranch(d, 3)
  {
    var d := "A dog runs. A cat hides. The sun sets.";
    assert forall j :: 0 <= j < |d| ==> d[j] != '\\';
    assert !IsSpace(d[0]) && !IsSpace(d[|d| - 1]);
    StripTrimmed(d);
    Sentences.NoBackslashOneUnit(d);
  }

  /** The defect of the fixed-width branch: a 55-character description
      without a backslash, asked for as 2 scenes, gives 3 (slice width
      `max(20, 55 // 2) = 27`, three slices, nothing cut). */
  lemma FixedWidthOverflowExample(desc: string)
    requires |desc| == 55
    requires forall j :: 0 <= j < |desc| ==> desc[j] != '\\'
    ensures |SplitIntoScenes(desc, 2)| == 3
  {
    var t := Strip(desc);
    forall j | 0 <= j < |t| ensures t[j] != '\\' {
      StripChars(desc, t[j]);
    }
    Sentences.NoBackslashOneUnit(t);
    assert Width(desc, 2) == 27;
    FixedWidthShape(desc, 2);
  }

  /** `split_into_scenes` with the cut to `n` that the fixed-width branch
      lacks: exactly `n` scenes, the first `n` of what the code as written
      returns. */
  function SplitIntoScenesTruncated(desc: string, n: nat): (r: seq<string>)
    requires n >= 1
    ensures |r| == n
    ensures r <= SplitIntoScenes(desc, n)
  {
    Take(SplitIntoScenes(desc, n), n)
  }
}

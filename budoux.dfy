/** The segmentation engine: one left-to-right pass over the characters of
    the input that scores every boundary between two characters and starts
    a new chunk wherever the score exceeds the threshold.

    The scan is first described by functions of the input (the window, the
    decision-tag history and the score at each boundary, and the chunks
    built so far); ParseWithThreshold is the imperative scan, proved to
    produce exactly that, and the lemmas state what the chunks are. */
module Budoux {
  import opened Strings
  import opened UnicodeBlocks
  import opened Features

  /** The threshold `parse` uses. */
  const DEFAULT_THRESHOLD: int := 1000

  /** The block codes of the first n characters of the text, the classifier
      applied to each character in turn. The scan asks the classifier for
      each code when it needs it; this sequence has no counterpart in the
      engine and is there so that the window functions below read the codes
      from one recursive definition, which keeps the verifier from unfolding
      the classifier at every window position. FeatureAtClassifier ties
      every entry back to get_unicode_block_and_feature. */
  function BlockCodes(table: seq<int>, chars: string, n: nat): (codes: seq<string>)
    requires n <= |chars|
    ensures |codes| == n
  {
    if n == 0 then [] else BlockCodes(table, chars, n - 1) + [GetUnicodeBlockAndFeature(table, chars, n - 1).1]
  }

  /** Entry j of the block codes is the code the classifier reports for
      character j. */
  lemma {:induction false} BlockCodesAt(table: seq<int>, chars: string, n: nat, j: nat)
    requires j < n <= |chars|
    ensures BlockCodes(table, chars, n)[j] == GetUnicodeBlockAndFeature(table, chars, j).1
    decreases n
  {
    if j < n - 1 {
      BlockCodesAt(table, chars, n - 1, j);
    }
  }

  /** The window entry for text position j: the character and its block
      code, or the sentinel pair when j lies outside the text. */
  function FeatureAt(table: seq<int>, chars: string, j: int): (f: (string, string))
    ensures 0 <= j < |chars| ==> f.0 == [chars[j]] && |f.1| >= 3 && f.1 != INVALID_FEATURE
    ensures !(0 <= j < |chars|) ==> f == ("", INVALID_FEATURE)
  {
    if 0 <= j < |chars| then
      BlockCodesAt(table, chars, |chars|, j);
      ([chars[j]], BlockCodes(table, chars, |chars|)[j])
    else ("", INVALID_FEATURE)
  }

  /** The window entry is what get_unicode_block_and_feature returns for
      every position the scan asks about. */
  lemma FeatureAtClassifier(table: seq<int>, chars: string, j: nat)
    ensures FeatureAt(table, chars, j) == GetUnicodeBlockAndFeature(table, chars, j)
  {
    if j < |chars| {
      BlockCodesAt(table, chars, |chars|, j);
    }
  }

  /** The window around boundary i: text positions i-3 to i+2. */
  function WindowAt(table: seq<int>, chars: string, i: int): Window
  {
    var f1, f2, f3 := FeatureAt(table, chars, i - 3), FeatureAt(table, chars, i - 2), FeatureAt(table, chars, i - 1);
    var f4, f5, f6 := FeatureAt(table, chars, i), FeatureAt(table, chars, i + 1), FeatureAt(table, chars, i + 2);
    Window(f1.0, f2.0, f3.0, f4.0, f5.0, f6.0, f1.1, f2.1, f3.1, f4.1, f5.1, f6.1)
  }

  /** The decision tags in force when boundary i is scored: all unknown at
      the first boundary, then each boundary pushes the tag of its own
      score. The threshold plays no part. */
  function HistoryAt(model: Model, table: seq<int>, chars: string, i: nat): History
    decreases i
  {
    if i <= 1 then Initial
    else
      var h := HistoryAt(model, table, chars, i - 1);
      Push(h, TagOf(BoundaryScore(model, WindowAt(table, chars, i - 1), h)))
  }

  /** The score of boundary i (the boundary in front of character i). */
  function ScoreAt(model: Model, table: seq<int>, chars: string, i: nat): int
  {
    BoundaryScore(model, WindowAt(table, chars, i), HistoryAt(model, table, chars, i))
  }

  /** Every boundary of the text at which the scan splits: the boundaries
      in front of characters 1 to |chars|-1 whose score exceeds the
      threshold. */
  function Splits(model: Model, table: seq<int>, chars: string, threshold: int): set<nat>
  {
    SplitsBelow(model, table, chars, threshold, |chars|)
  }

  /** The split boundaries among 1 to k-1, decided one boundary at a time. */
  function SplitsBelow(model: Model, table: seq<int>, chars: string, threshold: int, k: nat): set<nat>
    decreases k
  {
    if k <= 1 then {}
    else
      SplitsBelow(model, table, chars, threshold, k - 1) +
      (if ScoreAt(model, table, chars, k - 1) > threshold then {k - 1} else {})
  }

  /** A boundary is among the splits below k exactly when it lies in 1 to
      k-1 and its score exceeds the threshold. */
  lemma {:induction false} SplitsBelowMember(model: Model, table: seq<int>, chars: string, threshold: int, k: nat, i: nat)
    ensures i in SplitsBelow(model, table, chars, threshold, k) <==> 1 <= i < k && ScoreAt(model, table, chars, i) > threshold
    decreases k
  {
    if k > 1 {
      SplitsBelowMember(model, table, chars, threshold, k - 1, i);
    }
  }

  /** The split boundaries are exactly the boundaries in front of
      characters 1 to |chars|-1 whose score exceeds the threshold. */
  lemma SplitsMember(model: Model, table: seq<int>, chars: string, threshold: int, i: nat)
    ensures i in Splits(model, table, chars, threshold) <==> 1 <= i < |chars| && ScoreAt(model, table, chars, i) > threshold
  {
    SplitsBelowMember(model, table, chars, threshold, |chars|, i);
  }

  /** The cuts in front of characters 1 to k-1. */
  function CutsBelow(cuts: set<nat>, k: nat): set<nat>
  {
    set i | i in cuts && 1 <= i < k
  }

  /** The chunks of chars[..k] once boundaries 1 to k-1 are decided, each
      boundary in `cuts` being a split: the finished chunks followed by the
      chunk in progress. A split starts a new chunk with character k-1;
      otherwise the character joins the chunk in progress. */
  function ChunksUpTo(chars: string, cuts: set<nat>, k: nat): (chunks: seq<string>)
    requires 1 <= k <= |chars|
    ensures |chunks| >= 1
    decreases k
  {
    if k == 1 then [[chars[0]]]
    else
      var prev := ChunksUpTo(chars, cuts, k - 1);
      if k - 1 in cuts then prev + [[chars[k - 1]]]
      else prev[..|prev| - 1] + [prev[|prev| - 1] + [chars[k - 1]]]
  }

  /** The chunks of the whole input under a set of cuts: an input of at
      most one character as a single chunk, otherwise the chunks after the
      last boundary. */
  function Chunks(chars: string, cuts: set<nat>): seq<string>
  {
    if |chars| <= 1 then [chars] else ChunksUpTo(chars, cuts, |chars|)
  }

  /** What parse_with_threshold returns: the chunks under the splits. */
  function Segment(model: Model, table: seq<int>, chars: string, threshold: int): seq<string>
  {
    Chunks(chars, Splits(model, table, chars, threshold))
  }

  /** The text offsets at which the second, third, ... chunk starts. */
  function ChunkStarts(chunks: seq<string>): set<nat>
    decreases |chunks|
  {
    if |chunks| <= 1 then {}
    else ChunkStarts(chunks[..|chunks| - 1]) + {|Concat(chunks[..|chunks| - 1])|}
  }

  // ---------------------------------------------------------------------
  // The scan

  /** parse_with_threshold: splits the input into chunks in one pass. The
      result is the specified segmentation; it joins back to the input,
      has no empty chunk (unless the input is empty), and starts a new chunk
      exactly at the boundaries whose score exceeds the threshold. */
  method ParseWithThreshold(model: Model, table: seq<int>, input: string, threshold: int) returns (out: seq<string>)
    ensures out == Segment(model, table, input, threshold)
    ensures Concat(out) == input
    ensures |input| <= 1 ==> out == [input]
    ensures |input| >= 1 ==> forall j :: 0 <= j < |out| ==> out[j] != ""
    ensures |out| == 1 + |Splits(model, table, input, threshold)|
    ensures ChunkStarts(out) == Splits(model, table, input, threshold)
  {
    var chars := input;
    if |chars| <= 1 {
      out := [input];
      SegmentFacts(model, table, chars, threshold);
      return;
    }

    out := [];
    var buf: string := [chars[0]];

    var p1, p2, p3 := Unknown, Unknown, Unknown;

    var w1, b1 := "", INVALID_FEATURE;  // i - 3
    var w2, b2 := "", INVALID_FEATURE;  // i - 2
    var f3 := GetUnicodeBlockAndFeature(table, chars, 0);  // i - 1
    var f4 := GetUnicodeBlockAndFeature(table, chars, 1);  // i
    var f5 := GetUnicodeBlockAndFeature(table, chars, 2);  // i + 1
    FeatureAtClassifier(table, chars, 0);
    FeatureAtClassifier(table, chars, 1);
    FeatureAtClassifier(table, chars, 2);
    var w3, b3 := f3.0, f3.1;
    var w4, b4 := f4.0, f4.1;
    var w5, b5 := f5.0, f5.1;

    var wb: string := "";  // working buffer for the feature keys
    ghost var splits := Splits(model, table, chars, threshold);

    for i := 1 to |chars|
      invariant (w1, b1) == FeatureAt(table, chars, i - 3)
      invariant (w2, b2) == FeatureAt(table, chars, i - 2)
      invariant (w3, b3) == FeatureAt(table, chars, i - 1)
      invariant (w4, b4) == FeatureAt(table, chars, i)
      invariant (w5, b5) == FeatureAt(table, chars, i + 1)
      invariant History(p1, p2, p3) == HistoryAt(model, table, chars, i)
      invariant buf != "" && out + [buf] == ChunksUpTo(chars, splits, i)
    {
      var f6 := GetUnicodeBlockAndFeature(table, chars, i + 2);
      FeatureAtClassifier(table, chars, i + 2);
      var w6, b6 := f6.0, f6.1;

      var score;
      score, wb := GetFeature(model, wb, Window(w1, w2, w3, w4, w5, w6, b1, b2, b3, b4, b5, b6), History(p1, p2, p3));
      assert Window(w1, w2, w3, w4, w5, w6, b1, b2, b3, b4, b5, b6) == WindowAt(table, chars, i);
      BoundaryStep(model, table, chars, threshold, i, score);

      assert w4 == [chars[i]];
      ChunksUpToStep(chars, splits, i, out, buf);
      if score > threshold {
        out := out + [buf];
        buf := w4;
      } else {
        buf := buf + w4;
      }

      p1 := p2;
      p2 := p3;

      if score > 0 {
        p3 := Positive;
      } else {
        p3 := Negative;
      }

      w1, w2, w3, w4, w5 := w2, w3, w4, w5, w6;
      b1, b2, b3, b4, b5 := b2, b3, b4, b5, b6;
    }

    if buf != "" {
      out := out + [buf];
    }
    SegmentFacts(model, table, chars, threshold);
  }

  /** What the scan learns at boundary i from its score: whether it splits
      there, and the tag history at the next boundary. */
  lemma BoundaryStep(model: Model, table: seq<int>, chars: string, threshold: int, i: nat, score: int)
    requires 1 <= i
    requires score == BoundaryScore(model, WindowAt(table, chars, i), HistoryAt(model, table, chars, i))
    ensures score == ScoreAt(model, table, chars, i)
    ensures i in Splits(model, table, chars, threshold) <==> 1 <= i < |chars| && score > threshold
    ensures HistoryAt(model, table, chars, i + 1) == Push(HistoryAt(model, table, chars, i), TagOf(score))
  {
    SplitsMember(model, table, chars, threshold, i);
  }

  /** parse: the scan with the default threshold. */
  method Parse(model: Model, table: seq<int>, input: string) returns (out: seq<string>)
    ensures out == Segment(model, table, input, DEFAULT_THRESHOLD)
    ensures Concat(out) == input
    ensures ChunkStarts(out) == Splits(model, table, input, DEFAULT_THRESHOLD)
  {
    out := ParseWithThreshold(model, table, input, DEFAULT_THRESHOLD);
    SegmentFacts(model, table, input, DEFAULT_THRESHOLD);
  }

  // ---------------------------------------------------------------------
  // Chunks after each boundary

  /** Starting a new chunk with c extends the joined text by c. */
  lemma JoinAddChunk(prev: seq<string>, c: char)
    ensures Concat(prev + [[c]]) == Concat(prev) + [c]
  {
    ConcatSnoc(prev, [c]);
  }

  /** Growing the last chunk by c extends the joined text by c. */
  lemma JoinGrowLast(prev: seq<string>, c: char)
    requires |prev| >= 1
    ensures Concat(prev[..|prev| - 1] + [prev[|prev| - 1] + [c]]) == Concat(prev) + [c]
  {
    var init, last := prev[..|prev| - 1], prev[|prev| - 1];
    assert prev == init + [last];
    ConcatSnoc(init, last);
    ConcatSnoc(init, last + [c]);
  }

  /** The chunks built so far join back to the text read so far. */
  lemma {:induction false} ChunksUpToRoundTrip(chars: string, cuts: set<nat>, k: nat)
    requires 1 <= k <= |chars|
    ensures Concat(ChunksUpTo(chars, cuts, k)) == chars[..k]
    decreases k
  {
    if k == 1 {
      assert Concat([[chars[0]]]) == [chars[0]] + Concat([]);
      assert chars[..1] == [chars[0]];
    } else {
      ChunksUpToRoundTrip(chars, cuts, k - 1);
      assert chars[..k] == chars[..k - 1] + [chars[k - 1]];
      if k - 1 in cuts {
        JoinAddChunk(ChunksUpTo(chars, cuts, k - 1), chars[k - 1]);
      } else {
        JoinGrowLast(ChunksUpTo(chars, cuts, k - 1), chars[k - 1]);
      }
    }
  }

  /** None of the chunks built so far is empty. */
  lemma {:induction false} ChunksUpToNonEmpty(chars: string, cuts: set<nat>, k: nat)
    requires 1 <= k <= |chars|
    ensures forall j :: 0 <= j < |ChunksUpTo(chars, cuts, k)| ==> ChunksUpTo(chars, cuts, k)[j] != ""
    decreases k
  {
    if k > 1 {
      ChunksUpToNonEmpty(chars, cuts, k - 1);
    }
  }

  /** Deciding boundary k adds k to the cuts so far exactly when it is a cut. */
  lemma CutsBelowStep(cuts: set<nat>, k: nat)
    requires 1 <= k
    ensures k !in CutsBelow(cuts, k)
    ensures CutsBelow(cuts, k + 1) == if k in cuts then CutsBelow(cuts, k) + {k} else CutsBelow(cuts, k)
  {
  }

  /** Deciding boundary k adds one to the number of cuts so far exactly
      when it is a cut. */
  lemma CutsBelowCountStep(cuts: set<nat>, k: nat)
    requires 1 <= k
    ensures |CutsBelow(cuts, k + 1)| == |CutsBelow(cuts, k)| + if k in cuts then 1 else 0
  {
    CutsBelowStep(cuts, k);
  }

  /** One chunk more than there are cuts so far. */
  lemma {:induction false} ChunksUpToCount(chars: string, cuts: set<nat>, k: nat)
    requires 1 <= k <= |chars|
    ensures |ChunksUpTo(chars, cuts, k)| == 1 + |CutsBelow(cuts, k)|
    decreases k
  {
    if k == 1 {
      assert CutsBelow(cuts, 1) == {};
    } else {
      ChunksUpToCount(chars, cuts, k - 1);
      CutsBelowCountStep(cuts, k - 1);
    }
  }

  /** Appending a chunk adds one start: the length of the text before it. */
  lemma ChunkStartsSnoc(chunks: seq<string>, x: string)
    requires |chunks| >= 1
    ensures ChunkStarts(chunks + [x]) == ChunkStarts(chunks) + {|Concat(chunks)|}
  {
  }

  /** Growing the last chunk moves no start. */
  lemma ChunkStartsReplaceLast(chunks: seq<string>, x: string)
    requires |chunks| >= 1
    ensures ChunkStarts(chunks[..|chunks| - 1] + [x]) == ChunkStarts(chunks)
  {
  }

  /** Deciding boundary k-1 adds it to the chunk starts exactly when it
      is a cut. */
  lemma ChunksUpToStartsStep(chars: string, cuts: set<nat>, k: nat)
    requires 2 <= k <= |chars|
    ensures ChunkStarts(ChunksUpTo(chars, cuts, k)) ==
              if k - 1 in cuts then ChunkStarts(ChunksUpTo(chars, cuts, k - 1)) + {k - 1}
              else ChunkStarts(ChunksUpTo(chars, cuts, k - 1))
  {
    var prev := ChunksUpTo(chars, cuts, k - 1);
    assert |Concat(prev)| == k - 1 by {
      ChunksUpToRoundTrip(chars, cuts, k - 1);
    }
    if k - 1 in cuts {
      ChunkStartsSnoc(prev, [chars[k - 1]]);
    } else {
      ChunkStartsReplaceLast(prev, prev[|prev| - 1] + [chars[k - 1]]);
    }
  }

  /** The chunks built so far start exactly at the cuts so far. */
  lemma {:induction false} ChunksUpToStarts(chars: string, cuts: set<nat>, k: nat)
    requires 1 <= k <= |chars|
    ensures ChunkStarts(ChunksUpTo(chars, cuts, k)) == CutsBelow(cuts, k)
    decreases k
  {
    if k == 1 {
      assert CutsBelow(cuts, 1) == {};
    } else {
      ChunksUpToStarts(chars, cuts, k - 1);
      ChunksUpToStartsStep(chars, cuts, k);
      CutsBelowStep(cuts, k - 1);
    }
  }

  /** One step of the scan: character i starts a new chunk at a cut and
      joins the chunk in progress otherwise. */
  lemma ChunksUpToStep(chars: string, cuts: set<nat>, i: nat, out: seq<string>, buf: string)
    requires 1 <= i < |chars|
    requires out + [buf] == ChunksUpTo(chars, cuts, i)
    ensures ChunksUpTo(chars, cuts, i + 1) ==
              if i in cuts then (out + [buf]) + [[chars[i]]] else out + [buf + [chars[i]]]
  {
  }

  /** Without a cut, the text read so far is a single chunk. */
  lemma {:induction false} ChunksUpToNoCuts(chars: string, cuts: set<nat>, k: nat)
    requires 1 <= k <= |chars|
    requires forall i :: 1 <= i < k ==> i !in cuts
    ensures ChunksUpTo(chars, cuts, k) == [chars[..k]]
    decreases k
  {
    if k == 1 {
      assert chars[..1] == [chars[0]];
    } else {
      ChunksUpToNoCuts(chars, cuts, k - 1);
      var prev := ChunksUpTo(chars, cuts, k - 1);
      assert k - 1 !in cuts;
      assert ChunksUpTo(chars, cuts, k) == [prev[0] + [chars[k - 1]]];
      assert chars[..k] == chars[..k - 1] + [chars[k - 1]];
    }
  }

  // ---------------------------------------------------------------------
  // What the segmentation is, for any set of cuts

  /** Round trip: the chunks joined in order give back the input exactly,
      wherever the cuts fall. */
  lemma ChunksRoundTrip(chars: string, cuts: set<nat>)
    ensures Concat(Chunks(chars, cuts)) == chars
  {
    if |chars| <= 1 {
      ConcatSnoc([], chars);
      assert [] + [chars] == [chars];
    } else {
      ChunksUpToRoundTrip(chars, cuts, |chars|);
    }
  }

  /** No chunk of a non-empty input is empty (so the final flush of the
      scan always emits the chunk in progress). */
  lemma ChunksNonEmpty(chars: string, cuts: set<nat>)
    requires |chars| >= 1
    ensures forall j :: 0 <= j < |Chunks(chars, cuts)| ==> Chunks(chars, cuts)[j] != ""
  {
    if |chars| > 1 {
      ChunksUpToNonEmpty(chars, cuts, |chars|);
    }
  }

  /** There is one chunk more than there are cuts inside the input. */
  lemma ChunksCount(chars: string, cuts: set<nat>)
    ensures |Chunks(chars, cuts)| == 1 + |CutsBelow(cuts, |chars|)|
  {
    if |chars| <= 1 {
      assert CutsBelow(cuts, |chars|) == {};
    } else {
      ChunksUpToCount(chars, cuts, |chars|);
    }
  }

  /** The chunks start exactly at the cuts inside the input: a chunk other
      than the first starts at offset i if and only if i is a cut. */
  lemma ChunksStartAtCuts(chars: string, cuts: set<nat>)
    ensures ChunkStarts(Chunks(chars, cuts)) == CutsBelow(cuts, |chars|)
  {
    if |chars| <= 1 {
      assert CutsBelow(cuts, |chars|) == {};
      assert ChunkStarts([chars]) == {};
    } else {
      ChunksUpToStarts(chars, cuts, |chars|);
    }
  }

  /** Fewer cuts never give more chunks. */
  lemma ChunksFewerCuts(chars: string, fewer: set<nat>, more: set<nat>)
    requires fewer <= more
    ensures |Chunks(chars, fewer)| <= |Chunks(chars, more)|
  {
    var lo, hi := CutsBelow(fewer, |chars|), CutsBelow(more, |chars|);
    assert hi == lo + (hi - lo);
    ChunksCount(chars, fewer);
    ChunksCount(chars, more);
  }

  /** Without a cut inside the input, the input is the only chunk. */
  lemma ChunksNoCuts(chars: string, cuts: set<nat>)
    requires forall i :: 1 <= i < |chars| ==> i !in cuts
    ensures Chunks(chars, cuts) == [chars]
  {
    if |chars| > 1 {
      ChunksUpToNoCuts(chars, cuts, |chars|);
      assert chars[..|chars|] == chars;
    }
  }

  /** The split boundaries all lie inside the input. */
  lemma SplitsInside(model: Model, table: seq<int>, chars: string, threshold: int)
    ensures CutsBelow(Splits(model, table, chars, threshold), |chars|) == Splits(model, table, chars, threshold)
  {
    forall i | i in Splits(model, table, chars, threshold)
      ensures 1 <= i < |chars|
    {
      SplitsMember(model, table, chars, threshold, i);
    }
  }

  /** The facts above for the segmentation, as the scan states them: it
      joins back to the input, no chunk of a non-empty input is empty, and
      the chunks start exactly at the splits, one chunk more than there
      are splits. */
  lemma SegmentFacts(model: Model, table: seq<int>, chars: string, threshold: int)
    ensures Concat(Segment(model, table, chars, threshold)) == chars
    ensures |chars| >= 1 ==> forall j :: 0 <= j < |Segment(model, table, chars, threshold)| ==>
              Segment(model, table, chars, threshold)[j] != ""
    ensures |Segment(model, table, chars, threshold)| == 1 + |Splits(model, table, chars, threshold)|
    ensures ChunkStarts(Segment(model, table, chars, threshold)) == Splits(model, table, chars, threshold)
  {
    var splits := Splits(model, table, chars, threshold);
    SplitsInside(model, table, chars, threshold);
    ChunksRoundTrip(chars, splits);
    if |chars| >= 1 {
      ChunksNonEmpty(chars, splits);
    }
    ChunksCount(chars, splits);
    ChunksStartAtCuts(chars, splits);
  }

  // ---------------------------------------------------------------------
  // The tag history and the threshold

  /** The tag history at a boundary records the tags of the three boundaries
      before it, each positive iff that boundary's score is positive, and
      unknown where there is no such boundary. */
  lemma HistoryRecent(model: Model, table: seq<int>, chars: string, i: nat)
    requires i >= 1
    ensures HistoryAt(model, table, chars, i).p3 ==
              if i >= 2 then TagOf(ScoreAt(model, table, chars, i - 1)) else Unknown
    ensures HistoryAt(model, table, chars, i).p2 ==
              if i >= 3 then TagOf(ScoreAt(model, table, chars, i - 2)) else Unknown
    ensures HistoryAt(model, table, chars, i).p1 ==
              if i >= 4 then TagOf(ScoreAt(model, table, chars, i - 3)) else Unknown
  {
  }

  /** A higher threshold splits at a subset of the boundaries, so it never
      yields more chunks. */
  lemma ThresholdMonotone(model: Model, table: seq<int>, chars: string, t1: int, t2: int)
    requires t1 <= t2
    ensures Splits(model, table, chars, t2) <= Splits(model, table, chars, t1)
    ensures |Segment(model, table, chars, t2)| <= |Segment(model, table, chars, t1)|
  {
    var s1, s2 := Splits(model, table, chars, t1), Splits(model, table, chars, t2);
    forall i | i in s2
      ensures i in s1
    {
      SplitsMember(model, table, chars, t1, i);
      SplitsMember(model, table, chars, t2, i);
    }
    ChunksFewerCuts(chars, s2, s1);
  }

  /** A threshold at least every boundary score yields the whole input as
      a single chunk. */
  lemma LargeThresholdSingleChunk(model: Model, table: seq<int>, chars: string, threshold: int)
    requires forall i :: 1 <= i < |chars| ==> ScoreAt(model, table, chars, i) <= threshold
    ensures Segment(model, table, chars, threshold) == [chars]
  {
    forall i | 1 <= i < |chars|
      ensures i !in Splits(model, table, chars, threshold)
    {
      SplitsMember(model, table, chars, threshold, i);
    }
    ChunksNoCuts(chars, Splits(model, table, chars, threshold));
  }

  /** With every weight within `bound` in magnitude, a threshold of at least
      42 times the bound leaves the input in one piece, as the documented
      call with threshold 100000000 does. */
  lemma BoundedWeightsSingleChunk(model: Model, table: seq<int>, chars: string, threshold: int, bound: int)
    requires 0 <= bound
    requires forall k :: k in model ==> -bound <= model[k] <= bound
    requires CATALOGUE_SIZE * bound <= threshold
    ensures Segment(model, table, chars, threshold) == [chars]
  {
    forall i | 1 <= i < |chars|
      ensures ScoreAt(model, table, chars, i) <= threshold
    {
      ScoreBound(model, WindowAt(table, chars, i), HistoryAt(model, table, chars, i), CATALOGUE_SIZE, bound);
    }
    LargeThresholdSingleChunk(model, table, chars, threshold);
  }
}

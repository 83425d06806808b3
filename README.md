# budoux-rs segmentation engine in Dafny

This project models the segmentation engine of budoux-rs, a Rust port of
Google BudouX. The engine splits unsegmented text (Japanese, Chinese, ...)
into chunks that are safe places for a line break, in one left-to-right pass:

- **Window.** Each boundary between two characters is scored from a sliding
  window of six characters around it, together with their Unicode block codes.
- **History.** The window is combined with the decision tags of the three
  previous boundaries (`U` unknown, `B` positive, `O` non-positive).
- **Score.** The score is the sum of a trained model's weights over a fixed
  catalogue of 42 feature keys. A missing key weighs 0.
- **Split.** A new chunk starts wherever the score exceeds the threshold.
  The tag recorded for the boundary is `B` when the score is positive and
  `O` otherwise, whatever the threshold.

The project is organised in four modules:

- `Strings` (`strings.dfy`): concatenation of a sequence of strings.
- `UnicodeBlocks` (`unicode_blocks.dfy`): `get_unicode_block_and_feature`.
  - The binary search over the block table.
  - The insertion-point reference `CountBelow`.
  - The zero-padded 3-digit rendering of the block position, with its
    decimal read-back.
- `Features` (`features.dfy`):
  - the decision tags and their history;
  - the window;
  - the 42-key catalogue;
  - `key` over a scratch buffer;
  - `get_feature`.

  The 42 straight-line `score +=` steps of `get_feature` are grouped into
  eleven methods, one per key family as the source's comments group them.
  Each method is proved to add exactly the weights of its own catalogue
  positions.
- `Budoux` (`budoux.dfy`): the scan `parse_with_threshold` and `parse`.
  - The scan is specified by functions of the input:
    - `FeatureAt` / `WindowAt`: the window at a boundary;
    - `HistoryAt`: the tag history;
    - `ScoreAt`: the score;
    - `Splits`: the split boundaries;
    - `ChunksUpTo` / `Chunks`: the chunks of a text under any set of cut
      boundaries, after each boundary and at the end;
    - `Segment`: the result, the chunks under the split boundaries.
  - The imperative loop is proved to compute exactly that. Its invariants
    carry the window, the history and the chunks.
  - Lemmas state what the chunks are, first for any set of cuts and then
    for the splits.

The trained model is a parameter `map<string, int>`. The block table is a
parameter `seq<int>`. The classifier's guarantees hold on a strictly
increasing table, which is what the engine ships. Text is `seq<char>`, that
is, a sequence of Unicode scalar values, which is what `str::chars` yields.
No chunk can therefore split a code point.

## Model

| member | source | states |
|---|---|---|
| UnicodeBlocks.SearchRange | src/lib.rs:158 | A binary-search hit inside table[lo..hi] is a real match at an index in the range; a miss reports an index within the range. |
| UnicodeBlocks.SearchRangeMiss | src/lib.rs:158-161 | On a strictly increasing table whose entries outside the range already lie on the correct side, a miss reports the point splitting the table into entries below and entries above the code point. |
| UnicodeBlocks.BinarySearch | src/lib.rs:158 | `binary_search`: a hit names an index holding the code point; a miss reports a position within the table (at most its length). |
| UnicodeBlocks.BinarySearchMiss | src/lib.rs:158-161 | On a sorted table the search misses exactly when the code point is absent, and the miss reports the number of entries below it, which is the insertion point. |
| UnicodeBlocks.BlockPosition | src/lib.rs:158-161 | The block position (match index + 1, or the insertion point) never exceeds the table size. |
| UnicodeBlocks.BlockPositionCounts | src/lib.rs:158-161 | On a sorted table an exact hit at entry k gives k+1, and in every case the position equals the number of entries at or below the code point. |
| UnicodeBlocks.BlockPositionMonotone | src/lib.rs:158-161 | On a sorted table a larger code point never gets a smaller block position. |
| UnicodeBlocks.DecimalDigitsRoundTrip | src/lib.rs:163 | The decimal rendering of a position consists of digits only, reads back as that position, and has 1, at most 2 or at most 3 digits below 10, 100 and 1000. |
| UnicodeBlocks.ZeroPad3 | src/lib.rs:163 | `format!("{:>03}", pos)`: the decimal digits of pos, zero-filled on the left to width 3; its properties are stated by BlockCodeFormat. |
| UnicodeBlocks.BlockCodeFormat | src/lib.rs:163 | `format!("{:>03}", pos)`: at least three characters (exactly three below 1000), all decimal digits, reading back as pos, so distinct positions get distinct codes; from 100 up the code is the bare decimal digits, with no zero added. |
| UnicodeBlocks.GetUnicodeBlockAndFeature | src/lib.rs:150-164 | An index past the end gives `("", "▔")`; an index in range gives the character as a one-character string and a block code of at least three characters that is never the sentinel. |
| UnicodeBlocks.BlockCodeOf | src/lib.rs:155-163 | An in-range block code is all digits; on a sorted table it reads back as the number of entries at or below the character's code point; a table under 1000 entries gives exactly three digits. |
| Features.Tag.Text | src/lib.rs:94-96 | The strings the tags put into the keys: `"U"` unknown, `"B"` positive (line 124), `"O"` non-positive (line 126). |
| Features.TagOf | src/lib.rs:123-127 | The tag of a boundary is `B` exactly when its score is positive, whatever the threshold; HistoryRecent and BoundaryStep state this of the scan. |
| Features.Push | src/lib.rs:120-127 | One tag rotation: p1 takes p2, p2 takes p3, p3 takes the new tag; HistoryRecent states the resulting history. |
| Features.Weight | src/lib.rs:189-241 | `model.get(key).unwrap_or(&0)`: a key's weight, 0 when the model lacks it; ScoreBound and ScoreReadsOnlyCatalogue rest on it. |
| Features.CataloguePieces | src/lib.rs:189-241 | The pieces of the 42 keys in the order they are scored, one family prefix followed by the window values of each `key(...)` call; the Add* methods are proved against it. |
| Features.CatalogueKey | src/lib.rs:189-241 | The n-th key is its pieces joined with no separator, as `key` builds it; Key and GetFeature are proved to build exactly these keys. |
| Features.PartialScore | src/lib.rs:187-243 | The running score after the first n `score +=` steps; each Add* method is proved to reach it. |
| Features.BoundaryScore | src/lib.rs:168-244 | The value `get_feature` returns, the sum over all 42 keys; GetFeature is proved to return it, ScoreBound bounds it. |
| Features.ScoreBound | src/lib.rs:187-243 | With every weight within ±bound, the sum over the first n keys lies within ±bound·n, so the boundary score lies within ±42·bound. |
| Features.ScoreReadsOnlyCatalogue | src/lib.rs:189-241 | Two models that agree on the weights of the catalogue keys (a missing key as 0) give the same score: the score reads nothing else of the model. |
| Features.Key | src/lib.rs:247-254 | `key` leaves in the buffer, and returns, exactly the in-order concatenation of the pieces; nothing it held before survives. |
| Features.AddPreviousUnigrams | src/lib.rs:189-192 | Building the UP1-UP3 keys adds the weights of catalogue positions 0-2 to the running score. |
| Features.AddPreviousBigrams | src/lib.rs:193-195 | Building the BP1-BP2 keys adds the weights of positions 3-4. |
| Features.AddCharacterUnigrams | src/lib.rs:196-202 | Building the UW1-UW6 keys adds the weights of positions 5-10. |
| Features.AddCharacterBigrams | src/lib.rs:203-206 | Building the BW1-BW3 keys adds the weights of positions 11-13. |
| Features.AddCharacterTrigrams | src/lib.rs:207-211 | Building the TW1-TW4 keys adds the weights of positions 14-17. |
| Features.AddBlockUnigrams | src/lib.rs:212-218 | Building the UB1-UB6 keys adds the weights of positions 18-23. |
| Features.AddBlockBigrams | src/lib.rs:219-222 | Building the BB1-BB3 keys adds the weights of positions 24-26. |
| Features.AddBlockTrigrams | src/lib.rs:223-227 | Building the TB1-TB4 keys adds the weights of positions 27-30. |
| Features.AddTagBlockUnigrams | src/lib.rs:228-231 | Building the UQ1-UQ3 keys adds the weights of positions 31-33. |
| Features.AddTagBlockBigrams | src/lib.rs:232-236 | Building the BQ1-BQ4 keys adds the weights of positions 34-37. |
| Features.AddTagBlockTrigrams | src/lib.rs:237-241 | Building the TQ1-TQ4 keys adds the weights of positions 38-41. |
| Features.GetFeature | src/lib.rs:168-244 | `get_feature` returns the sum, over the 42 catalogue keys, of the model's weight with a missing key counting 0; the scratch buffer ends holding the last key. |
| Budoux.BlockCodesAt | src/lib.rs:98-107 | Entry j of the block codes the window reads is the block code the classifier reports for character j. |
| Budoux.FeatureAt | src/lib.rs:98-107 | A window slot for an in-range position holds that character and a block code that is never the sentinel; an out-of-range slot holds `("", "▔")`. |
| Budoux.FeatureAtClassifier | src/lib.rs:98-107 | Every window slot the scan fills (positions 0, 1, 2, then i+2) is exactly what `get_unicode_block_and_feature` returns for that position. |
| Budoux.WindowAt | src/lib.rs:98-107 | The window at boundary i is the classifier's pairs for positions i-3 to i+2, which the shifts at src/lib.rs:129-139 keep in place; the loop invariants of ParseWithThreshold tie the six variables to it. |
| Budoux.HistoryAt | src/lib.rs:94-96 | The tags in force at boundary i: `U U U` at the first boundary, then one rotation per boundary (src/lib.rs:120-127) pushing the tag of that boundary's score; HistoryRecent states it. |
| Budoux.ScoreAt | src/lib.rs:109-111 | The score of boundary i, `get_feature` over the window and history at i; BoundaryStep ties the loop's score to it. |
| Budoux.Splits | src/lib.rs:113-118 | The boundaries at which the scan starts a new chunk; SplitsMember states which they are. |
| Budoux.SplitsBelowMember | src/lib.rs:106-118 | Among the boundaries decided before k, a boundary is a split exactly when it lies in 1..k-1 and its score exceeds the threshold. |
| Budoux.SplitsMember | src/lib.rs:106-118 | A boundary is a split of the text exactly when it lies in 1..len-1 and its score is strictly above the threshold. |
| Budoux.SplitsInside | src/lib.rs:106 | Every split lies among the boundaries 1..len-1 the loop visits. |
| Budoux.BoundaryStep | src/lib.rs:109-127 | The score the loop computes at boundary i is the specified score; the loop splits there exactly when that score exceeds the threshold; the next history shifts the tags and records `B` iff the score is positive. |
| Budoux.ParseWithThreshold | src/lib.rs:84-147 | Returns exactly the specified segmentation `Segment`, and so: it joins back to the input; an input of at most one character comes back as `[input]`; no chunk of a non-empty input is empty; there is one chunk more than there are boundaries scoring above the threshold; new chunks start exactly at those boundaries. |
| Budoux.Parse | src/lib.rs:55-57 | `parse` is the segmentation at threshold 1000; it joins back to the input and starts new chunks exactly where a score exceeds 1000. |
| Budoux.ChunksUpTo | src/lib.rs:91-118 | `out` followed by `buf` after each boundary, under any set of cut boundaries; the ChunksUpTo* lemmas state what it is. |
| Budoux.Chunks | src/lib.rs:84-147 | The chunks of the whole input under a set of cuts, `[input]` for at most one character (src/lib.rs:87-89); the Chunks* lemmas state what they are. |
| Budoux.Segment | src/lib.rs:84-147 | What `parse_with_threshold` returns, the chunks under the splits; ParseWithThreshold is proved to return it, and SegmentFacts, ThresholdMonotone and the single-chunk lemmas state its properties. |
| Budoux.ChunkStarts | src/lib.rs:113-118 | The text offsets where the second, third, ... chunks start; ChunksStartAtCuts and ParseWithThreshold state them. |
| Budoux.ChunksUpToRoundTrip | src/lib.rs:92-118 | After any number of boundaries, the finished chunks and the chunk in progress join to the text read so far. |
| Budoux.ChunksUpToNonEmpty | src/lib.rs:113-118 | The chunks built so far are all non-empty. |
| Budoux.ChunksUpToCount | src/lib.rs:113-118 | After each boundary there is one chunk more than there were cuts so far. |
| Budoux.ChunksUpToStartsStep | src/lib.rs:113-118 | Deciding a boundary adds its offset to the chunk starts exactly when it is a cut, and adds nothing otherwise. |
| Budoux.ChunksUpToStarts | src/lib.rs:113-118 | The chunks built so far start exactly at the cuts so far. |
| Budoux.ChunksUpToStep | src/lib.rs:113-118 | A step lemma of the loop proof: ChunksUpTo after one more boundary, written over the loop's `out` and `buf` (at a cut `buf` is pushed and the character starts a new one; otherwise it joins `buf`). |
| Budoux.ChunksUpToNoCuts | src/lib.rs:113-118 | With no cut so far, the text read so far is one chunk. |
| Budoux.ChunksRoundTrip | src/lib.rs:84-147 | Wherever the cuts fall, the chunks joined in order give back the input exactly (including `""` giving `[""]`). |
| Budoux.ChunksNonEmpty | src/lib.rs:142-144 | Every chunk of a non-empty input is non-empty, so the final flush of the buffer always fires. |
| Budoux.ChunksCount | src/lib.rs:113-118 | The number of chunks is one plus the number of cuts among the boundaries 1..len-1. |
| Budoux.ChunksStartAtCuts | src/lib.rs:113-118 | The offsets where the second, third, ... chunks start are exactly the cuts among the boundaries 1..len-1. |
| Budoux.ChunksFewerCuts | src/lib.rs:113-118 | Fewer cuts never give more chunks. |
| Budoux.ChunksNoCuts | src/lib.rs:113-118 | Without a cut inside the input, the input comes back whole as the only chunk. |
| Budoux.SegmentFacts | src/lib.rs:84-147 | For the split boundaries: the round trip, non-emptiness, the chunk count and the chunk starts together. |
| Budoux.HistoryRecent | src/lib.rs:120-127 | At every boundary p3, p2 and p1 are the tags (`B` iff the score is positive) of the previous three boundaries' scores, or `U` where there is no such boundary; the threshold plays no part. |
| Budoux.ThresholdMonotone | src/lib.rs:113-127 | A higher threshold splits at a subset of the boundaries a lower one splits at, so it never yields more chunks. |
| Budoux.LargeThresholdSingleChunk | src/lib.rs:76-83 | A threshold at least every boundary score returns the whole input as its only chunk. |
| Budoux.BoundedWeightsSingleChunk | src/lib.rs:76-83 | With every weight within ±bound, any threshold from 42·bound up returns the whole input as one chunk. |

## Left out

- The per-language models under `src/models` are left out. They are lazy statics that parse embedded JSON, which is loading only. The model is a parameter map.
- The contents of the `unicode_blocks` table are left out. `src/unicode_blocks.rs` is not part of this model. The table is a parameter, and the classifier's properties are stated for any strictly increasing table.
- The concrete segmentations in the tests are left out, for example `"水と油"` giving `["水と", "油"]`. They depend on trained weights that are not modelled. Only the round trip and the structural properties are proved.
- The concrete block codes in the classifier tests are left out (`"001"` for `a`, `"108"` for `あ`). They depend on the table's contents. The padding and read-back of any code are proved instead.
- The capacity assertion on the scratch buffer (src/lib.rs:388) is left out. It is an allocation detail.
- `HashMap` hashing is left out. The model is a mathematical map, and a lookup miss weighs 0.
- `i32` overflow is not modelled. The score and the threshold are unbounded integers. The Rust sum would panic in a debug build or wrap in a release build on overflow. `Features.ScoreBound` bounds the score by the weights instead.
- Key: the `&mut String` scratch buffer is passed in and returned as a value, so its reuse of one allocation is not modelled.
- UnicodeBlocks.BinarySearch: the probe order is a plain midpoint search, not the standard library's exact one. Rust leaves the result unspecified on an unsorted table. On a strictly increasing table a hit's index and a miss's insertion point are unique, so the guarantees are stated for that case only.
- The conversion of the `&str` input into characters is taken as given. The input is modelled as its sequence of characters, so UTF-8 encoding is not modelled.

/** The feature extractor and score accumulator: the decision-tag history,
    the six-wide window, the catalogue of 42 feature keys built from them,
    the key builder over a reused scratch buffer, and the sum of the
    model's weights over the catalogue. */
module Features {
  import opened Strings

  /** A decision tag of an earlier boundary; Text() is the string that
      goes into the feature keys. */
  datatype Tag = Unknown | Positive | Negative
  {
    function Text(): string
    {
      match this
      case Unknown => "U"
      case Positive => "B"
      case Negative => "O"
    }
  }

  /** The tags of the 3rd, 2nd and 1st most recent boundaries (p1 is the
      oldest, p3 the latest). */
  datatype History = History(p1: Tag, p2: Tag, p3: Tag)

  const Initial: History := History(Unknown, Unknown, Unknown)

  /** The tag recorded for a boundary: positive iff its score is positive,
      whatever the split threshold. */
  function TagOf(score: int): Tag
  {
    if score > 0 then Positive else Negative
  }

  /** The history after one more boundary: the oldest tag drops out. */
  function Push(h: History, t: Tag): History
  {
    History(h.p2, h.p3, t)
  }

  /** The six characters around a boundary (positions i-3 .. i+2) and their
      block codes. */
  datatype Window = Window(w1: string, w2: string, w3: string, w4: string, w5: string, w6: string,
                           b1: string, b2: string, b3: string, b4: string, b5: string, b6: string)

  /** The number of feature keys scored at each boundary. */
  const CATALOGUE_SIZE: nat := 42

  /** The trained model: feature key to weight. */
  type Model = map<string, int>

  /** A missing key weighs nothing. */
  function Weight(model: Model, key: string): int
  {
    if key in model then model[key] else 0
  }

  /** The catalogue of 42 feature keys of a boundary, by position in the
      order they are scored; each key is a family tag followed by one to
      four window values. Positions 0-4 hold the decision-tag families,
      5-17 the character families, 18-30 the block families and 31-41 the
      families crossing tags with block codes. */
  function CataloguePieces(win: Window, h: History, n: nat): seq<string>
    requires n < CATALOGUE_SIZE
  {
    if n < 18 then
      if n < 5 then DecisionPieces(h, n) else CharacterPieces(win, n - 5)
    else
      if n < 31 then BlockPieces(win, n - 18) else CrossPieces(win, h, n - 31)
  }

  /** Catalogue positions 0-4: the decision-tag families UP and BP. */
  function DecisionPieces(h: History, j: nat): seq<string>
    requires j < 5
  {
    var p1, p2, p3 := h.p1.Text(), h.p2.Text(), h.p3.Text();
    match j
    case 0 => ["UP1:", p1]
    case 1 => ["UP2:", p2]
    case 2 => ["UP3:", p3]
    case 3 => ["BP1:", p1, p2]
    case 4 => ["BP2:", p2, p3]
  }

  /** Catalogue positions 5-17: the character families UW, BW and TW. */
  function CharacterPieces(win: Window, j: nat): seq<string>
    requires j < 13
  {
    match j
    case 0 => ["UW1:", win.w1]
    case 1 => ["UW2:", win.w2]
    case 2 => ["UW3:", win.w3]
    case 3 => ["UW4:", win.w4]
    case 4 => ["UW5:", win.w5]
    case 5 => ["UW6:", win.w6]
    case 6 => ["BW1:", win.w2, win.w3]
    case 7 => ["BW2:", win.w3, win.w4]
    case 8 => ["BW3:", win.w4, win.w5]
    case 9 => ["TW1:", win.w1, win.w2, win.w3]
    case 10 => ["TW2:", win.w2, win.w3, win.w4]
    case 11 => ["TW3:", win.w3, win.w4, win.w5]
    case 12 => ["TW4:", win.w4, win.w5, win.w6]
  }

  /** Catalogue positions 18-30: the block families UB, BB and TB. */
  function BlockPieces(win: Window, j: nat): seq<string>
    requires j < 13
  {
    match j
    case 0 => ["UB1:", win.b1]
    case 1 => ["UB2:", win.b2]
    case 2 => ["UB3:", win.b3]
    case 3 => ["UB4:", win.b4]
    case 4 => ["UB5:", win.b5]
    case 5 => ["UB6:", win.b6]
    case 6 => ["BB1:", win.b2, win.b3]
    case 7 => ["BB2:", win.b3, win.b4]
    case 8 => ["BB3:", win.b4, win.b5]
    case 9 => ["TB1:", win.b1, win.b2, win.b3]
    case 10 => ["TB2:", win.b2, win.b3, win.b4]
    case 11 => ["TB3:", win.b3, win.b4, win.b5]
    case 12 => ["TB4:", win.b4, win.b5, win.b6]
  }

  /** Catalogue positions 31-41: the decision tags crossed with block codes: UQ, BQ and TQ. */
  function CrossPieces(win: Window, h: History, j: nat): seq<string>
    requires j < 11
  {
    var p1, p2, p3 := h.p1.Text(), h.p2.Text(), h.p3.Text();
    match j
    case 0 => ["UQ1:", p1, win.b1]
    case 1 => ["UQ2:", p2, win.b2]
    case 2 => ["UQ3:", p3, win.b3]
    case 3 => ["BQ1:", p2, win.b2, win.b3]
    case 4 => ["BQ2:", p2, win.b3, win.b4]
    case 5 => ["BQ3:", p3, win.b2, win.b3]
    case 6 => ["BQ4:", p3, win.b3, win.b4]
    case 7 => ["TQ1:", p2, win.b1, win.b2, win.b3]
    case 8 => ["TQ2:", p2, win.b2, win.b3, win.b4]
    case 9 => ["TQ3:", p3, win.b1, win.b2, win.b3]
    case 10 => ["TQ4:", p3, win.b2, win.b3, win.b4]
  }

  /** The n-th feature key: its pieces joined with no separator. */
  function CatalogueKey(win: Window, h: History, n: nat): string
    requires n < CATALOGUE_SIZE
  {
    Concat(CataloguePieces(win, h, n))
  }

  /** The sum of the weights of the first n catalogue keys, in the order
      they are scored. */
  function PartialScore(model: Model, win: Window, h: History, n: nat): int
    requires n <= CATALOGUE_SIZE
  {
    if n == 0 then 0
    else PartialScore(model, win, h, n - 1) + Weight(model, CatalogueKey(win, h, n - 1))
  }

  /** The score of a boundary: the sum over the whole catalogue. */
  function BoundaryScore(model: Model, win: Window, h: History): int
  {
    PartialScore(model, win, h, CATALOGUE_SIZE)
  }

  /** Weights bounded by `bound` in magnitude give a partial score bounded
      by `bound` times the number of keys summed; the boundary score lies
      within 42 times the bound. */
  lemma {:induction false} ScoreBound(model: Model, win: Window, h: History, n: nat, bound: int)
    requires n <= CATALOGUE_SIZE && 0 <= bound
    requires forall k :: k in model ==> -bound <= model[k] <= bound
    ensures -bound * n <= PartialScore(model, win, h, n) <= bound * n
  {
    if n > 0 {
      ScoreBound(model, win, h, n - 1, bound);
      var k := CatalogueKey(win, h, n - 1);
      assert -bound <= Weight(model, k) <= bound;
      assert bound * n == bound * (n - 1) + bound;
    }
  }

  /** A boundary's score depends on the model only through the weights of
      its own catalogue keys (a missing key counting 0): two models that
      agree there score alike. */
  lemma {:induction false} ScoreReadsOnlyCatalogue(m1: Model, m2: Model, win: Window, h: History, n: nat)
    requires n <= CATALOGUE_SIZE
    requires forall j :: 0 <= j < n ==> Weight(m1, CatalogueKey(win, h, j)) == Weight(m2, CatalogueKey(win, h, j))
    ensures PartialScore(m1, win, h, n) == PartialScore(m2, win, h, n)
  {
    if n > 0 {
      ScoreReadsOnlyCatalogue(m1, m2, win, h, n - 1);
    }
  }

  /** key: the scratch buffer `buf` is cleared and the pieces appended to it
      in order; the buffer afterwards (which is also the key) is the exact
      concatenation of the pieces, and nothing it held before survives. */
  method Key(buf: string, params: seq<string>) returns (buf': string)
    ensures buf' == Concat(params)
  {
    buf' := "";
    for i := 0 to |params|
      invariant buf' == Concat(params[..i])
    {
      assert params[..i + 1] == params[..i] + [params[i]];
      ConcatSnoc(params[..i], params[i]);
      buf' := buf' + params[i];
    }
    assert params[..|params|] == params;
  }

  /** UP: unigrams of the decision tags (catalogue positions 0-2), added to the running score. */
  method AddPreviousUnigrams(model: Model, buf: string, win: Window, h: History, score: int) returns (score': int, buf': string)
    requires score == PartialScore(model, win, h, 0)
    ensures score' == PartialScore(model, win, h, 3)
    ensures buf' == CatalogueKey(win, h, 2)
  {
    var p1, p2, p3 := h.p1.Text(), h.p2.Text(), h.p3.Text();
    score', buf' := score, buf;
    buf' := Key(buf', ["UP1:", p1]); score' := score' + Weight(model, buf');
    assert score' == PartialScore(model, win, h, 1);
    buf' := Key(buf', ["UP2:", p2]); score' := score' + Weight(model, buf');
    assert score' == PartialScore(model, win, h, 2);
    buf' := Key(buf', ["UP3:", p3]); score' := score' + Weight(model, buf');
    assert score' == PartialScore(model, win, h, 3);
  }

  /** BP: bigrams of the decision tags (catalogue positions 3-4), added to the running score. */
  method AddPreviousBigrams(model: Model, buf: string, win: Window, h: History, score: int) returns (score': int, buf': string)
    requires score == PartialScore(model, win, h, 3)
    ensures score' == PartialScore(model, win, h, 5)
    ensures buf' == CatalogueKey(win, h, 4)
  {
    var p1, p2, p3 := h.p1.Text(), h.p2.Text(), h.p3.Text();
    score', buf' := score, buf;
    buf' := Key(buf', ["BP1:", p1, p2]); score' := score' + Weight(model, buf');
    assert score' == PartialScore(model, win, h, 4);
    buf' := Key(buf', ["BP2:", p2, p3]); score' := score' + Weight(model, buf');
    assert score' == PartialScore(model, win, h, 5);
  }

  /** UW: unigrams of the window characters (catalogue positions 5-10), added to the running score. */
  method AddCharacterUnigrams(model: Model, buf: string, win: Window, h: History, score: int) returns (score': int, buf': string)
    requires score == PartialScore(model, win, h, 5)
    ensures score' == PartialScore(model, win, h, 11)
    ensures buf' == CatalogueKey(win, h, 10)
  {
    var w1, w2, w3, w4, w5, w6 := win.w1, win.w2, win.w3, win.w4, win.w5, win.w6;
    score', buf' := score, buf;
    buf' := Key(buf', ["UW1:", w1]); score' := score' + Weight(model, buf');
    assert score' == PartialScore(model, win, h, 6);
    buf' := Key(buf', ["UW2:", w2]); score' := score' + Weight(model, buf');
    assert score' == PartialScore(model, win, h, 7);
    buf' := Key(buf', ["UW3:", w3]); score' := score' + Weight(model, buf');
    assert score' == PartialScore(model, win, h, 8);
    buf' := Key(buf', ["UW4:", w4]); score' := score' + Weight(model, buf');
    assert score' == PartialScore(model, win, h, 9);
    buf' := Key(buf', ["UW5:", w5]); score' := score' + Weight(model, buf');
    assert score' == PartialScore(model, win, h, 10);
    buf' := Key(buf', ["UW6:", w6]); score' := score' + Weight(model, buf');
    assert score' == PartialScore(model, win, h, 11);
  }

  /** BW: bigrams of the window characters (catalogue positions 11-13), added to the running score. */
  method AddCharacterBigrams(model: Model, buf: string, win: Window, h: History, score: int) returns (score': int, buf': string)
    requires score == PartialScore(model, win, h, 11)
    ensures score' == PartialScore(model, win, h, 14)
    ensures buf' == CatalogueKey(win, h, 13)
  {
    var w2, w3, w4, w5 := win.w2, win.w3, win.w4, win.w5;
    score', buf' := score, buf;
    buf' := Key(buf', ["BW1:", w2, w3]); score' := score' + Weight(model, buf');
    assert score' == PartialScore(model, win, h, 12);
    buf' := Key(buf', ["BW2:", w3, w4]); score' := score' + Weight(model, buf');
    assert score' == PartialScore(model, win, h, 13);
    buf' := Key(buf', ["BW3:", w4, w5]); score' := score' + Weight(model, buf');
    assert score' == PartialScore(model, win, h, 14);
  }

  /** TW: trigrams of the window characters (catalogue positions 14-17), added to the running score. */
  method AddCharacterTrigrams(model: Model, buf: string, win: Window, h: History, score: int) returns (score': int, buf': string)
    requires score == PartialScore(model, win, h, 14)
    ensures score' == PartialScore(model, win, h, 18)
    ensures buf' == CatalogueKey(win, h, 17)
  {
    var w1, w2, w3, w4, w5, w6 := win.w1, win.w2, win.w3, win.w4, win.w5, win.w6;
    score', buf' := score, buf;
    buf' := Key(buf', ["TW1:", w1, w2, w3]); score' := score' + Weight(model, buf');
    assert score' == PartialScore(model, win, h, 15);
    buf' := Key(buf', ["TW2:", w2, w3, w4]); score' := score' + Weight(model, buf');
    assert score' == PartialScore(model, win, h, 16);
    buf' := Key(buf', ["TW3:", w3, w4, w5]); score' := score' + Weight(model, buf');
    assert score' == PartialScore(model, win, h, 17);
    buf' := Key(buf', ["TW4:", w4, w5, w6]); score' := score' + Weight(model, buf');
    assert score' == PartialScore(model, win, h, 18);
  }

  /** UB: unigrams of the block codes (catalogue positions 18-23), added to the running score. */
  method AddBlockUnigrams(model: Model, buf: string, win: Window, h: History, score: int) returns (score': int, buf': string)
    requires score == PartialScore(model, win, h, 18)
    ensures score' == PartialScore(model, win, h, 24)
    ensures buf' == CatalogueKey(win, h, 23)
  {
    var b1, b2, b3, b4, b5, b6 := win.b1, win.b2, win.b3, win.b4, win.b5, win.b6;
    score', buf' := score, buf;
    buf' := Key(buf', ["UB1:", b1]); score' := score' + Weight(model, buf');
    assert score' == PartialScore(model, win, h, 19);
    buf' := Key(buf', ["UB2:", b2]); score' := score' + Weight(model, buf');
    assert score' == PartialScore(model, win, h, 20);
    buf' := Key(buf', ["UB3:", b3]); score' := score' + Weight(model, buf');
    assert score' == PartialScore(model, win, h, 21);
    buf' := Key(buf', ["UB4:", b4]); score' := score' + Weight(model, buf');
    assert score' == PartialScore(model, win, h, 22);
    buf' := Key(buf', ["UB5:", b5]); score' := score' + Weight(model, buf');
    assert score' == PartialScore(model, win, h, 23);
    buf' := Key(buf', ["UB6:", b6]); score' := score' + Weight(model, buf');
    assert score' == PartialScore(model, win, h, 24);
  }

  /** BB: bigrams of the block codes (catalogue positions 24-26), added to the running score. */
  method AddBlockBigrams(model: Model, buf: string, win: Window, h: History, score: int) returns (score': int, buf': string)
    requires score == PartialScore(model, win, h, 24)
    ensures score' == PartialScore(model, win, h, 27)
    ensures buf' == CatalogueKey(win, h, 26)
  {
    var b2, b3, b4, b5 := win.b2, win.b3, win.b4, win.b5;
    score', buf' := score, buf;
    buf' := Key(buf', ["BB1:", b2, b3]); score' := score' + Weight(model, buf');
    assert score' == PartialScore(model, win, h, 25);
    buf' := Key(buf', ["BB2:", b3, b4]); score' := score' + Weight(model, buf');
    assert score' == PartialScore(model, win, h, 26);
    buf' := Key(buf', ["BB3:", b4, b5]); score' := score' + Weight(model, buf');
    assert score' == PartialScore(model, win, h, 27);
  }

  /** TB: trigrams of the block codes (catalogue positions 27-30), added to the running score. */
  method AddBlockTrigrams(model: Model, buf: string, win: Window, h: History, score: int) returns (score': int, buf': string)
    requires score == PartialScore(model, win, h, 27)
    ensures score' == PartialScore(model, win, h, 31)
    ensures buf' == CatalogueKey(win, h, 30)
  {
    var b1, b2, b3, b4, b5, b6 := win.b1, win.b2, win.b3, win.b4, win.b5, win.b6;
    score', buf' := score, buf;
    buf' := Key(buf', ["TB1:", b1, b2, b3]); score' := score' + Weight(model, buf');
    assert score' == PartialScore(model, win, h, 28);
    buf' := Key(buf', ["TB2:", b2, b3, b4]); score' := score' + Weight(model, buf');
    assert score' == PartialScore(model, win, h, 29);
    buf' := Key(buf', ["TB3:", b3, b4, b5]); score' := score' + Weight(model, buf');
    assert score' == PartialScore(model, win, h, 30);
    buf' := Key(buf', ["TB4:", b4, b5, b6]); score' := score' + Weight(model, buf');
    assert score' == PartialScore(model, win, h, 31);
  }

  /** UQ: a decision tag with a block unigram (catalogue positions 31-33), added to the running score. */
  method AddTagBlockUnigrams(model: Model, buf: string, win: Window, h: History, score: int) returns (score': int, buf': string)
    requires score == PartialScore(model, win, h, 31)
    ensures score' == PartialScore(model, win, h, 34)
    ensures buf' == CatalogueKey(win, h, 33)
  {
    var p1, p2, p3 := h.p1.Text(), h.p2.Text(), h.p3.Text();
    var b1, b2, b3 := win.b1, win.b2, win.b3;
    score', buf' := score, buf;
    buf' := Key(buf', ["UQ1:", p1, b1]); score' := score' + Weight(model, buf');
    assert score' == PartialScore(model, win, h, 32);
    buf' := Key(buf', ["UQ2:", p2, b2]); score' := score' + Weight(model, buf');
    assert score' == PartialScore(model, win, h, 33);
    buf' := Key(buf', ["UQ3:", p3, b3]); score' := score' + Weight(model, buf');
    assert score' == PartialScore(model, win, h, 34);
  }

  /** BQ: a decision tag with a block bigram (catalogue positions 34-37), added to the running score. */
  method AddTagBlockBigrams(model: Model, buf: string, win: Window, h: History, score: int) returns (score': int, buf': string)
    requires score == PartialScore(model, win, h, 34)
    ensures score' == PartialScore(model, win, h, 38)
    ensures buf' == CatalogueKey(win, h, 37)
  {
    var p2, p3 := h.p2.Text(), h.p3.Text();
    var b2, b3, b4 := win.b2, win.b3, win.b4;
    score', buf' := score, buf;
    buf' := Key(buf', ["BQ1:", p2, b2, b3]); score' := score' + Weight(model, buf');
    assert score' == PartialScore(model, win, h, 35);
    buf' := Key(buf', ["BQ2:", p2, b3, b4]); score' := score' + Weight(model, buf');
    assert score' == PartialScore(model, win, h, 36);
    buf' := Key(buf', ["BQ3:", p3, b2, b3]); score' := score' + Weight(model, buf');
    assert score' == PartialScore(model, win, h, 37);
    buf' := Key(buf', ["BQ4:", p3, b3, b4]); score' := score' + Weight(model, buf');
    assert score' == PartialScore(model, win, h, 38);
  }

  /** TQ: a decision tag with a block trigram (catalogue positions 38-41), added to the running score. */
  method AddTagBlockTrigrams(model: Model, buf: string, win: Window, h: History, score: int) returns (score': int, buf': string)
    requires score == PartialScore(model, win, h, 38)
    ensures score' == PartialScore(model, win, h, 42)
    ensures buf' == CatalogueKey(win, h, 41)
  {
    var p2, p3 := h.p2.Text(), h.p3.Text();
    var b1, b2, b3, b4 := win.b1, win.b2, win.b3, win.b4;
    score', buf' := score, buf;
    buf' := Key(buf', ["TQ1:", p2, b1, b2, b3]); score' := score' + Weight(model, buf');
    assert score' == PartialScore(model, win, h, 39);
    buf' := Key(buf', ["TQ2:", p2, b2, b3, b4]); score' := score' + Weight(model, buf');
    assert score' == PartialScore(model, win, h, 40);
    buf' := Key(buf', ["TQ3:", p3, b1, b2, b3]); score' := score' + Weight(model, buf');
    assert score' == PartialScore(model, win, h, 41);
    buf' := Key(buf', ["TQ4:", p3, b2, b3, b4]); score' := score' + Weight(model, buf');
    assert score' == PartialScore(model, win, h, 42);
  }

  /** get_feature: the score of a boundary is the sum over its 42 feature
      keys of the model's weight, a missing key counting 0, added in
      catalogue order. The scratch buffer is left holding the last key
      built. */
  method GetFeature(model: Model, buf: string, win: Window, h: History) returns (score: int, buf': string)
    ensures score == BoundaryScore(model, win, h)
    ensures buf' == CatalogueKey(win, h, CATALOGUE_SIZE - 1)
  {
    score := 0;
    score, buf' := AddPreviousUnigrams(model, buf, win, h, score);
    score, buf' := AddPreviousBigrams(model, buf', win, h, score);
    score, buf' := AddCharacterUnigrams(model, buf', win, h, score);
    score, buf' := AddCharacterBigrams(model, buf', win, h, score);
    score, buf' := AddCharacterTrigrams(model, buf', win, h, score);
    score, buf' := AddBlockUnigrams(model, buf', win, h, score);
    score, buf' := AddBlockBigrams(model, buf', win, h, score);
    score, buf' := AddBlockTrigrams(model, buf', win, h, score);
    score, buf' := AddTagBlockUnigrams(model, buf', win, h, score);
    score, buf' := AddTagBlockBigrams(model, buf', win, h, score);
    score, buf' := AddTagBlockTrigrams(model, buf', win, h, score);
  }
}

/** The Unicode block classifier: a character at an index of the text becomes
    the pair (the character as a string, its 3-digit block code). The block
    table is a parameter; the engine ships one sorted, strictly increasing
    table of code points. */
module UnicodeBlocks {

  /** The block code reported for a position outside the text. */
  const INVALID_FEATURE: string := "▔"

  /** The shape of the shipped table: strictly increasing code points. */
  predicate Increasing(table: seq<int>)
  {
    forall i, j :: 0 <= i < j < |table| ==> table[i] < table[j]
  }

  /** The number of table entries strictly below c (the reference
      definition of an insertion point). */
  function CountBelow(table: seq<int>, c: int): nat
  {
    if |table| == 0 then 0
    else CountBelow(table[..|table| - 1], c) + (if table[|table| - 1] < c then 1 else 0)
  }

  /** A table split at e into entries below c and entries at or above c has
      exactly e entries below c. */
  lemma {:induction false} CountBelowAtSplit(table: seq<int>, c: int, e: nat)
    requires e <= |table|
    requires forall j :: 0 <= j < e ==> table[j] < c
    requires forall j :: e <= j < |table| ==> table[j] >= c
    ensures CountBelow(table, c) == e
  {
    if |table| > 0 {
      var front := table[..|table| - 1];
      if e == |table| {
        CountBelowAtSplit(front, c, e - 1);
      } else {
        CountBelowAtSplit(front, c, e);
      }
    }
  }

  /** Counting is monotone in the bound and never exceeds the table size. */
  lemma {:induction false} CountBelowMonotone(table: seq<int>, c: int, d: int)
    requires c <= d
    ensures CountBelow(table, c) <= CountBelow(table, d) <= |table|
  {
    if |table| > 0 {
      CountBelowMonotone(table[..|table| - 1], c, d);
    }
  }

  /** The outcome of slice::binary_search: the index of a match, or the
      position where the value would be inserted. */
  datatype SearchResult = Found(index: nat) | NotFound(insertion: nat)

  /** Binary search for c within table[lo..hi]: a hit is a real match, a
      miss an index within the range. */
  function SearchRange(table: seq<int>, c: int, lo: nat, hi: nat): (r: SearchResult)
    requires lo <= hi <= |table|
    ensures r.Found? ==> lo <= r.index < hi && table[r.index] == c
    ensures r.NotFound? ==> lo <= r.insertion <= hi
    decreases hi - lo
  {
    if lo == hi then NotFound(lo)
    else
      var mid := lo + (hi - lo) / 2;
      if table[mid] == c then Found(mid)
      else if table[mid] < c then SearchRange(table, c, mid + 1, hi)
      else SearchRange(table, c, lo, mid)
  }

  /** On a sorted table whose entries outside table[lo..hi] already lie on
      the correct side of c, a miss reports the point that splits the whole
      table into entries below c and entries above c. */
  lemma {:induction false} SearchRangeMiss(table: seq<int>, c: int, lo: nat, hi: nat)
    requires lo <= hi <= |table| && Increasing(table)
    requires forall j :: 0 <= j < lo ==> table[j] < c
    requires forall j :: hi <= j < |table| ==> table[j] > c
    ensures SearchRange(table, c, lo, hi).NotFound? ==>
              && (forall j :: 0 <= j < SearchRange(table, c, lo, hi).insertion ==> table[j] < c)
              && (forall j :: SearchRange(table, c, lo, hi).insertion <= j < |table| ==> table[j] > c)
    decreases hi - lo
  {
    if lo < hi {
      var mid := lo + (hi - lo) / 2;
      if table[mid] < c {
        SearchRangeMiss(table, c, mid + 1, hi);
      } else if table[mid] > c {
        SearchRangeMiss(table, c, lo, mid);
      }
    }
  }

  /** Binary search over the whole table (slice::binary_search). */
  function BinarySearch(table: seq<int>, c: int): (r: SearchResult)
    ensures r.Found? ==> r.index < |table| && table[r.index] == c
    ensures r.NotFound? ==> r.insertion <= |table|
  {
    SearchRange(table, c, 0, |table|)
  }

  /** On a sorted table the search misses exactly when c is absent, and a
      miss reports the insertion point: the number of entries below c. */
  lemma BinarySearchMiss(table: seq<int>, c: int)
    requires Increasing(table)
    ensures BinarySearch(table, c).NotFound? <==> c !in table
    ensures BinarySearch(table, c).NotFound? ==> BinarySearch(table, c).insertion == CountBelow(table, c)
  {
    SearchRangeMiss(table, c, 0, |table|);
    var r := BinarySearch(table, c);
    if r.NotFound? {
      CountBelowAtSplit(table, c, r.insertion);
    }
  }

  /** The block position of code point c: index + 1 on an exact hit, the
      insertion point on a miss; never beyond the table size. */
  function BlockPosition(table: seq<int>, c: int): (pos: nat)
    ensures pos <= |table|
  {
    match BinarySearch(table, c)
    case Found(i) => i + 1
    case NotFound(e) => e
  }

  /** On a sorted table an exact hit at entry k gives position k + 1, and
      both cases agree with one reference: the position is the number of
      table entries at or below c. */
  lemma BlockPositionCounts(table: seq<int>, c: int)
    requires Increasing(table)
    ensures c in table ==> 1 <= BlockPosition(table, c) && table[BlockPosition(table, c) - 1] == c
    ensures BlockPosition(table, c) == CountBelow(table, c + 1)
  {
    BinarySearchMiss(table, c);
    SearchRangeMiss(table, c, 0, |table|);
    CountBelowAtSplit(table, c + 1, BlockPosition(table, c));
  }

  /** Later code points never fall in earlier blocks. */
  lemma BlockPositionMonotone(table: seq<int>, c: int, d: int)
    requires Increasing(table) && c <= d
    ensures BlockPosition(table, c) <= BlockPosition(table, d)
  {
    BlockPositionCounts(table, c);
    BlockPositionCounts(table, d);
    CountBelowMonotone(table, c + 1, d + 1);
  }

  // Decimal rendering of block positions, format!("{:>03}", pos).

  function DigitChar(d: nat): char
    requires d < 10
  {
    ('0' as int + d) as char
  }

  predicate IsDigit(ch: char)
  {
    '0' <= ch <= '9'
  }

  /** The decimal digits of n, most significant first, without padding. */
  function DecimalDigits(n: nat): string
    decreases n
  {
    if n < 10 then [DigitChar(n)] else DecimalDigits(n / 10) + [DigitChar(n % 10)]
  }

  /** n in decimal, left-padded with zeros to at least three characters. */
  function ZeroPad3(n: nat): string
  {
    var d := DecimalDigits(n);
    if |d| == 1 then "00" + d else if |d| == 2 then "0" + d else d
  }

  /** The value of a string of decimal digits (the inverse reading). */
  function DecimalValue(s: string): nat
  {
    if |s| == 0 then 0
    else DecimalValue(s[..|s| - 1]) * 10 + (if IsDigit(s[|s| - 1]) then s[|s| - 1] as int - '0' as int else 0)
  }

  lemma {:induction false} DecimalDigitsRoundTrip(n: nat)
    ensures forall k :: 0 <= k < |DecimalDigits(n)| ==> IsDigit(DecimalDigits(n)[k])
    ensures DecimalValue(DecimalDigits(n)) == n
    ensures 1 <= |DecimalDigits(n)|
    ensures n < 10 ==> |DecimalDigits(n)| == 1
    ensures n < 100 ==> |DecimalDigits(n)| <= 2
    ensures n < 1000 ==> |DecimalDigits(n)| <= 3
    ensures n >= 10 ==> |DecimalDigits(n)| >= 2
    ensures n >= 100 ==> |DecimalDigits(n)| >= 3
    decreases n
  {
    if n >= 10 {
      DecimalDigitsRoundTrip(n / 10);
      var front := DecimalDigits(n / 10);
      assert (front + [DigitChar(n % 10)])[..|front|] == front;
    }
  }

  /** A leading zero does not change the value read back. */
  lemma {:induction false} LeadingZero(s: string)
    ensures DecimalValue("0" + s) == DecimalValue(s)
    decreases |s|
  {
    if |s| == 0 {
      assert "0" + s == "0";
      assert "0"[..0] == "";
    } else {
      assert ("0" + s)[..|s|] == "0" + s[..|s| - 1];
      LeadingZero(s[..|s| - 1]);
    }
  }

  /** A zero in front keeps a string of digits a string of digits of the
      same value. */
  lemma PadZero(s: string)
    requires forall k :: 0 <= k < |s| ==> IsDigit(s[k])
    ensures |"0" + s| == |s| + 1
    ensures forall k :: 0 <= k < |"0" + s| ==> IsDigit(("0" + s)[k])
    ensures DecimalValue("0" + s) == DecimalValue(s)
  {
    LeadingZero(s);
  }

  /** The 3-digit block code: at least three decimal digits, exactly three
      below 1000, and it reads back as the position it renders, so distinct
      positions get distinct codes. Zeros are added only in front of one-
      and two-digit positions. */
  lemma BlockCodeFormat(n: nat)
    ensures |ZeroPad3(n)| >= 3 && (n < 1000 ==> |ZeroPad3(n)| == 3)
    ensures n >= 100 ==> ZeroPad3(n) == DecimalDigits(n)
    ensures forall k :: 0 <= k < |ZeroPad3(n)| ==> IsDigit(ZeroPad3(n)[k])
    ensures DecimalValue(ZeroPad3(n)) == n
  {
    DecimalDigitsRoundTrip(n);
    var d := DecimalDigits(n);
    if |d| == 1 {
      PadZero(d);
      PadZero("0" + d);
      assert "00" + d == "0" + ("0" + d);
    } else if |d| == 2 {
      PadZero(d);
    }
  }

  /** get_unicode_block_and_feature: an index past the end yields the
      sentinel pair; an index in range yields the character and a block
      code of at least three characters, never the sentinel. */
  function GetUnicodeBlockAndFeature(table: seq<int>, chars: seq<char>, index: nat): (r: (string, string))
    ensures index >= |chars| ==> r == ("", INVALID_FEATURE)
    ensures index < |chars| ==> r.0 == [chars[index]] && |r.1| >= 3 && r.1 != INVALID_FEATURE
  {
    if |chars| <= index then ("", INVALID_FEATURE)
    else
      var v := chars[index];
      var pos := BlockPosition(table, v as int);
      BlockCodeFormat(pos);
      ([v], ZeroPad3(pos))
  }

  /** The block code of an in-range index is made of decimal digits, and on
      a sorted table it reads back as the number of table entries at or
      below the character's code point (three digits for a table of fewer
      than 1000 entries). */
  lemma BlockCodeOf(table: seq<int>, chars: seq<char>, index: nat)
    requires index < |chars|
    ensures forall k :: 0 <= k < |GetUnicodeBlockAndFeature(table, chars, index).1| ==>
              IsDigit(GetUnicodeBlockAndFeature(table, chars, index).1[k])
    ensures Increasing(table) ==>
              DecimalValue(GetUnicodeBlockAndFeature(table, chars, index).1) == CountBelow(table, chars[index] as int + 1)
    ensures |table| < 1000 ==> |GetUnicodeBlockAndFeature(table, chars, index).1| == 3
  {
    var pos := BlockPosition(table, chars[index] as int);
    BlockCodeFormat(pos);
    if Increasing(table) {
      BlockPositionCounts(table, chars[index] as int);
    }
  }
}

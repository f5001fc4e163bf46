/**
 * The byte image of the values the engine copies into Vulkan memory with
 * `memcpy`: floats, vectors, matrices, index words and the two-matrix
 * uniform blocks. Every such value is a run of 32-bit words (floats by their
 * bit pattern), and the host is little-endian, so each word is stored
 * lowest byte first.
 */
module Layout {
  import opened Glm

  type byte = bv8

  /** `sizeof(float)` and `sizeof(uint32_t)`. */
  const WORD_SIZE: nat := 4

  /** The bytes `memcpy` copies for one float or one `uint32_t`. */
  function WordBytes(w: bv32): (r: seq<byte>)
    ensures |r| == WORD_SIZE
  {
    [(w & 0xFF) as byte, ((w >> 8) & 0xFF) as byte, ((w >> 16) & 0xFF) as byte, ((w >> 24) & 0xFF) as byte]
  }

  function WordFromBytes(b: seq<byte>): bv32
    requires |b| == WORD_SIZE
  {
    (b[0] as bv32) | ((b[1] as bv32) << 8) | ((b[2] as bv32) << 16) | ((b[3] as bv32) << 24)
  }

  /** Reassembling the four bytes of a word yields the word. */
  lemma WordRoundTrip(w: bv32)
    ensures WordFromBytes(WordBytes(w)) == w
  {
  }

  /** The bytes of an array of words: each word's bytes, one word after another. */
  function WordsBytes(words: seq<bv32>): (r: seq<byte>)
    ensures |r| == WORD_SIZE * |words|
  {
    if words == [] then [] else WordBytes(words[0]) + WordsBytes(words[1..])
  }

  /** Reads an array of words back from its bytes. */
  function WordsFromBytes(b: seq<byte>): (r: seq<bv32>)
    requires |b| % WORD_SIZE == 0
    ensures |r| == |b| / WORD_SIZE
  {
    if b == [] then [] else [WordFromBytes(b[..WORD_SIZE])] + WordsFromBytes(b[WORD_SIZE..])
  }

  /** Reading back what was stored yields the stored words. */
  lemma {:induction false} WordsRoundTrip(words: seq<bv32>)
    ensures WordsFromBytes(WordsBytes(words)) == words
  {
    if words != [] {
      var r := WordsBytes(words);
      assert r[..WORD_SIZE] == WordBytes(words[0]);
      assert r[WORD_SIZE..] == WordsBytes(words[1..]);
      WordRoundTrip(words[0]);
      WordsRoundTrip(words[1..]);
    }
  }

  /** Word `k` is stored at byte offset `4 * k`. */
  lemma {:induction false} WordsBytesAt(words: seq<bv32>, k: nat)
    requires k < |words|
    ensures WORD_SIZE * k + WORD_SIZE <= |WordsBytes(words)|
    ensures WordFromBytes(WordsBytes(words)[WORD_SIZE * k .. WORD_SIZE * k + WORD_SIZE]) == words[k]
  {
    var rest := WordsBytes(words[1..]);
    assert WordsBytes(words) == WordBytes(words[0]) + rest;
    if k == 0 {
      assert WordsBytes(words)[0..WORD_SIZE] == WordBytes(words[0]);
      WordRoundTrip(words[0]);
    } else {
      WordsBytesAt(words[1..], k - 1);
      assert WordsBytes(words)[WORD_SIZE * k .. WORD_SIZE * k + WORD_SIZE]
          == rest[WORD_SIZE * (k - 1) .. WORD_SIZE * (k - 1) + WORD_SIZE];
    }
  }

  function Vec2Words(v: Vec2): (r: seq<bv32>)
    ensures |r| == 2 && r[0] == v.x && r[1] == v.y
  {
    [v.x, v.y]
  }

  function Vec4Words(v: Vec4): (r: seq<bv32>)
    ensures |r| == 4
  {
    [v.x, v.y, v.z, v.w]
  }

  function Vec4FromWords(words: seq<bv32>): Vec4
    requires |words| == 4
  {
    Vec4(words[0], words[1], words[2], words[3])
  }

  /** Vectors stored one after another, each as its four floats. */
  function ColumnsWords(columns: seq<Vec4>): (r: seq<bv32>)
    ensures |r| == 4 * |columns|
  {
    if columns == [] then [] else Vec4Words(columns[0]) + ColumnsWords(columns[1..])
  }

  /** Reads a run of vectors back from their floats. */
  function ColumnsFromWords(words: seq<bv32>): (r: seq<Vec4>)
    requires |words| % 4 == 0
    ensures |r| == |words| / 4
  {
    if words == [] then [] else [Vec4FromWords(words[..4])] + ColumnsFromWords(words[4..])
  }

  /** Reading vectors back from what was stored yields the stored vectors. */
  lemma {:induction false} ColumnsRoundTrip(columns: seq<Vec4>)
    ensures ColumnsFromWords(ColumnsWords(columns)) == columns
  {
    if columns != [] {
      var r := ColumnsWords(columns);
      assert r[..4] == Vec4Words(columns[0]);
      assert r[4..] == ColumnsWords(columns[1..]);
      ColumnsRoundTrip(columns[1..]);
    }
  }

  /** The columns of a matrix, first to last: the order glm stores them in. */
  function Columns(m: Mat4): (r: seq<Vec4>)
    ensures |r| == 4
  {
    [m.c0, m.c1, m.c2, m.c3]
  }

  function Mat4FromColumns(columns: seq<Vec4>): (m: Mat4)
    requires |columns| == 4
    ensures Columns(m) == columns
  {
    Mat4(columns[0], columns[1], columns[2], columns[3])
  }

  /** `sizeof` of a struct of two `glm::mat4` members (no padding). */
  const MAT4_PAIR_SIZE: nat := 128

  /** The byte image of a struct `{ glm::mat4 first; glm::mat4 second; }`: eight columns in order. */
  function Mat4PairBytes(first: Mat4, second: Mat4): (r: seq<byte>)
    ensures |r| == MAT4_PAIR_SIZE
  {
    WordsBytes(ColumnsWords(Columns(first) + Columns(second)))
  }

  /** Reads both matrices back from the struct's bytes. */
  function Mat4PairFromBytes(b: seq<byte>): (Mat4, Mat4)
    requires |b| == MAT4_PAIR_SIZE
  {
    var columns := ColumnsFromWords(WordsFromBytes(b));
    (Mat4FromColumns(columns[..4]), Mat4FromColumns(columns[4..]))
  }

  /** Reading the struct back from its bytes yields both matrices. */
  lemma Mat4PairRoundTrip(first: Mat4, second: Mat4)
    ensures Mat4PairFromBytes(Mat4PairBytes(first, second)) == (first, second)
  {
    var columns := Columns(first) + Columns(second);
    WordsRoundTrip(ColumnsWords(columns));
    ColumnsRoundTrip(columns);
    assert columns[..4] == Columns(first) && columns[4..] == Columns(second);
  }
}

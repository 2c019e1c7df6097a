/**
 * Byte-level vocabulary shared by both generations of the configuration block:
 * fixed-width integers, little-endian encodings, writes into a byte image, and
 * the concatenation of fixed-width fields that a packed record lays out.
 */
module Bytes {

  type u8 = bv8
  /** 16-bit unsigned values; only ever divided and split into bytes, so kept as integers. */
  type u16 = x: int | 0 <= x < 0x1_0000
  type u32 = bv32

  datatype Option<T> = None | Some(value: T)

  /** `n` zero bytes. */
  function Zeros(n: nat): (r: seq<u8>)
    ensures |r| == n
    ensures forall i :: 0 <= i < n ==> r[i] == 0
  {
    seq(n, _ => 0)
  }

  /** `s` after `data` is written at `offset`: the write changes exactly the bytes it covers. */
  function Splice(s: seq<u8>, offset: nat, data: seq<u8>): (r: seq<u8>)
    requires offset + |data| <= |s|
    ensures |r| == |s|
    ensures forall i :: 0 <= i < |s| ==> r[i] == if offset <= i < offset + |data| then data[i - offset] else s[i]
  {
    s[..offset] + data + s[offset + |data|..]
  }

  /** Two writes that abut are one write of the joined data. */
  lemma SpliceAbutting(s: seq<u8>, offset: nat, a: seq<u8>, b: seq<u8>)
    requires offset + |a| + |b| <= |s|
    ensures Splice(Splice(s, offset, a), offset + |a|, b) == Splice(s, offset, a + b)
  {
    var l := Splice(Splice(s, offset, a), offset + |a|, b);
    var r := Splice(s, offset, a + b);
    forall i | 0 <= i < |s| ensures l[i] == r[i] {
      if offset <= i < offset + |a| {
        assert (a + b)[i - offset] == a[i - offset];
      } else if offset + |a| <= i < offset + |a| + |b| {
        assert (a + b)[i - offset] == b[i - offset - |a|];
      }
    }
  }

  /** The little-endian bytes of a 16-bit value (`u16::to_le_bytes`). */
  function Le16(x: u16): (r: seq<u8>)
    ensures |r| == 2
  {
    [ByteOf(x % 256), ByteOf(x / 256)]
  }

  /**
   * The byte holding a value below 256 (`n as u8`), built bit by bit so that
   * its value follows from its bits rather than from the solver's integer to
   * bit-vector conversion.
   */
  function ByteOf(n: nat): (b: u8)
    requires n < 256
    ensures b as nat == n
  {
    if n == 0 then 0 else (ByteOf(n / 2) << 1) | (if n % 2 == 0 then 0 else 1)
  }

  /** The low byte comes first, and the two bytes give the value back. */
  lemma Le16RoundTrip(x: u16)
    ensures Le16(x)[0] as int == x % 256
    ensures Le16(x)[0] as int + 256 * (Le16(x)[1] as int) == x
  {
  }

  /** The 32-bit value whose little-endian bytes are `b` (`u32::from_le_bytes`). */
  function FromLe32(b: seq<u8>): u32
    requires |b| == 4
  {
    (b[0] as u32) | ((b[1] as u32) << 8) | ((b[2] as u32) << 16) | ((b[3] as u32) << 24)
  }

  /** The little-endian bytes of a 32-bit value (`u32::to_le_bytes`). */
  function Le32(x: u32): (r: seq<u8>)
    ensures |r| == 4
  {
    [(x & 0xFF) as u8, ((x >> 8) & 0xFF) as u8, ((x >> 16) & 0xFF) as u8, (x >> 24) as u8]
  }

  /** `FromLe32` undoes `Le32`. */
  lemma Le32RoundTrip(x: u32)
    ensures FromLe32(Le32(x)) == x
  {
  }

  /** Four bytes of an image, one by one. */
  lemma Slice4(s: seq<u8>, a: nat)
    requires a + 4 <= |s|
    ensures s[a..a + 4] == [s[a], s[a + 1], s[a + 2], s[a + 3]]
  {
  }

  /** Two bytes of an image, one by one. */
  lemma Slice2(s: seq<u8>, a: nat)
    requires a + 2 <= |s|
    ensures s[a..a + 2] == [s[a], s[a + 1]]
  {
  }

  /** Three bytes of an image, given one by one. */
  lemma Slice3(s: seq<u8>, a: nat, x: u8, y: u8, z: u8)
    requires a + 3 <= |s| && s[a] == x && s[a + 1] == y && s[a + 2] == z
    ensures s[a..a + 3] == [x, y, z]
  {
  }

  /** Images that agree on every byte of a span have the same slice there. */
  lemma SlicesAgree(s: seq<u8>, t: seq<u8>, a: nat, b: nat)
    requires a <= b <= |s| && b <= |t|
    requires forall i :: a <= i < b ==> s[i] == t[i]
    ensures s[a..b] == t[a..b]
  {
  }

  /** A slice of a slice is a slice of the whole. */
  lemma SubSlice(s: seq<u8>, a: nat, b: nat, c: nat, d: nat)
    requires a <= b <= |s| && c <= d <= b - a
    ensures s[a..b][c..d] == s[a + c..a + d]
  {
    forall i | 0 <= i < d - c ensures s[a..b][c..d][i] == s[a + c..a + d][i] {
      assert s[a..b][c..d][i] == s[a..b][c + i] == s[a + c + i];
    }
  }

  /** Word `k` of an image read as little-endian 32-bit words, as the repository's tests read an FCB. */
  function WordAt(image: seq<u8>, k: nat): u32
    requires 4 * k + 4 <= |image|
  {
    FromLe32(image[4 * k..4 * k + 4])
  }

  /** An image read as little-endian 32-bit words, first word first (a trailing partial word is not read). */
  function Words(image: seq<u8>): (w: seq<u32>)
    ensures |w| == |image| / 4
    ensures forall k :: 0 <= k < |w| ==> w[k] == WordAt(image, k)
  {
    seq(|image| / 4, k requires 0 <= k < |image| / 4 => WordAt(image, k))
  }

  /** Reading two word-aligned images back to back gives the first one's words, then the second one's. */
  lemma WordsAppend(a: seq<u8>, b: seq<u8>)
    requires |a| % 4 == 0 && |b| % 4 == 0
    ensures Words(a + b) == Words(a) + Words(b)
  {
    var l := Words(a + b);
    var r := Words(a) + Words(b);
    forall k | 0 <= k < |l| ensures l[k] == r[k] {
      if k < |a| / 4 {
        assert (a + b)[4 * k..4 * k + 4] == a[4 * k..4 * k + 4];
      } else {
        var j := k - |a| / 4;
        assert (a + b)[4 * k..4 * k + 4] == b[4 * j..4 * j + 4];
      }
    }
  }

  /** The words of a word-aligned span are the words of its two halves. */
  lemma WordsSplit(s: seq<u8>, a: nat, b: nat, c: nat)
    requires a <= b <= c <= |s| && a % 4 == 0 && b % 4 == 0 && c % 4 == 0
    ensures Words(s[a..c]) == Words(s[a..b]) + Words(s[b..c])
  {
    assert s[a..c] == s[a..b] + s[b..c];
    WordsAppend(s[a..b], s[b..c]);
  }

  /** The four little-endian bytes of a word read back as that one word. */
  lemma WordsLe32(x: u32)
    ensures Words(Le32(x)) == [x]
  {
    assert Le32(x)[0..4] == Le32(x);
    Le32RoundTrip(x);
  }

  /** Zero bytes read as zero words. */
  lemma WordsZeros(n: nat)
    ensures Words(Zeros(4 * n)) == seq(n, _ => 0)
  {
    var z := Zeros(4 * n);
    forall k | 0 <= k < n ensures WordAt(z, k) == 0 {
      assert z[4 * k..4 * k + 4] == Le32(0);
      Le32RoundTrip(0);
    }
  }

  // ---------------------------------------------------------------------------
  // Packed records: a record is the concatenation of its fields' encodings.

  /** The concatenation of `parts`, in order. */
  function Concat(parts: seq<seq<u8>>): seq<u8>
  {
    if parts == [] then [] else Concat(parts[..|parts| - 1]) + parts[|parts| - 1]
  }

  /** The sum of the first `j` widths: the offset of field `j` in a packed record. */
  function SumTo(widths: seq<nat>, j: nat): nat
    requires j <= |widths|
  {
    if j == 0 then 0 else SumTo(widths, j - 1) + widths[j - 1]
  }

  /** Every part has the width the layout gives it. */
  predicate HasWidths(parts: seq<seq<u8>>, widths: seq<nat>)
  {
    |parts| == |widths| && forall k :: 0 <= k < |widths| ==> |parts[k]| == widths[k]
  }

  /** Widths of joined records are the joined widths. */
  lemma HasWidthsAppend(p: seq<seq<u8>>, w: seq<nat>, q: seq<seq<u8>>, v: seq<nat>)
    requires HasWidths(p, w) && HasWidths(q, v)
    ensures HasWidths(p + q, w + v)
  {
    forall k | 0 <= k < |w + v| ensures |(p + q)[k]| == (w + v)[k] {
      if k >= |w| {
        assert (p + q)[k] == q[k - |w|];
      }
    }
  }

  /** Updating an element of a joined list updates the half it falls in. */
  lemma UpdateAppend<T>(a: seq<T>, b: seq<T>, j: nat, x: T)
    requires j < |a| + |b|
    ensures (a + b)[j := x] == if j < |a| then a[j := x] + b else a + (b[j - |a| := x])
  {
  }

  lemma {:induction false} ConcatAppend(a: seq<seq<u8>>, b: seq<seq<u8>>)
    ensures Concat(a + b) == Concat(a) + Concat(b)
    decreases |b|
  {
    if b == [] {
      assert a + b == a;
    } else {
      var b' := b[..|b| - 1];
      assert (a + b)[..|a + b| - 1] == a + b';
      ConcatAppend(a, b');
    }
  }

  lemma {:induction false} ConcatLength(parts: seq<seq<u8>>, widths: seq<nat>)
    requires HasWidths(parts, widths)
    ensures |Concat(parts)| == SumTo(widths, |widths|)
    decreases |parts|
  {
    if parts != [] {
      var n := |parts| - 1;
      assert HasWidths(parts[..n], widths[..n]);
      ConcatLength(parts[..n], widths[..n]);
      SumToPrefix(widths, n, n);
    }
  }

  /** Offsets only depend on the widths before them. */
  lemma {:induction false} SumToPrefix(widths: seq<nat>, n: nat, j: nat)
    requires j <= n <= |widths|
    ensures SumTo(widths[..n], j) == SumTo(widths, j)
    decreases j
  {
    if j > 0 {
      SumToPrefix(widths, n, j - 1);
    }
  }

  /** Splitting a record before field `j`: the part before has exactly `SumTo(widths, j)` bytes. */
  lemma ConcatSplit(parts: seq<seq<u8>>, widths: seq<nat>, j: nat)
    requires HasWidths(parts, widths) && j < |widths|
    ensures Concat(parts) == Concat(parts[..j]) + parts[j] + Concat(parts[j + 1..])
    ensures |Concat(parts[..j])| == SumTo(widths, j)
  {
    assert parts == parts[..j] + [parts[j]] + parts[j + 1..];
    ConcatAppend(parts[..j] + [parts[j]], parts[j + 1..]);
    ConcatAppend(parts[..j], [parts[j]]);
    assert Concat([parts[j]]) == parts[j] by {
      assert [parts[j]][..0] == [];
    }
    assert HasWidths(parts[..j], widths[..j]);
    ConcatLength(parts[..j], widths[..j]);
    SumToPrefix(widths, j, j);
  }

  /** Field `j` of a packed record sits at offset `SumTo(widths, j)`. */
  lemma ConcatSlice(parts: seq<seq<u8>>, widths: seq<nat>, j: nat)
    requires HasWidths(parts, widths) && j < |widths|
    ensures SumTo(widths, j) + widths[j] <= |Concat(parts)|
    ensures Concat(parts)[SumTo(widths, j)..SumTo(widths, j) + widths[j]] == parts[j]
  {
    ConcatSplit(parts, widths, j);
  }

  /** Replacing field `j` by data of the same width is a write of that data at the field's offset. */
  lemma ConcatReplace(parts: seq<seq<u8>>, widths: seq<nat>, j: nat, x: seq<u8>)
    requires HasWidths(parts, widths) && j < |widths| && |x| == widths[j]
    ensures SumTo(widths, j) + |x| <= |Concat(parts)|
    ensures Concat(parts[j := x]) == Splice(Concat(parts), SumTo(widths, j), x)
  {
    var parts' := parts[j := x];
    assert HasWidths(parts', widths);
    ConcatSplit(parts, widths, j);
    ConcatSplit(parts', widths, j);
    assert parts'[..j] == parts[..j];
    assert parts'[j + 1..] == parts[j + 1..];
    var c := Concat(parts);
    var off := SumTo(widths, j);
    assert c[..off] == Concat(parts[..j]);
    assert c[off + |x|..] == Concat(parts[j + 1..]);
  }

  /** Bytes `SumTo(widths, a)` up to `SumTo(widths, b)` are the concatenation of fields `a` up to `b`. */
  lemma ConcatRange(parts: seq<seq<u8>>, widths: seq<nat>, a: nat, b: nat)
    requires HasWidths(parts, widths) && a <= b <= |widths|
    ensures SumTo(widths, a) <= SumTo(widths, b) <= |Concat(parts)|
    ensures Concat(parts)[SumTo(widths, a)..SumTo(widths, b)] == Concat(parts[a..b])
  {
    assert parts == parts[..a] + parts[a..b] + parts[b..];
    ConcatAppend(parts[..a] + parts[a..b], parts[b..]);
    ConcatAppend(parts[..a], parts[a..b]);
    assert HasWidths(parts[..a], widths[..a]);
    ConcatLength(parts[..a], widths[..a]);
    SumToPrefix(widths, a, a);
    assert HasWidths(parts[..b], widths[..b]);
    ConcatLength(parts[..b], widths[..b]);
    SumToPrefix(widths, b, b);
    assert parts[..b] == parts[..a] + parts[a..b];
    ConcatAppend(parts[..a], parts[a..b]);
    ConcatLength(parts, widths);
    SumToMonotone(widths, a, b);
    SumToMonotone(widths, b, |widths|);
  }

  lemma {:induction false} SumToMonotone(widths: seq<nat>, a: nat, b: nat)
    requires a <= b <= |widths|
    ensures SumTo(widths, a) <= SumTo(widths, b)
    decreases b
  {
    if a < b {
      SumToMonotone(widths, a, b - 1);
    }
  }

  /** Bytes of fields `a` up to `c` that are all zero are zero. */
  lemma ConcatRangeZeros(parts: seq<seq<u8>>, widths: seq<nat>, a: nat, c: nat)
    requires HasWidths(parts, widths) && a <= c <= |widths|
    requires forall k :: a <= k < c ==> parts[k] == Zeros(widths[k])
    ensures SumTo(widths, a) <= SumTo(widths, c) <= |Concat(parts)|
    ensures Concat(parts)[SumTo(widths, a)..SumTo(widths, c)] == Zeros(SumTo(widths, c) - SumTo(widths, a))
  {
    ConcatRange(parts, widths, a, c);
    var range := parts[a..c];
    assert forall k :: 0 <= k < |range| ==> range[k] == Zeros(|range[k]|) by {
      forall k | 0 <= k < |range| ensures range[k] == Zeros(|range[k]|) {
        assert range[k] == parts[a + k];
      }
    }
    ConcatZeros(range);
  }

  /** Fields that are all zero concatenate to zeros. */
  lemma {:induction false} ConcatZeros(parts: seq<seq<u8>>)
    requires forall k :: 0 <= k < |parts| ==> parts[k] == Zeros(|parts[k]|)
    ensures Concat(parts) == Zeros(|Concat(parts)|)
    decreases |parts|
  {
    if parts != [] {
      ConcatZeros(parts[..|parts| - 1]);
    }
  }
}

/** The i.MX RT chip families a build selects with a feature flag. */
module Chip {

  /**
   * One value per feature name that gates a variant in either API generation.
   * The older API names the 1010 `imxrt1011` and splits the 1060 into 1061 and 1062.
   */
  datatype Family =
    | Imxrt1010 | Imxrt1011 | Imxrt1020 | Imxrt1040 | Imxrt1050 | Imxrt1060
    | Imxrt1061 | Imxrt1062 | Imxrt1064 | Imxrt1160 | Imxrt1170 | Imxrt1180

  /** The symbolic serial clock options, slowest first. */
  datatype Frequency = MHz30 | MHz50 | MHz60 | MHz75 | MHz80 | MHz100 | MHz120 | MHz133 | MHz166

  function Megahertz(f: Frequency): nat
  {
    match f
    case MHz30 => 30
    case MHz50 => 50
    case MHz60 => 60
    case MHz75 => 75
    case MHz80 => 80
    case MHz100 => 100
    case MHz120 => 120
    case MHz133 => 133
    case MHz166 => 166
  }
}

/**
 * The 512-byte FCB buffer the older builder writes into. A fresh buffer holds
 * the tag and the default version and is zero everywhere else; every field is
 * then written at its offset, bytes in order.
 */
module Fcb {
  import opened Bytes

  const FCB_SIZE: nat := 512

  /** Tag `FCFB` and version 1.0.0, as the first two little-endian words. */
  const HEADER: seq<u8> := [0x46, 0x43, 0x46, 0x42, 0x00, 0x00, 0x01, 0x56]

  /** The bytes of a fresh buffer. */
  function NewImage(): (r: seq<u8>)
    ensures |r| == FCB_SIZE
    ensures r[..8] == HEADER
    ensures forall i :: 8 <= i < FCB_SIZE ==> r[i] == 0
  {
    HEADER + Zeros(504)
  }

  /** Read as words, a fresh buffer opens with the tag and the version 1.0.0. */
  lemma NewImageWords()
    ensures WordAt(NewImage(), 0) == 0x4246_4346 && WordAt(NewImage(), 1) == 0x5601_0000
  {
    var r := NewImage();
    assert r[0..4] == [0x46, 0x43, 0x46, 0x42] && r[4..8] == [0x00, 0x00, 0x01, 0x56];
  }

  class Fcb {
    var bytes: array<u8>

    predicate Valid()
      reads this
    {
      bytes.Length == FCB_SIZE
    }

    /** A fresh buffer. */
    constructor ()
      ensures Valid() && fresh(bytes)
      ensures bytes[..] == NewImage()
    {
      var image := NewImage();
      var a := new u8[FCB_SIZE](i => if 0 <= i < FCB_SIZE then image[i] else 0);
      assert a[..] == image;
      bytes := a;
    }

    /** Writes `data` at `offset`, one byte at a time; nothing outside the written span changes. */
    method FieldComment(offset: nat, data: seq<u8>)
      requires Valid() && offset + |data| <= FCB_SIZE
      modifies bytes
      ensures bytes[..] == Splice(old(bytes[..]), offset, data)
    {
      for i := 0 to |data|
        invariant bytes[..] == Splice(old(bytes[..]), offset, data[..i])
      {
        bytes[offset + i] := data[i];
        assert data[..i + 1] == data[..i] + [data[i]];
      }
      assert data[..|data|] == data;
    }
  }
}

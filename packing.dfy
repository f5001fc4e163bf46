/**
 * Byte images laid out one after another at a fixed stride in a byte buffer,
 * as `updateDynamicUniformBuffer` lays out the per-object blocks in the
 * transfer space (source/PixelScene.cpp), and the `memcpy` that writes them.
 */
module Packing {
  import opened Layout
  import opened Alignment

  /** `s` with the bytes from `offset` on replaced by `src`: what `memcpy(s + offset, src, |src|)` leaves. */
  function Overwrite(s: seq<byte>, offset: nat, src: seq<byte>): (r: seq<byte>)
    requires offset + |src| <= |s|
    ensures |r| == |s|
    ensures r[offset .. offset + |src|] == src
    ensures forall b :: 0 <= b < |s| && !(offset <= b < offset + |src|) ==> r[b] == s[b]
  {
    s[..offset] + src + s[offset + |src|..]
  }

  /** `memcpy(dst + offset, src, |src|)` on a byte array. */
  method CopyInto(dst: array<byte>, offset: nat, src: seq<byte>)
    requires offset + |src| <= dst.Length
    modifies dst
    ensures dst[..] == Overwrite(old(dst[..]), offset, src)
  {
    var k := 0;
    while k < |src|
      invariant 0 <= k <= |src|
      invariant forall b :: 0 <= b < dst.Length && !(offset <= b < offset + k) ==> dst[b] == old(dst[b])
      invariant forall b :: offset <= b < offset + k ==> dst[b] == src[b - offset]
    {
      dst[offset + k] := src[k];
      k := k + 1;
    }
    assert dst[..] == Overwrite(old(dst[..]), offset, src);
  }

  /** Writing at `offset` leaves a range that ends before `offset` as it was. */
  lemma OverwriteBefore(s: seq<byte>, offset: nat, src: seq<byte>, lo: nat, hi: nat)
    requires offset + |src| <= |s| && lo <= hi <= offset
    ensures Overwrite(s, offset, src)[lo..hi] == s[lo..hi]
  {
    var r := Overwrite(s, offset, src);
    assert forall b :: lo <= b < hi ==> r[b] == s[b];
  }

  /** Every image is `size` bytes long. */
  predicate SameSize(images: seq<seq<byte>>, size: nat)
  {
    forall k :: 0 <= k < |images| ==> |images[k]| == size
  }

  /** `count` blocks of `size` bytes, `stride` apart, fit in `length` bytes. */
  predicate Fits(count: nat, size: nat, stride: nat, length: nat)
  {
    0 < size <= stride && count * stride <= length
  }

  /** The block after block `n` starts one stride later. */
  lemma NextOffset(n: nat, count: nat, stride: nat)
    requires count == n + 1
    ensures n * stride + stride == count * stride
  {
  }

  /** The buffer after writing `images[i]` at offset `i * stride` for each `i` in turn. */
  function Pack(space: seq<byte>, images: seq<seq<byte>>, size: nat, stride: nat): (r: seq<byte>)
    requires SameSize(images, size) && Fits(|images|, size, stride, |space|)
    ensures |r| == |space|
    decreases |images|
  {
    if images == [] then space
    else
      var n := |images| - 1;
      NextOffset(n, |images|, stride);
      Overwrite(Pack(space, images[..n], size, stride), n * stride, images[n])
  }

  /** Packing one more image is one more `memcpy` at that image's offset. */
  lemma PackStep(space: seq<byte>, images: seq<seq<byte>>, size: nat, stride: nat, i: nat)
    requires SameSize(images, size) && Fits(|images|, size, stride, |space|) && i < |images|
    ensures i * stride + size <= |space|
    ensures Pack(space, images[..i + 1], size, stride)
      == Overwrite(Pack(space, images[..i], size, stride), i * stride, images[i])
  {
    BlockWithinBuffer(i, |images|, size, stride);
    NextOffset(i, i + 1, stride);
    assert images[..i + 1][..i] == images[..i];
  }

  /** Block `i` of the packed buffer holds exactly `images[i]`. */
  lemma {:induction false} PackedBlock(space: seq<byte>, images: seq<seq<byte>>, size: nat, stride: nat, i: nat)
    requires SameSize(images, size) && Fits(|images|, size, stride, |space|) && i < |images|
    ensures i * stride + size <= |space|
    ensures Pack(space, images, size, stride)[i * stride .. i * stride + size] == images[i]
    decreases |images|, 1
  {
    BlockWithinBuffer(i, |images|, size, stride);
    if i < |images| - 1 {
      PackedEarlierBlock(space, images, size, stride, i);
    }
  }

  /** The last image written leaves every earlier block alone: the induction step of `PackedBlock`. */
  lemma {:induction false} PackedEarlierBlock(space: seq<byte>, images: seq<seq<byte>>, size: nat, stride: nat, i: nat)
    requires SameSize(images, size) && Fits(|images|, size, stride, |space|) && i < |images| - 1
    ensures i * stride + size <= |space|
    ensures Pack(space, images, size, stride)[i * stride .. i * stride + size] == images[i]
    decreases |images|, 0
  {
    var n := |images| - 1;
    var lo, last := i * stride, n * stride;
    NextOffset(n, |images|, stride);
    BlocksDisjoint(i, n, size, stride);
    BlockWithinBuffer(n, |images|, size, stride);
    var prev := Pack(space, images[..n], size, stride);
    PackedBlock(space, images[..n], size, stride, i);
    OverwriteBefore(prev, last, images[n], lo, lo + size);
  }

  /** A byte in no block: past the last block, or in the padding after a block. */
  predicate IsPadding(b: nat, count: nat, size: nat, stride: nat)
    requires stride > 0
  {
    b >= count * stride || b % stride >= size
  }

  /** Packing leaves every padding byte as it was. */
  lemma {:induction false} PackedPadding(space: seq<byte>, images: seq<seq<byte>>, size: nat, stride: nat, b: nat)
    requires SameSize(images, size) && Fits(|images|, size, stride, |space|) && b < |space|
    requires IsPadding(b, |images|, size, stride)
    ensures Pack(space, images, size, stride)[b] == space[b]
  {
    if images != [] {
      var n := |images| - 1;
      NextOffset(n, |images|, stride);
      if n * stride <= b < n * stride + size {
        ModUnique(b, stride, n, b - n * stride);
        assert false;
      }
      PackedPadding(space, images[..n], size, stride, b);
    }
  }

  /** A byte of block `i` is not padding: blocks and padding partition the packed bytes. */
  lemma BlockIsNotPadding(b: nat, i: nat, count: nat, size: nat, stride: nat)
    requires 0 < size <= stride && i < count
    requires i * stride <= b < i * stride + size
    ensures !IsPadding(b, count, size, stride)
  {
    BlockWithinBuffer(i, count, size, stride);
    ModUnique(b, stride, i, b - i * stride);
  }

  /** Two sequences that agree on their first `n` elements agree on every range inside them. */
  lemma SamePrefix(a: seq<byte>, b: seq<byte>, n: nat, lo: nat, hi: nat)
    requires n <= |a| && n <= |b| && a[..n] == b[..n] && lo <= hi <= n
    ensures a[lo..hi] == b[lo..hi]
  {
    forall k | lo <= k < hi
      ensures a[k] == b[k]
    {
      assert a[k] == a[..n][k] && b[k] == b[..n][k];
    }
  }

  /** Every block of the packed buffer holds its image. */
  lemma PackedBlocks(space: seq<byte>, images: seq<seq<byte>>, size: nat, stride: nat)
    requires SameSize(images, size) && Fits(|images|, size, stride, |space|)
    ensures forall i :: 0 <= i < |images| ==>
      i * stride + size <= |space| && Pack(space, images, size, stride)[i * stride .. i * stride + size] == images[i]
  {
    forall i | 0 <= i < |images|
      ensures i * stride + size <= |space| && Pack(space, images, size, stride)[i * stride .. i * stride + size] == images[i]
    {
      PackedBlock(space, images, size, stride, i);
    }
  }

  /** A copy of the first `count` blocks of `packed` holds the same blocks. */
  lemma CopiedBlocks(packed: seq<byte>, copy: seq<byte>, images: seq<seq<byte>>, size: nat, stride: nat)
    requires Fits(|images|, size, stride, |packed|) && |images| * stride <= |copy|
    requires copy[..|images| * stride] == packed[..|images| * stride]
    requires forall i :: 0 <= i < |images| ==>
      i * stride + size <= |packed| && packed[i * stride .. i * stride + size] == images[i]
    ensures forall i :: 0 <= i < |images| ==>
      i * stride + size <= |copy| && copy[i * stride .. i * stride + size] == images[i]
  {
    forall i | 0 <= i < |images|
      ensures i * stride + size <= |copy| && copy[i * stride .. i * stride + size] == images[i]
    {
      var lo := i * stride;
      BlockWithinBuffer(i, |images|, size, stride);
      SamePrefix(copy, packed, |images| * stride, lo, lo + size);
    }
  }

  /** A copy of the packed prefix holds every block's image at its offset. */
  lemma {:induction false} CopiedPack(space: seq<byte>, images: seq<seq<byte>>, size: nat, stride: nat, copy: seq<byte>)
    requires SameSize(images, size) && Fits(|images|, size, stride, |space|) && |images| * stride <= |copy|
    requires copy[..|images| * stride] == Pack(space, images, size, stride)[..|images| * stride]
    ensures forall i :: 0 <= i < |images| ==>
      i * stride + size <= |copy| && copy[i * stride .. i * stride + size] == images[i]
  {
    PackedBlocks(space, images, size, stride);
    CopiedBlocks(Pack(space, images, size, stride), copy, images, size, stride);
  }
}

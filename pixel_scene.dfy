/**
 * A scene (source/PixelScene.cpp): the objects it draws, the camera block
 * written to one uniform buffer per frame slot, and the per-object blocks
 * packed at an aligned stride into one dynamic uniform buffer per slot.
 *
 * Device memory is host-visible memory seen through `vkMapMemory`: each
 * slot's `VkDeviceMemory` is a byte array (null is `VK_NULL_HANDLE`), and a
 * map/`memcpy`/unmap sequence is a copy into a prefix of that array.
 */
module Scenes {
  import opened Glm
  import opened Layout
  import opened Alignment
  import opened Objects
  import opened Packing

  /** The camera block: view and projection matrices, in that order. */
  datatype UboVP = UboVP(V: Mat4, P: Mat4)

  /** `sizeof(UboVP)`. */
  const UBO_VP_SIZE: nat := MAT4_PAIR_SIZE

  /** An opaque `VkBuffer` handle. */
  type BufferHandle = nat

  const NULL_HANDLE: BufferHandle := 0

  function UboVPBytes(u: UboVP): (r: seq<byte>)
    ensures |r| == UBO_VP_SIZE
  {
    Mat4PairBytes(u.V, u.P)
  }

  /** Reads the camera block back from its bytes, as the vertex shader does. */
  function UboVPFromBytes(b: seq<byte>): UboVP
    requires |b| == UBO_VP_SIZE
  {
    var (V, P) := Mat4PairFromBytes(b);
    UboVP(V, P)
  }

  /** Reading the camera block back from its bytes yields the block. */
  lemma UboVPRoundTrip(u: UboVP)
    ensures UboVPFromBytes(UboVPBytes(u)) == u
  {
    Mat4PairRoundTrip(u.V, u.P);
  }

  /** The `DynamicUBObj` of each object, in order. */
  function DynamicUBOs(objects: seq<PixelObject>): (r: seq<DynamicUBObj>)
    reads set o | o in objects
    ensures |r| == |objects|
    ensures forall i :: 0 <= i < |objects| ==> r[i] == objects[i].dynamicUBO
  {
    if objects == [] then []
    else DynamicUBOs(objects[..|objects| - 1]) + [objects[|objects| - 1].dynamicUBO]
  }

  /** The byte image of each block, in order. */
  function BlockImages(blocks: seq<DynamicUBObj>): (r: seq<seq<byte>>)
    ensures |r| == |blocks| && SameSize(r, DYNAMIC_UBO_SIZE)
  {
    if blocks == [] then [] else BlockImages(blocks[..|blocks| - 1]) + [DynamicUBObjBytes(blocks[|blocks| - 1])]
  }

  /** Image `k` is the byte image of block `k`. */
  lemma {:induction false} BlockImagesAt(blocks: seq<DynamicUBObj>, k: nat)
    requires k < |blocks|
    ensures BlockImages(blocks)[k] == DynamicUBObjBytes(blocks[k])
  {
    if k < |blocks| - 1 {
      BlockImagesAt(blocks[..|blocks| - 1], k);
    }
  }

  /** Every byte of a slot memory array is distinct from every other slot's array. */
  predicate Distinct(memories: seq<array?<byte>>)
  {
    forall i, j :: 0 <= i < |memories| && 0 <= j < |memories| && i != j && memories[i] != null ==> memories[i] != memories[j]
  }

  /** `s` resized to `n` elements, new elements being `fill` (`std::vector::resize`). */
  function Resize<T>(s: seq<T>, n: nat, fill: T): (r: seq<T>)
    ensures |r| == n
    ensures forall i :: 0 <= i < n && i < |s| ==> r[i] == s[i]
    ensures forall i :: |s| <= i < n ==> r[i] == fill
  {
    if n <= |s| then s[..n] else s + seq(n - |s|, _ => fill)
  }

  /** Resizing a list of distinct memories, padding with null, keeps them distinct. */
  lemma ResizeKeepsDistinct(memories: seq<array?<byte>>, n: nat)
    requires Distinct(memories)
    ensures Distinct(Resize(memories, n, null))
  {
    var r := Resize(memories, n, null);
    forall i, j | 0 <= i < n && 0 <= j < n && i != j && r[i] != null
      ensures r[i] != r[j]
    {
      assert i < |memories| && r[i] == memories[i];
      if j < |memories| {
        assert r[j] == memories[j];
      }
    }
  }

  /** The memories that `memcpy` into slot `i` of `memories` may change. */
  function MemoryAt(memories: seq<array?<byte>>, i: nat): set<array<byte>>
  {
    if i < |memories| && memories[i] != null then {memories[i]} else {}
  }

  /** Whether every entry of `flags` is true, so no slot needs the camera block. */
  predicate AllUpdated(flags: seq<bool>)
  {
    forall k :: 0 <= k < |flags| ==> flags[k]
  }

  class PixelScene {
    /** `MAX_OBJECTS`: how many object blocks the transfer space holds. */
    const maxObjects: nat

    var allObjects: seq<PixelObject>
    var sceneVP: UboVP
    var uniformBuffers: seq<BufferHandle>
    var uniformBufferMemories: seq<array?<byte>>
    var dynamicUniformBuffers: seq<BufferHandle>
    var dynamicUniformBufferMemories: seq<array?<byte>>
    var buffersUpdated: seq<bool>
    var minUBOOffset: nat
    var objectUBOAlignment: nat
    var modelTransferSpace: array?<byte>

    /**
     * The five per-slot vectors have one entry per slot, each device memory
     * belongs to one slot only, and the host transfer space is none of them.
     */
    predicate Valid()
      reads this
    {
      && |uniformBufferMemories| == |uniformBuffers|
      && |dynamicUniformBuffers| == |uniformBuffers|
      && |dynamicUniformBufferMemories| == |uniformBuffers|
      && |buffersUpdated| == |uniformBuffers|
      && Distinct(uniformBufferMemories + dynamicUniformBufferMemories)
      && (modelTransferSpace != null ==> modelTransferSpace !in uniformBufferMemories + dynamicUniformBufferMemories)
    }

    /**
     * After `initialize`: the offset alignment is a 64-bit power of two (as
     * Vulkan guarantees for `minUniformBufferOffsetAlignment`), the stride is
     * computed from it, and the transfer space is allocated.
     */
    predicate Initialized()
      reads this
    {
      && IsPowerOfTwo(minUBOOffset) && minUBOOffset < TWO_64
      && objectUBOAlignment == AlignedStride(DYNAMIC_UBO_SIZE, minUBOOffset)
      && Allocated()
    }

    /**
     * The transfer space holds `maxObjects` strides, each wide enough for one
     * object block, without 64-bit overflow of the size.
     */
    predicate Allocated()
      reads this
    {
      && DYNAMIC_UBO_SIZE <= objectUBOAlignment
      && modelTransferSpace != null
      && objectUBOAlignment * maxObjects < TWO_64
      && modelTransferSpace.Length == objectUBOAlignment * maxObjects
    }

    constructor (maxObjects: nat)
      ensures Valid()
      ensures this.maxObjects == maxObjects
      ensures allObjects == [] && buffersUpdated == []
      ensures modelTransferSpace == null
    {
      this.maxObjects := maxObjects;
      allObjects := [];
      uniformBuffers := [];
      uniformBufferMemories := [];
      dynamicUniformBuffers := [];
      dynamicUniformBufferMemories := [];
      buffersUpdated := [];
      modelTransferSpace := null;
    }

    /** `sizeof(UboVP)`: the number of bytes one camera block occupies. */
    static function GetUniformBufferSize(): (r: nat)
      ensures forall u :: |UboVPBytes(u)| == r
    {
      UBO_VP_SIZE
    }

    /** Records the device's `minUniformBufferOffsetAlignment` (a 64-bit value). */
    method GetMinUBOOffset(limit: nat)
      requires limit < TWO_64
      modifies this`minUBOOffset
      ensures minUBOOffset == limit
    {
      minUBOOffset := limit;
    }

    /**
     * Computes the stride with 64-bit arithmetic and allocates a fresh
     * transfer space of `stride * MAX_OBJECTS` bytes (64-bit product).
     */
    method AllocateDynamicBufferTransferSpace()
      requires Valid()
      modifies this`objectUBOAlignment, this`modelTransferSpace
      ensures Valid()
      ensures objectUBOAlignment == AlignedStride(DYNAMIC_UBO_SIZE, minUBOOffset)
      ensures modelTransferSpace != null && fresh(modelTransferSpace)
      ensures modelTransferSpace.Length == Mul64(objectUBOAlignment, maxObjects)
    {
      objectUBOAlignment := AlignedStride(DYNAMIC_UBO_SIZE, minUBOOffset);
      modelTransferSpace := new byte[Mul64(objectUBOAlignment, maxObjects)];
    }

    /** `initialize` without the descriptor-set-layout creation. */
    method Initialize(limit: nat)
      requires Valid() && limit < TWO_64
      modifies this`minUBOOffset, this`objectUBOAlignment, this`modelTransferSpace
      ensures Valid()
      ensures minUBOOffset == limit
      ensures IsPowerOfTwo(limit) && AlignedStride(DYNAMIC_UBO_SIZE, limit) * maxObjects < TWO_64 ==> Initialized()
    {
      GetMinUBOOffset(limit);
      AllocateDynamicBufferTransferSpace();
      if IsPowerOfTwo(limit) {
        StrideBounds(DYNAMIC_UBO_SIZE, limit);
      }
    }

    /** The byte size of one slot's dynamic uniform buffer: the transfer space's size. */
    function GetDynamicUniformBufferSize(): (r: nat)
      reads this
      ensures Initialized() ==> r == modelTransferSpace.Length
    {
      Mul64(objectUBOAlignment, maxObjects)
    }

    /** The stride: a multiple of the device's alignment that fits one object block. */
    function GetMinAlignment(): (r: nat)
      reads this
      ensures Initialized() ==> r % minUBOOffset == 0 && DYNAMIC_UBO_SIZE <= r < DYNAMIC_UBO_SIZE + minUBOOffset
    {
      assert Initialized() ==>
        objectUBOAlignment % minUBOOffset == 0 && DYNAMIC_UBO_SIZE <= objectUBOAlignment < DYNAMIC_UBO_SIZE + minUBOOffset by {
        if Initialized() {
          StrideBounds(DYNAMIC_UBO_SIZE, minUBOOffset);
        }
      }
      objectUBOAlignment
    }

    method ResizeBuffers(newSize: nat)
      requires Valid()
      modifies this`uniformBuffers, this`uniformBufferMemories, this`dynamicUniformBuffers,
               this`dynamicUniformBufferMemories, this`buffersUpdated
      ensures Valid()
      ensures uniformBuffers == Resize(old(uniformBuffers), newSize, NULL_HANDLE)
      ensures uniformBufferMemories == Resize(old(uniformBufferMemories), newSize, null)
      ensures dynamicUniformBuffers == Resize(old(dynamicUniformBuffers), newSize, NULL_HANDLE)
      ensures dynamicUniformBufferMemories == Resize(old(dynamicUniformBufferMemories), newSize, null)
      ensures buffersUpdated == Resize(old(buffersUpdated), newSize, false)
    {
      ghost var all := uniformBufferMemories + dynamicUniformBufferMemories;
      uniformBuffers := Resize(uniformBuffers, newSize, NULL_HANDLE);
      uniformBufferMemories := Resize(uniformBufferMemories, newSize, null);
      dynamicUniformBuffers := Resize(dynamicUniformBuffers, newSize, NULL_HANDLE);
      dynamicUniformBufferMemories := Resize(dynamicUniformBufferMemories, newSize, null);
      buffersUpdated := Resize(buffersUpdated, newSize, false);
      ResizedPairDistinct(old(uniformBufferMemories), old(dynamicUniformBufferMemories), newSize);
    }

    /** Stores a copy of `pixObject` (objects are held by value). */
    method AddObject(pixObject: PixelObject)
      modifies this`allObjects
      ensures |allObjects| == |old(allObjects)| + 1
      ensures allObjects[..|old(allObjects)|] == old(allObjects)
      ensures fresh(allObjects[|old(allObjects)|]) && allObjects[|old(allObjects)|].SameAs(pixObject)
      ensures GetNumObjects() == old(GetNumObjects()) + 1
      ensures GetObjectAt(old(GetNumObjects())).SameAs(pixObject)
    {
      var copy := new PixelObject.Copy(pixObject);
      allObjects := allObjects + [copy];
    }

    function GetNumObjects(): (r: nat)
      reads this
      ensures r == |allObjects|
    {
      |allObjects|
    }

    /** The stored object at `index`; callers update it in place through this reference. */
    function GetObjectAt(index: nat): (r: PixelObject)
      requires index < |allObjects|
      reads this
      ensures r == allObjects[index]
    {
      allObjects[index]
    }

    function GetSceneVP(): UboVP
      reads this
    {
      sceneVP
    }

    method SetSceneVP(data: UboVP)
      modifies this`sceneVP
      ensures GetSceneVP() == data
    {
      sceneVP := data;
    }

    method SetSceneV(V: Mat4)
      modifies this`sceneVP
      ensures GetSceneVP() == old(GetSceneVP()).(V := V)
    {
      sceneVP := sceneVP.(V := V);
    }

    method SetSceneP(P: Mat4)
      modifies this`sceneVP
      ensures GetSceneVP() == old(GetSceneVP()).(P := P)
    {
      sceneVP := sceneVP.(P := P);
    }

    /** Stands for the caller allocating a slot's `VkDeviceMemory` through `getUniformBufferMemories(index)`. */
    method AllocateUniformBufferMemory(index: nat, size: nat)
      requires Valid() && index < |uniformBufferMemories|
      modifies this`uniformBufferMemories
      ensures Valid()
      ensures uniformBufferMemories == old(uniformBufferMemories)[index := uniformBufferMemories[index]]
      ensures uniformBufferMemories[index] != null && fresh(uniformBufferMemories[index])
      ensures uniformBufferMemories[index].Length == size
    {
      var memory := new byte[size];
      uniformBufferMemories := uniformBufferMemories[index := memory];
      FreshKeepsDistinct(old(uniformBufferMemories), dynamicUniformBufferMemories, index, memory, true);
    }

    /** Stands for the caller allocating a slot's `VkDeviceMemory` through `getDynamicUniformBufferMemories(index)`. */
    method AllocateDynamicUniformBufferMemory(index: nat, size: nat)
      requires Valid() && index < |dynamicUniformBufferMemories|
      modifies this`dynamicUniformBufferMemories
      ensures Valid()
      ensures dynamicUniformBufferMemories == old(dynamicUniformBufferMemories)[index := dynamicUniformBufferMemories[index]]
      ensures dynamicUniformBufferMemories[index] != null && fresh(dynamicUniformBufferMemories[index])
      ensures dynamicUniformBufferMemories[index].Length == size
    {
      var memory := new byte[size];
      dynamicUniformBufferMemories := dynamicUniformBufferMemories[index := memory];
      FreshKeepsDistinct(uniformBufferMemories, old(dynamicUniformBufferMemories), index, memory, false);
    }

    /**
     * Writes the camera block to slot `bufferIndex` when some slot has not
     * been updated yet; before writing, it negates `P[1][1]` in the stored
     * block (Vulkan's y axis points down).
     */
    method UpdateUniformBuffer(bufferIndex: nat)
      requires Valid()
      requires !AllUpdated(buffersUpdated) ==>
        bufferIndex < |buffersUpdated| && uniformBufferMemories[bufferIndex] != null
        && uniformBufferMemories[bufferIndex].Length >= UBO_VP_SIZE
      modifies this`sceneVP, this`buffersUpdated, MemoryAt(uniformBufferMemories, bufferIndex)
      ensures Valid()
      ensures AllUpdated(old(buffersUpdated)) ==>
        sceneVP == old(sceneVP) && buffersUpdated == old(buffersUpdated)
        && forall m | m in MemoryAt(uniformBufferMemories, bufferIndex) :: m[..] == old(m[..])
      ensures !AllUpdated(old(buffersUpdated)) ==>
        && sceneVP == old(sceneVP).(P := FlipY(old(sceneVP).P))
        && buffersUpdated == old(buffersUpdated)[bufferIndex := true]
        && uniformBufferMemories[bufferIndex][..] == Overwrite(old(uniformBufferMemories[bufferIndex][..]), 0, UboVPBytes(sceneVP))
        && UboVPFromBytes(uniformBufferMemories[bufferIndex][..UBO_VP_SIZE]) == sceneVP
    {
      var bufferNeedUpdate := false;
      var k := 0;
      while k < |buffersUpdated|
        invariant 0 <= k <= |buffersUpdated|
        invariant !bufferNeedUpdate
        invariant forall j :: 0 <= j < k ==> buffersUpdated[j]
      {
        if !buffersUpdated[k] {
          bufferNeedUpdate := true;
          break;
        }
        k := k + 1;
      }

      if bufferNeedUpdate {
        sceneVP := sceneVP.(P := FlipY(sceneVP.P));
        var bytes := UboVPBytes(sceneVP);
        CopyInto(uniformBufferMemories[bufferIndex], 0, bytes);
        assert uniformBufferMemories[bufferIndex][..UBO_VP_SIZE] == bytes;
        UboVPRoundTrip(sceneVP);
        buffersUpdated := buffersUpdated[bufferIndex := true];
      }
    }

    /**
     * Packs each object's `DynamicUBObj` at offset `i * stride` of the
     * transfer space, then copies the first `stride * count` bytes into slot
     * `bufferIndex`'s dynamic uniform buffer.
     */
    method UpdateDynamicUniformBuffer(bufferIndex: nat)
      requires Valid() && Allocated()
      requires |allObjects| <= maxObjects
      requires bufferIndex < |dynamicUniformBufferMemories| && dynamicUniformBufferMemories[bufferIndex] != null
      requires |allObjects| * objectUBOAlignment <= dynamicUniformBufferMemories[bufferIndex].Length
      modifies modelTransferSpace, dynamicUniformBufferMemories[bufferIndex]
      ensures Fits(|allObjects|, DYNAMIC_UBO_SIZE, objectUBOAlignment, modelTransferSpace.Length)
      ensures modelTransferSpace[..] ==
        Pack(old(modelTransferSpace[..]), BlockImages(DynamicUBOs(allObjects)), DYNAMIC_UBO_SIZE, objectUBOAlignment)
      ensures dynamicUniformBufferMemories[bufferIndex][..] ==
        Overwrite(old(dynamicUniformBufferMemories[bufferIndex][..]), 0, modelTransferSpace[..|allObjects| * objectUBOAlignment])
      ensures forall i :: 0 <= i < |allObjects| ==>
        && i * objectUBOAlignment + DYNAMIC_UBO_SIZE <= dynamicUniformBufferMemories[bufferIndex].Length
        && DynamicUBObjFromBytes(dynamicUniformBufferMemories[bufferIndex][i * objectUBOAlignment .. i * objectUBOAlignment + DYNAMIC_UBO_SIZE])
          == allObjects[i].dynamicUBO
    {
      var memory := dynamicUniformBufferMemories[bufferIndex];
      assert memory in uniformBufferMemories + dynamicUniformBufferMemories;
      assert |allObjects| * objectUBOAlignment <= modelTransferSpace.Length by {
        FewerBlocks(|allObjects|, maxObjects, objectUBOAlignment);
        assert maxObjects * objectUBOAlignment == objectUBOAlignment * maxObjects;
      }
      TransferObjects(modelTransferSpace, memory, allObjects, objectUBOAlignment);
    }
  }

  /**
   * Packs each object's block into `space` at its offset, then copies the
   * first `count * stride` bytes of `space` into `memory`.
   */
  method TransferObjects(space: array<byte>, memory: array<byte>, objects: seq<PixelObject>, stride: nat)
    requires space != memory
    requires Fits(|objects|, DYNAMIC_UBO_SIZE, stride, space.Length) && |objects| * stride <= memory.Length
    modifies space, memory
    ensures space[..] == Pack(old(space[..]), BlockImages(DynamicUBOs(objects)), DYNAMIC_UBO_SIZE, stride)
    ensures memory[..] == Overwrite(old(memory[..]), 0, space[..|objects| * stride])
    ensures forall i :: 0 <= i < |objects| ==>
      && i * stride + DYNAMIC_UBO_SIZE <= memory.Length
      && DynamicUBObjFromBytes(memory[i * stride .. i * stride + DYNAMIC_UBO_SIZE]) == objects[i].dynamicUBO
  {
    PackObjects(space, objects, stride);
    CopyInto(memory, 0, space[..|objects| * stride]);
    TransferredBlocksDecode(old(space[..]), DynamicUBOs(objects), stride, old(memory[..]), memory[..]);
  }

  /** Writes `objects[i]`'s `DynamicUBObj` at offset `i * stride` of `space`, for each `i` in turn. */
  method PackObjects(space: array<byte>, objects: seq<PixelObject>, stride: nat)
    requires Fits(|objects|, DYNAMIC_UBO_SIZE, stride, space.Length)
    modifies space
    ensures space[..] == Pack(old(space[..]), BlockImages(DynamicUBOs(objects)), DYNAMIC_UBO_SIZE, stride)
  {
    ghost var blocks := DynamicUBOs(objects);
    ghost var images := BlockImages(blocks);
    var i := 0;
    while i < |objects|
      invariant 0 <= i <= |objects|
      invariant space[..] == Pack(old(space[..]), images[..i], DYNAMIC_UBO_SIZE, stride)
    {
      PackBlockStep(old(space[..]), blocks, stride, i);
      CopyInto(space, i * stride, DynamicUBObjBytes(objects[i].dynamicUBO));
      i := i + 1;
    }
    assert images[..|objects|] == images;
  }

  /** Packing block `i` is one `memcpy` of its byte image at offset `i * stride`. */
  lemma PackBlockStep(space: seq<byte>, blocks: seq<DynamicUBObj>, stride: nat, i: nat)
    requires Fits(|blocks|, DYNAMIC_UBO_SIZE, stride, |space|) && i < |blocks|
    ensures 0 <= i * stride && i * stride + DYNAMIC_UBO_SIZE <= |space|
    ensures Pack(space, BlockImages(blocks)[..i + 1], DYNAMIC_UBO_SIZE, stride)
      == Overwrite(Pack(space, BlockImages(blocks)[..i], DYNAMIC_UBO_SIZE, stride), i * stride, DynamicUBObjBytes(blocks[i]))
  {
    PackStep(space, BlockImages(blocks), DYNAMIC_UBO_SIZE, stride, i);
    BlockImagesAt(blocks, i);
  }

  /** Bytes equal to a block's image decode to that block. */
  lemma DecodeImage(bytes: seq<byte>, u: DynamicUBObj)
    requires bytes == DynamicUBObjBytes(u)
    ensures |bytes| == DYNAMIC_UBO_SIZE && DynamicUBObjFromBytes(bytes) == u
  {
    DynamicUBObjRoundTrip(u);
  }

  /** Bytes holding one block's image decode to that block. */
  lemma {:induction false} BlockDecodes(image: seq<byte>, blocks: seq<DynamicUBObj>, i: nat)
    requires i < |blocks| && image == BlockImages(blocks)[i]
    ensures DynamicUBObjFromBytes(image) == blocks[i]
  {
    BlockImagesAt(blocks, i);
    DecodeImage(image, blocks[i]);
  }

  /** Bytes holding each block's image at its offset decode, block by block, to the blocks. */
  lemma {:induction false} BlocksDecode(copy: seq<byte>, blocks: seq<DynamicUBObj>, stride: nat)
    requires forall i :: 0 <= i < |blocks| ==>
      i * stride + DYNAMIC_UBO_SIZE <= |copy| && copy[i * stride .. i * stride + DYNAMIC_UBO_SIZE] == BlockImages(blocks)[i]
    ensures forall i :: 0 <= i < |blocks| ==>
      i * stride + DYNAMIC_UBO_SIZE <= |copy| && DynamicUBObjFromBytes(copy[i * stride .. i * stride + DYNAMIC_UBO_SIZE]) == blocks[i]
  {
    forall i | 0 <= i < |blocks|
      ensures i * stride + DYNAMIC_UBO_SIZE <= |copy| && DynamicUBObjFromBytes(copy[i * stride .. i * stride + DYNAMIC_UBO_SIZE]) == blocks[i]
    {
      BlockDecodes(copy[i * stride .. i * stride + DYNAMIC_UBO_SIZE], blocks, i);
    }
  }

  /**
   * A copy of the prefix of a transfer space packed with `blocks` decodes,
   * at each offset `i * stride`, to block `i`.
   */
  lemma {:induction false} TransferredBlocksDecode(space: seq<byte>, blocks: seq<DynamicUBObj>, stride: nat,
                                                   prior: seq<byte>, copy: seq<byte>)
    requires Fits(|blocks|, DYNAMIC_UBO_SIZE, stride, |space|) && |blocks| * stride <= |prior|
    requires copy == Overwrite(prior, 0, Pack(space, BlockImages(blocks), DYNAMIC_UBO_SIZE, stride)[..|blocks| * stride])
    ensures forall i :: 0 <= i < |blocks| ==>
      i * stride + DYNAMIC_UBO_SIZE <= |copy| && DynamicUBObjFromBytes(copy[i * stride .. i * stride + DYNAMIC_UBO_SIZE]) == blocks[i]
  {
    var used := |blocks| * stride;
    var packed := Pack(space, BlockImages(blocks), DYNAMIC_UBO_SIZE, stride);
    assert copy[..used] == packed[..used] by {
      assert copy[0..used] == packed[..used];
    }
    CopiedPack(space, BlockImages(blocks), DYNAMIC_UBO_SIZE, stride, copy);
    BlocksDecode(copy, blocks, stride);
  }

  /** Resizing both memory lists of a scene keeps the whole set distinct. */
  lemma ResizedPairDistinct(uniform: seq<array?<byte>>, dynamic: seq<array?<byte>>, n: nat)
    requires Distinct(uniform + dynamic)
    ensures Distinct(Resize(uniform, n, null) + Resize(dynamic, n, null))
  {
    var all := uniform + dynamic;
    var r := Resize(uniform, n, null) + Resize(dynamic, n, null);
    forall i, j | 0 <= i < |r| && 0 <= j < |r| && i != j && r[i] != null
      ensures r[i] != r[j]
    {
      var i' := if i < n then i else |uniform| + (i - n);
      var j' := if j < n then j else |uniform| + (j - n);
      assert r[i] == all[i'];
      if r[j] != null {
        assert r[j] == all[j'];
      }
    }
  }

  /** Putting a fresh array in one slot keeps the memories distinct. */
  lemma FreshKeepsDistinct(uniform: seq<array?<byte>>, dynamic: seq<array?<byte>>, index: nat, memory: array<byte>, inUniform: bool)
    requires Distinct(uniform + dynamic)
    requires memory !in uniform + dynamic
    requires if inUniform then index < |uniform| else index < |dynamic|
    ensures inUniform ==> Distinct(uniform[index := memory] + dynamic)
    ensures !inUniform ==> Distinct(uniform + dynamic[index := memory])
  {
    var all := uniform + dynamic;
    var at := if inUniform then index else |uniform| + index;
    var r := all[at := memory];
    if inUniform {
      assert uniform[index := memory] + dynamic == r;
    } else {
      assert uniform + dynamic[index := memory] == r;
    }
    forall i, j | 0 <= i < |r| && 0 <= j < |r| && i != j && r[i] != null
      ensures r[i] != r[j]
    {
      if i != at && j != at {
        assert r[i] == all[i] && r[j] == all[j];
      } else if i == at {
        assert r[j] == all[j];
      } else {
        assert r[i] == all[i];
      }
    }
  }
}

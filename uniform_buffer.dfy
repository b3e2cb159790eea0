/** A host-visible buffer holding one frame's uniform data, written by byte
    ranges through mapped memory. */
module UniformBuffers {
  import opened VkTypes

  /** The buffer's memory after copying `data` to `offset`: the bytes of the
      range become `data` and every other byte keeps its value. A byte the
      program has never written is None: the allocator's initial contents are
      unspecified. */
  function Overwrite(memory: seq<Option<Byte>>, offset: nat, data: seq<Byte>): (r: seq<Option<Byte>>)
    requires offset + |data| <= |memory|
    ensures |r| == |memory|
    ensures forall i :: 0 <= i < |data| ==> r[offset + i] == Some(data[i])
    ensures forall i :: 0 <= i < |memory| && !(offset <= i < offset + |data|) ==> r[i] == memory[i]
  {
    memory[..offset] + seq(|data|, i requires 0 <= i < |data| => Some(data[i])) + memory[offset + |data|..]
  }

  /** Copies to disjoint ranges can be done in either order. */
  lemma OverwriteDisjointCommute(memory: seq<Option<Byte>>, offset1: nat, data1: seq<Byte>, offset2: nat, data2: seq<Byte>)
    requires offset1 + |data1| <= |memory| && offset2 + |data2| <= |memory|
    requires offset1 + |data1| <= offset2 || offset2 + |data2| <= offset1
    ensures Overwrite(Overwrite(memory, offset1, data1), offset2, data2)
         == Overwrite(Overwrite(memory, offset2, data2), offset1, data1)
  {
    var a := Overwrite(Overwrite(memory, offset1, data1), offset2, data2);
    var b := Overwrite(Overwrite(memory, offset2, data2), offset1, data1);
    assert |a| == |b|;
    forall i | 0 <= i < |a|
      ensures a[i] == b[i]
    {
      if offset1 <= i < offset1 + |data1| {
        assert a[i] == Some(data1[i - offset1]);
      } else if offset2 <= i < offset2 + |data2| {
        assert b[i] == Some(data2[i - offset2]);
      }
    }
  }

  /** A second copy to the same range replaces the first completely. */
  lemma OverwriteSameRange(memory: seq<Option<Byte>>, offset: nat, first: seq<Byte>, second: seq<Byte>)
    requires offset + |first| <= |memory|
    requires |second| == |first|
    ensures Overwrite(Overwrite(memory, offset, first), offset, second) == Overwrite(memory, offset, second)
  {
    var a := Overwrite(Overwrite(memory, offset, first), offset, second);
    var b := Overwrite(memory, offset, second);
    forall i | 0 <= i < |a|
      ensures a[i] == b[i]
    {
      if offset <= i < offset + |second| {
        assert a[i] == Some(second[i - offset]);
      }
    }
  }

  class UniformBuffer {
    var bufferHandle: Handle
    var allocation: Handle
    var bufferSize: nat
    /** The mapped contents of the allocation. */
    var memory: seq<Option<Byte>>

    ghost predicate Valid()
      reads this
    {
      |memory| == bufferSize
    }

    constructor()
      ensures Valid()
      ensures bufferHandle == NullHandle && allocation == NullHandle
      ensures bufferSize == 0 && memory == []
    {
      bufferHandle := NullHandle;
      allocation := NullHandle;
      bufferSize := 0;
      memory := [];
    }

    /** Records the requested size and creates the buffer; the buffer and
        allocation the allocator returns are parameters. */
    method Initialise(size: nat, createdBuffer: Handle, createdAllocation: Handle)
      modifies this
      ensures Valid()
      ensures bufferSize == size
      ensures bufferHandle == createdBuffer && allocation == createdAllocation
      ensures memory == seq(size, _ => None)
    {
      bufferSize := size;
      bufferHandle := createdBuffer;
      allocation := createdAllocation;
      memory := seq(size, _ => None);
    }

    /** memcpy of `data` to `offset` in the mapped memory. The code does not
        check that the range fits; writing past the end is undefined
        behaviour, so the model demands it. */
    method SetBufferData(data: seq<Byte>, offset: nat)
      requires Valid()
      requires allocation != NullHandle
      requires offset + |data| <= bufferSize
      modifies this
      ensures Valid()
      ensures memory == Overwrite(old(memory), offset, data)
      ensures bufferHandle == old(bufferHandle) && allocation == old(allocation) && bufferSize == old(bufferSize)
    {
      memory := Overwrite(memory, offset, data);
    }

    /** Frees the buffer if there is one; a second Destroy does nothing. */
    method Destroy()
      modifies this
      ensures bufferHandle == NullHandle
      ensures old(bufferHandle) == NullHandle ==> allocation == old(allocation)
      ensures old(bufferHandle) != NullHandle ==> allocation == NullHandle
      ensures bufferSize == old(bufferSize) && memory == old(memory)
    {
      if bufferHandle != NullHandle {
        bufferHandle := NullHandle;
        allocation := NullHandle;
      }
    }
  }
}

/** A device-local buffer of vertices and the vertex count the draw call uses. */
module VertexBuffers {
  import opened VkTypes

  class VertexBuffer {
    var vertexCount: nat
    var bufferHandle: Handle
    /** Size in bytes and usage flags of the device-local buffer Create made. */
    var uploadedSize: nat
    var usage: bv32

    constructor()
      ensures vertexCount == 0
      ensures bufferHandle == NullHandle && uploadedSize == 0 && usage == 0
    {
      vertexCount := 0;
      bufferHandle := NullHandle;
      uploadedSize := 0;
      usage := 0;
    }

    /** Records the element count (as a uint32), then uploads sizeof(T) bytes
        per element to a buffer with vertex usage; the buffer the allocator
        returns is a parameter. */
    method Initialise(elementSize: nat, elementCount: nat, createdBuffer: Handle)
      modifies this
      ensures vertexCount == WrapU32(elementCount)
      ensures uploadedSize == elementSize * elementCount
      ensures usage == BufferUsageTransferDstBit | BufferUsageVertexBufferBit
      ensures bufferHandle == createdBuffer
    {
      vertexCount := WrapU32(elementCount);
      uploadedSize := elementSize * elementCount;
      usage := BufferUsageTransferDstBit | BufferUsageVertexBufferBit;
      bufferHandle := createdBuffer;
    }

    method GetVertexCount() returns (count: nat)
      ensures count == vertexCount
    {
      count := vertexCount;
    }
  }
}

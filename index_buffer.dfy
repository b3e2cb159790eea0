/** A device-local buffer of triangle indices, and the index type the draw
    call reads them as. */
module IndexBuffers {
  import opened VkTypes

  /** The element types IndexBuffer::Initialise compiles for; any other
      element type is rejected by a static_assert. */
  datatype IndexElement = U16 | U32

  /** VkIndexType. */
  datatype IndexType = IndexTypeUint16 | IndexTypeUint32

  /** sizeof(T). */
  function ElementSize(t: IndexElement): nat {
    match t
    case U16 => 2
    case U32 => 4
  }

  /** Bytes per index the device reads for an index type. */
  function IndexTypeSize(t: IndexType): nat {
    match t
    case IndexTypeUint16 => 2
    case IndexTypeUint32 => 4
  }

  /** The index type chosen for an element type: the one whose width is the
      element's, so the device reads each uploaded element as one index. */
  function IndexTypeOf(t: IndexElement): (r: IndexType)
    ensures IndexTypeSize(r) == ElementSize(t)
  {
    match t
    case U16 => IndexTypeUint16
    case U32 => IndexTypeUint32
  }

  /** Different element types give different index types. */
  lemma IndexTypeOfInjective(a: IndexElement, b: IndexElement)
    ensures IndexTypeOf(a) == IndexTypeOf(b) <==> a == b
  {
  }

  class IndexBuffer {
    var indexCount: nat
    var indexType: IndexType
    var bufferHandle: Handle
    /** Size in bytes and usage flags of the device-local buffer Create made. */
    var uploadedSize: nat
    var usage: bv32

    constructor()
      ensures indexCount == 0 && indexType == IndexTypeUint16
      ensures bufferHandle == NullHandle && uploadedSize == 0 && usage == 0
    {
      indexCount := 0;
      indexType := IndexTypeUint16;
      bufferHandle := NullHandle;
      uploadedSize := 0;
      usage := 0;
    }

    /** Records the element count (as a uint32) and the index type, then
        uploads sizeof(T) bytes per element to a buffer with index usage; the
        buffer the allocator returns is a parameter. */
    method Initialise(elementType: IndexElement, elementCount: nat, createdBuffer: Handle)
      modifies this
      ensures indexCount == WrapU32(elementCount)
      ensures indexType == IndexTypeOf(elementType)
      ensures uploadedSize == ElementSize(elementType) * elementCount
      ensures usage == BufferUsageTransferDstBit | BufferUsageIndexBufferBit
      ensures bufferHandle == createdBuffer
    {
      indexCount := WrapU32(elementCount);
      if elementType == U16 {
        indexType := IndexTypeUint16;
      } else {
        indexType := IndexTypeUint32;
      }
      uploadedSize := ElementSize(elementType) * elementCount;
      usage := BufferUsageTransferDstBit | BufferUsageIndexBufferBit;
      bufferHandle := createdBuffer;
    }
  }

  /** A draw over the whole buffer reads exactly the uploaded bytes, as long
      as the element count fits in 32 bits. */
  lemma DrawCoversUpload(elementType: IndexElement, elementCount: nat)
    requires elementCount < U32Modulus
    ensures WrapU32(elementCount) * IndexTypeSize(IndexTypeOf(elementType)) == ElementSize(elementType) * elementCount
  {
  }
}

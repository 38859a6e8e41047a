/** Mesh: a pair of immutable GPU buffers (vertices, indices) and an index count
    (DX11Starter/Mesh.cpp).  The buffers are COM objects; their reference count is the
    only state the core changes on them, and it is kept here as a ghost counter. */
module Meshes {

  /** sizeof(Vertex): three floats of position, three of normal and two of uv. */
  const VertexStride: nat := 32
  /** sizeof(unsigned int). */
  const IndexStride: nat := 4
  /** D3D11_BUFFER_DESC::ByteWidth is a 32-bit UINT. */
  const UintRange: nat := 0x1_0000_0000

  datatype Usage = Immutable
  datatype BindFlag = BindVertexBuffer | BindIndexBuffer

  /** The fields of D3D11_BUFFER_DESC that the constructor sets to something other than 0. */
  datatype BufferDesc = BufferDesc(usage: Usage, byteWidth: nat, bind: BindFlag)

  /** `sizeof(Vertex) * vertexCount`, stored into a UINT. */
  function VertexBufferDesc(vertexCount: int): (d: BufferDesc)
    ensures d.usage == Immutable && d.bind == BindVertexBuffer
    ensures 0 <= vertexCount < UintRange / VertexStride ==> d.byteWidth == VertexStride * vertexCount
  {
    BufferDesc(Immutable, (VertexStride * vertexCount) % UintRange, BindVertexBuffer)
  }

  /** `sizeof(unsigned int) * indexCount`, stored into a UINT. */
  function IndexBufferDesc(indexCount: int): (d: BufferDesc)
    ensures d.usage == Immutable && d.bind == BindIndexBuffer
    ensures 0 <= indexCount < UintRange / IndexStride ==> d.byteWidth == IndexStride * indexCount
  {
    BufferDesc(Immutable, (IndexStride * indexCount) % UintRange, BindIndexBuffer)
  }

  /** A count that does not fit keeps only its low 32 bits: 2^27 vertices ask for 0 bytes. */
  lemma VertexWidthWraps()
    ensures VertexBufferDesc(UintRange / VertexStride).byteWidth == 0
  {
  }

  /** The D3D11 device, reduced to the one decision the core depends on: whether
      CreateBuffer accepts a description (it refuses, among others, a zero ByteWidth). */
  datatype Device = Device(accepts: BufferDesc -> bool)

  /** An ID3D11Buffer.  Its description and initial contents never change after creation;
      `refs` is the COM reference count.  A count of 0 means the object has been freed. */
  class Buffer {
    const desc: BufferDesc
    ghost var refs: nat

    /** CreateBuffer hands back an object holding one reference. */
    constructor (desc: BufferDesc)
      ensures this.desc == desc && refs == 1
    {
      this.desc := desc;
      refs := 1;
    }

    /** IUnknown::AddRef, legal only on a live object. */
    method AddRef()
      requires refs > 0
      modifies this
      ensures refs == old(refs) + 1
    {
      refs := refs + 1;
    }

    /** IUnknown::Release, legal only on a live object. */
    method Release()
      requires refs > 0
      modifies this
      ensures refs == old(refs) - 1
    {
      refs := refs - 1;
    }
  }

  class Mesh {
    var vertexBuffer: Buffer?
    var indexBuffer: Buffer?
    var indexCount: int

    /** The two handles never alias each other. */
    ghost predicate Valid()
      reads this
    {
      vertexBuffer != null && indexBuffer != null ==> vertexBuffer != indexBuffer
    }

    /** The buffers this mesh holds a reference to. */
    ghost function Handles(): set<Buffer>
      reads this
    {
      (if vertexBuffer == null then {} else {vertexBuffer}) +
      (if indexBuffer == null then {} else {indexBuffer})
    }

    /** Builds both buffer descriptions, asks the device for each buffer and keeps the
        index count.  A buffer the device refuses stays null (the declared default). */
    constructor (device: Device, vertexCount: int, indexCount: int)
      ensures Valid()
      ensures this.indexCount == indexCount
      ensures vertexBuffer != null <==> device.accepts(VertexBufferDesc(vertexCount))
      ensures indexBuffer != null <==> device.accepts(IndexBufferDesc(indexCount))
      ensures vertexBuffer != null ==>
        fresh(vertexBuffer) && vertexBuffer.desc == VertexBufferDesc(vertexCount) && vertexBuffer.refs == 1
      ensures indexBuffer != null ==>
        fresh(indexBuffer) && indexBuffer.desc == IndexBufferDesc(indexCount) && indexBuffer.refs == 1
    {
      var vbd := VertexBufferDesc(vertexCount);
      var vb: Buffer? := null;
      if device.accepts(vbd) {
        vb := new Buffer(vbd);
      }
      var ibd := IndexBufferDesc(indexCount);
      var ib: Buffer? := null;
      if device.accepts(ibd) {
        ib := new Buffer(ibd);
      }
      vertexBuffer := vb;
      indexBuffer := ib;
      this.indexCount := indexCount;
    }

    /** The copy constructor shares both handles and takes one reference to each. */
    constructor Copy(other: Mesh)
      requires other.Valid()
      requires other.vertexBuffer != null && other.vertexBuffer.refs > 0
      requires other.indexBuffer != null && other.indexBuffer.refs > 0
      modifies other.vertexBuffer, other.indexBuffer
      ensures Valid()
      ensures vertexBuffer == other.vertexBuffer && indexBuffer == other.indexBuffer
      ensures indexCount == other.indexCount
      ensures vertexBuffer.refs == old(other.vertexBuffer.refs) + 1
      ensures indexBuffer.refs == old(other.indexBuffer.refs) + 1
    {
      vertexBuffer := other.vertexBuffer;
      indexBuffer := other.indexBuffer;
      indexCount := other.indexCount;
      new;
      vertexBuffer.AddRef();
      indexBuffer.AddRef();
    }

    /** operator=: unless it is a self-assignment, adopts the other mesh's handles and takes
        a reference to each, without releasing the handles it held before. */
    method Assign(other: Mesh)
      requires other.Valid()
      requires this != other ==> other.vertexBuffer != null && other.vertexBuffer.refs > 0
      requires this != other ==> other.indexBuffer != null && other.indexBuffer.refs > 0
      modifies this, other.Handles()
      ensures this == other ==> unchanged(this) && unchanged(other.Handles())
      ensures this != other ==> (
        Valid() &&
        vertexBuffer == other.vertexBuffer && indexBuffer == other.indexBuffer &&
        indexCount == other.indexCount &&
        vertexBuffer.refs == old(other.vertexBuffer.refs) + 1 &&
        indexBuffer.refs == old(other.indexBuffer.refs) + 1)
      // the previously held handles are not released
      ensures forall b :: b in old(Handles()) && b !in old(other.Handles()) ==> b.refs == old(b.refs)
    {
      if this != other {
        vertexBuffer := other.vertexBuffer;
        vertexBuffer.AddRef();
        indexBuffer := other.indexBuffer;
        indexBuffer.AddRef();
        indexCount := other.indexCount;
      }
    }

    /** The destructor releases each handle that is not null, once. */
    method Destroy()
      requires Valid()
      requires vertexBuffer != null ==> vertexBuffer.refs > 0
      requires indexBuffer != null ==> indexBuffer.refs > 0
      modifies Handles()
      ensures vertexBuffer != null ==> vertexBuffer.refs == old(vertexBuffer.refs) - 1
      ensures indexBuffer != null ==> indexBuffer.refs == old(indexBuffer.refs) - 1
    {
      if vertexBuffer != null {
        vertexBuffer.Release();
      }
      if indexBuffer != null {
        indexBuffer.Release();
      }
    }

    /** Hands out the vertex buffer, taking a new reference to it on every call. */
    method GetVertexBuffer() returns (b: Buffer)
      requires Valid()
      requires vertexBuffer != null && vertexBuffer.refs > 0
      modifies vertexBuffer
      ensures b == vertexBuffer && b.refs == old(b.refs) + 1
      ensures indexBuffer != null ==> indexBuffer.refs == old(indexBuffer.refs)
    {
      vertexBuffer.AddRef();
      b := vertexBuffer;
    }

    /** Hands out the index buffer, taking a new reference to it on every call. */
    method GetIndexBuffer() returns (b: Buffer)
      requires Valid()
      requires indexBuffer != null && indexBuffer.refs > 0
      modifies indexBuffer
      ensures b == indexBuffer && b.refs == old(b.refs) + 1
      ensures vertexBuffer != null ==> vertexBuffer.refs == old(vertexBuffer.refs)
    {
      indexBuffer.AddRef();
      b := indexBuffer;
    }

    /** The stored index count; no reference is taken. */
    method GetIndexCount() returns (n: int)
      ensures n == indexCount
    {
      n := indexCount;
    }
  }
}

/**
 * The artifact data model of the driver: the kinds of data it compiles from and
 * into, and the three concrete artifacts (a named file, a reference to a caller's
 * memory, an owned byte buffer).  Artifacts never change after construction, so
 * they are values here.
 */
module Artifacts {

  /** What an artifact holds: OpenCL C, LLVM bitcode, textual LLVM IR or a code object. */
  datatype DataType = CL | LLVM_BC | LLVM_LL | EXECUTABLE
  {
    /** The value of the enumerator: declaration order, counted from 0. */
    function Ordinal(): (n: nat)
      ensures n < 4
    {
      match this
      case CL => 0
      case LLVM_BC => 1
      case LLVM_LL => 2
      case EXECUTABLE => 3
    }
  }

  /** The enumerator with a given value; with Ordinal, a bijection between the kinds and 0..3. */
  function FromOrdinal(n: nat): (t: DataType)
    requires n < 4
    ensures t.Ordinal() == n
  {
    if n == 0 then CL else if n == 1 then LLVM_BC else if n == 2 then LLVM_LL else EXECUTABLE
  }

  lemma OrdinalRoundTrip(t: DataType)
    ensures FromOrdinal(t.Ordinal()) == t
  {
  }

  /**
   * An artifact.  `ptr` is the address of the caller's memory and `size` its length;
   * `buf` is the owned storage of a Buffer.
   */
  datatype Data =
    | File(dataType: DataType, name: string, readonly: bool)
    | BufferReference(dataType: DataType, ptr: nat, size: nat)
    | Buffer(dataType: DataType, buf: seq<char>)
  {
    /** The type the artifact was constructed with, whatever its kind. */
    function Type(): (t: DataType)
      ensures this.File? ==> this == File(t, this.name, this.readonly)
      ensures this.BufferReference? ==> this == BufferReference(t, this.ptr, this.size)
      ensures this.Buffer? ==> this == Buffer(t, this.buf)
    {
      dataType
    }

    /** Whether the artifact may not be written: fixed per kind, except for a File. */
    function IsReadOnly(): (r: bool)
      ensures this.File? ==> (r <==> this.readonly)
      ensures this.BufferReference? ==> r
      ensures this.Buffer? ==> !r
    {
      match this
      case File(_, _, readonly) => readonly
      case BufferReference(_, _, _) => true
      case Buffer(_, _) => false
    }
  }

  /** The File constructor; an owned file is writable unless said otherwise. */
  function MakeFile(dataType: DataType, name: string, readonly: bool := false): (d: Data)
    ensures d.File? && d.Type() == dataType && d.name == name
    ensures d.IsReadOnly() == readonly
  {
    File(dataType, name, readonly)
  }

  /** The BufferReference constructor: a view of the caller's memory, always read-only. */
  function MakeBufferReference(dataType: DataType, ptr: nat, size: nat): (d: Data)
    ensures d.BufferReference? && d.Type() == dataType && d.IsReadOnly()
    ensures d.ptr == ptr && d.size == size
  {
    BufferReference(dataType, ptr, size)
  }

  /** The Buffer constructor: owned, writable, and empty to begin with. */
  function MakeBuffer(dataType: DataType): (d: Data)
    ensures d.Buffer? && d.Type() == dataType && !d.IsReadOnly() && |d.buf| == 0
  {
    Buffer(dataType, [])
  }

  predicate AllFiles(ds: seq<Data>)
  {
    forall i :: 0 <= i < |ds| ==> ds[i].File?
  }

  /** The file names of a list of files, in order. */
  function Names(ds: seq<Data>): (r: seq<string>)
    requires AllFiles(ds)
    ensures |r| == |ds|
  {
    seq(|ds|, i requires 0 <= i < |ds| => ds[i].name)
  }
}

// The header in front of every payload (include/gc/ChunkHeader.hpp).
module ChunkHeaders {
  import opened Wrappers
  import opened Words
  import opened Bits

  const CHUNK_MAGIC_NUMBER: nat := 0x4743_4C42
  const HEADER_SIZE: nat := 32

  // What a finalizer does that changes what the collector sees: re-enter it, write a word of
  // memory, destroy a weak handle, or unregister a root range, as the destructor of a gc_root
  // member does.
  datatype Act =
    | Recollect
    | Reshutdown
    | Store(address: Address, value: Word)
    | DropWeak(storage: Address)
    | DropRange(begin: Address, end: Address)

  class ChunkHeader {
    const size: Word
    const destructor: Option<seq<Act>>
    const magicNumber: nat
    const payloadOffset: Word
    const alignmentShift: nat
    var marked: bool

    constructor (size: Word, destructor: Option<seq<Act>>, payloadOffset: Word, alignment: Word)
      requires alignment > 0
      ensures this.size == size && this.destructor == destructor && this.payloadOffset == payloadOffset
      ensures magicNumber == CHUNK_MAGIC_NUMBER && !marked
      ensures alignmentShift == CountrZero(alignment)
    {
      this.size := size;
      this.destructor := destructor;
      this.payloadOffset := payloadOffset;
      magicNumber := CHUNK_MAGIC_NUMBER;
      alignmentShift := CountrZero(alignment);
      marked := false;
    }

    predicate IsMarked()
      reads this
    {
      marked
    }

    method SetMarked(value: bool)
      modifies this
      ensures marked == value
    {
      marked := value;
    }

    function AllocationAlignment(): nat {
      Pow2(alignmentShift)
    }
  }
}

// Machine words: uintptr_t and size_t of a 64-bit platform, and memory read by words.
module Words {
  const WORD_LIMIT: nat := 0x1_0000_0000_0000_0000
  const WORD_MAX: nat := 0xFFFF_FFFF_FFFF_FFFF
  const WORD_SIZE: nat := 8
  // Payloads end at or below this address: the flat address space that the weak
  // encoding and the additive loop guards rely on.
  const PAYLOAD_LIMIT: nat := 0x8000_0000_0000_0000

  type Word = w: nat | w < WORD_LIMIT
  type Address = Word

  // The program's memory, one entry for each word-aligned address that was written.
  type Memory = map<Address, Word>

  function Load(mem: Memory, a: Address): Word {
    if a in mem then mem[a] else 0
  }

  predicate AddWouldOverflow(lhs: Word, rhs: Word) {
    lhs > WORD_MAX - rhs
  }

  function SaturatingAdd(lhs: Word, rhs: Word): (r: Word)
    ensures r as nat == if lhs + rhs <= WORD_MAX then lhs + rhs else WORD_MAX
  {
    if AddWouldOverflow(lhs, rhs) then WORD_MAX else lhs + rhs
  }

  // size_t addition, which wraps.
  function WrappingAdd(lhs: Word, rhs: Word): Word {
    (lhs + rhs) % WORD_LIMIT
  }
}

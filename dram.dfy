/** The 64K byte store (`Dram`): byte and little-endian word access, and the
    mutable cell reference handed out by `get_ptr`. */
module Memory {
  import opened Bytes

  const RamSize: nat := 65536

  /** A memory image: the 65536 bytes of a `Dram` as a value. */
  type Image = m: seq<bv8> | |m| == RamSize witness seq(RamSize, _ => 0)

  /** A mutable reference to one byte cell, as `&mut u8`. */
  datatype Ptr = Ptr(cells: array<bv8>, index: nat)

  /** Reading through a cell reference. */
  function Deref(p: Ptr): bv8
    requires p.index < p.cells.Length
    reads p.cells
  {
    p.cells[p.index]
  }

  /** Writing through a cell reference changes that cell and nothing else. */
  method Assign(p: Ptr, v: bv8)
    requires p.index < p.cells.Length
    modifies p.cells
    ensures p.cells[..] == old(p.cells[..])[p.index := v]
  {
    p.cells[p.index] := v;
  }

  /** The little-endian word at `addr` of a memory image: low byte at `addr`,
      high byte at `addr + 1`. */
  function WordAt(m: Image, addr: Word): (w: Word)
    requires addr < 0xFFFF
    ensures w == m[addr + 1] as int * 256 + m[addr] as int
  {
    GetU16(m[addr + 1], m[addr])
  }

  /** A memory image with the word `w` stored little-endian at `addr`. */
  function StoreWord(m: Image, addr: Word, w: Word): (m': Image)
    requires addr < 0xFFFF
    ensures GetU16(m'[addr + 1], m'[addr]) == w
    ensures forall i | 0 <= i < RamSize && i != addr && i != addr + 1 :: m'[i] == m[i]
  {
    var (hi, lo) := SplitU16(w);
    m[addr := lo][addr + 1 := hi]
  }

  /** Storing a word and loading it back at the same address gives the word. */
  lemma StoreWordThenWordAt(m: Image, addr: Word, w: Word)
    requires addr < 0xFFFF
    ensures WordAt(StoreWord(m, addr, w), addr) == w
  {
  }

  class Dram {
    const memory: array<bv8>

    ghost predicate Valid()
      reads this
    {
      memory.Length == RamSize
    }

    /** `Dram::new`: 65536 zero bytes. */
    constructor ()
      ensures Valid() && fresh(memory)
      ensures forall i | 0 <= i < RamSize :: memory[i] == 0
    {
      memory := new bv8[RamSize](_ => 0);
    }

    /** `get_ptr`: a reference to the cell `load_byte` reads and `save_byte` writes. */
    function GetPtr(addr: Word): (p: Ptr)
      requires Valid()
      reads this
      ensures p.cells == memory && p.index == addr && p.index < p.cells.Length
    {
      Ptr(memory, addr)
    }

    function LoadByte(addr: Word): bv8
      requires Valid()
      reads this, memory
    {
      memory[addr]
    }

    /** `load_word`: the high byte is at `addr + 1`, the low byte at `addr`;
        `addr + 1` must not overflow. */
    function LoadWord(addr: Word): (w: Word)
      requires Valid() && addr < 0xFFFF
      reads this, memory
      ensures w == memory[addr + 1] as int * 256 + memory[addr] as int
    {
      GetU16(memory[addr + 1], memory[addr])
    }

    /** `save_byte`: the byte at `addr` becomes `byte`; every other byte is unchanged. */
    method SaveByte(addr: Word, byte: bv8)
      requires Valid()
      modifies memory
      ensures memory[..] == old(memory[..])[addr := byte]
    {
      memory[addr] := byte;
    }

    /** `save_word`: low byte at `addr`, high byte at `addr + 1`, nothing else;
        `addr + 1` must still be inside memory. */
    method SaveWord(addr: Word, word: Word)
      requires Valid() && addr < 0xFFFF
      modifies memory
      ensures memory[..] == StoreWord(old(memory[..]), addr, word)
    {
      memory[addr] := (word % 256) as bv8;
      memory[addr + 1] := (word / 256) as bv8;
    }

    /** Reading through `get_ptr(addr)` is `load_byte(addr)`, and writing
        through it has the effect `save_byte(addr, _)` promises. */
    lemma GetPtrIsLoadByteCell(addr: Word)
      requires Valid()
      ensures Deref(GetPtr(addr)) == LoadByte(addr)
      ensures GetPtr(addr).cells == memory && GetPtr(addr).index == addr
    {
    }
  }
}

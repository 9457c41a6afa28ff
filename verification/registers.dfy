/** The memory-mapped register block of the fan controller, seen as a map
    from word index to 32-bit word. Reads and writes are plain map lookups
    and updates; the ordering and caching rules of real MMIO are not part of
    this model. */
module Registers {

  type Word = bv32

  /** Register contents by word index. */
  type RegFile = map<nat, Word>

  /** Every index below `count` is mapped. */
  ghost predicate Covers(regs: RegFile, count: nat) {
    forall k: nat :: k < count ==> k in regs
  }

  /** A bit position within a word. */
  type BitIndex = bv5

  /** Bit `j` of `w`, read the way the driver reads it: `(w >> j) & 1`. */
  predicate Bit(w: Word, j: BitIndex) {
    (w >> j) & 1 == 1
  }

  /** The kernel's `BIT(j)`: a word with only bit `j` set. */
  function Mask(j: BitIndex): (m: Word)
    ensures Bit(m, j)
    ensures forall i: BitIndex :: i != j ==> !Bit(m, i)
  {
    1 << j
  }

  /** `|` with `BIT(j)` does not touch bit `i != j`. */
  lemma SetBitElsewhere(w: Word, j: BitIndex, i: BitIndex)
    requires i != j
    ensures Bit(w | Mask(j), i) == Bit(w, i)
  {
  }

  /** `& ~BIT(j)` does not touch bit `i != j`. */
  lemma ClearBitElsewhere(w: Word, j: BitIndex, i: BitIndex)
    requires i != j
    ensures Bit(w & !Mask(j), i) == Bit(w, i)
  {
  }

  /** Setting one bit with `|` leaves every other bit as it was. */
  lemma SetBit(w: Word, j: BitIndex)
    ensures Bit(w | Mask(j), j)
    ensures forall i: BitIndex :: i != j ==> Bit(w | Mask(j), i) == Bit(w, i)
  {
    forall i: BitIndex | i != j
      ensures Bit(w | Mask(j), i) == Bit(w, i)
    {
      SetBitElsewhere(w, j, i);
    }
  }

  /** Clearing one bit with `& ~` leaves every other bit as it was. */
  lemma ClearBit(w: Word, j: BitIndex)
    ensures !Bit(w & !Mask(j), j)
    ensures forall i: BitIndex :: i != j ==> Bit(w & !Mask(j), i) == Bit(w, i)
  {
    forall i: BitIndex | i != j
      ensures Bit(w & !Mask(j), i) == Bit(w, i)
    {
      ClearBitElsewhere(w, j, i);
    }
  }

  /** A value that fits in a byte survives the round trip through a
      register word (the `(u32)val` store followed by the load). */
  lemma ByteWordRoundTrip(v: int)
    requires 0 <= v < 256
    ensures (v as Word) as int == v
  {
    assert v as Word == (v as bv8) as Word;
    assert ((v as bv8) as Word) as int == (v as bv8) as int;
    assert (v as bv8) as int == v;
  }
}

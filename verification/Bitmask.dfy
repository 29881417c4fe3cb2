/** The set of octets kept in an array of C ints by the BITMASK_256 macros of
    src/cryptoUtils.cc.

    BITS_PRO_INT is defined without parentheses as 8*sizeof(int), so with
    4-octet ints value/BITS_PRO_INT reads (value/8)*4, value%BITS_PRO_INT reads
    (value%8)*4 and the array has (256/8)*4 = 128 ints: one int out of four is
    used, and one bit out of four in it. */
module Bitmask {
  import opened Octets

  const INT_SIZE := 4
  const BITMASK_256_SIZE := 256 / 8 * INT_SIZE

  function Index(value: byte): (i: nat)
    ensures i < BITMASK_256_SIZE
  {
    value as int / 8 * INT_SIZE
  }

  function Bit(value: byte): (n: nat)
    ensures n <= 28
  {
    value as int % 8 * INT_SIZE
  }

  predicate Check(bits: seq<bv32>, value: byte)
    requires |bits| == BITMASK_256_SIZE
  {
    bits[Index(value)] & (1 << Bit(value)) != 0
  }

  /** bits stands for exactly the set s. */
  ghost predicate Represents(bits: seq<bv32>, s: set<byte>)
  {
    |bits| == BITMASK_256_SIZE && forall v: byte {:trigger Check(bits, v)} :: Check(bits, v) <==> v in s
  }

  // The eight single-bit words the macros use.
  lemma OneBit(n: nat)
    requires n <= 28 && n % 4 == 0
    ensures (1 as bv32) << n == match n case 0 => 0x1 case 4 => 0x10 case 8 => 0x100 case 12 => 0x1000
                                        case 16 => 0x1_0000 case 20 => 0x10_0000 case 24 => 0x100_0000 case _ => 0x1000_0000
  {
    if n == 0 { } else if n == 4 { } else if n == 8 { } else if n == 12 { }
    else if n == 16 { } else if n == 20 { } else if n == 24 { } else { assert n == 28; }
  }

  lemma BitsIndependent(word: bv32, n: nat, m: nat)
    requires n <= 28 && n % 4 == 0 && m <= 28 && m % 4 == 0
    ensures (word | (1 << n)) & (1 << m) != 0 <==> n == m || word & (1 << m) != 0
    ensures (word & !(1 << n)) & (1 << m) != 0 <==> n != m && word & (1 << m) != 0
  {
    OneBit(n);
    OneBit(m);
  }

  lemma SameCell(v: byte, w: byte)
    ensures Index(v) == Index(w) && Bit(v) == Bit(w) <==> v == w
    ensures Bit(v) % 4 == 0
  {
    assert v as int == v as int / 8 * 8 + v as int % 8;
    assert w as int == w as int / 8 * 8 + w as int % 8;
  }

  lemma ZeroWord(n: nat)
    requires n <= 28
    ensures (0 as bv32) & (1 << n) == 0
  {
  }

  /** The two updates on the words, as values. */
  function WithBit(bits: seq<bv32>, value: byte): seq<bv32>
    requires |bits| == BITMASK_256_SIZE
  {
    bits[Index(value) := bits[Index(value)] | (1 << Bit(value))]
  }

  function WithoutBit(bits: seq<bv32>, value: byte): seq<bv32>
    requires |bits| == BITMASK_256_SIZE
  {
    bits[Index(value) := bits[Index(value)] & !(1 << Bit(value))]
  }

  // Updating the cell of value changes the answer for value only.
  lemma UpdateIsLocal(bits: seq<bv32>, value: byte, v: byte)
    requires |bits| == BITMASK_256_SIZE
    ensures Check(WithBit(bits, value), v) <==> v == value || Check(bits, v)
    ensures Check(WithoutBit(bits, value), v) <==> v != value && Check(bits, v)
  {
    SameCell(v, value);
    SameCell(value, v);
    if Index(v) == Index(value) {
      BitsIndependent(bits[Index(value)], Bit(value), Bit(v));
    }
  }

  /** The ints the macros are applied to, with the set they stand for. */
  class Bitmask256 {
    var bits: seq<bv32>
    ghost var contents: set<byte>

    ghost predicate Valid()
      reads this
    {
      Represents(bits, contents)
    }

    /** BITMASK_256_SET_ZERO on a new array. */
    constructor ()
      ensures Valid() && contents == {}
    {
      bits := seq(BITMASK_256_SIZE, _ => 0);
      contents := {};
      new;
      forall v: byte
        ensures !Check(bits, v)
      {
        ZeroWord(Bit(v));
      }
    }

    /** BITMASK_256_CHECK. */
    predicate Has(value: byte)
      requires Valid()
      reads this
      ensures Has(value) <==> value in contents
    {
      Check(bits, value)
    }

    /** BITMASK_256_SET. */
    method Set(value: byte)
      requires Valid()
      modifies this
      ensures Valid() && contents == old(contents) + {value}
    {
      forall v: byte
        ensures Check(WithBit(bits, value), v) <==> v in contents + {value}
      {
        UpdateIsLocal(bits, value, v);
      }
      bits := bits[Index(value) := bits[Index(value)] | (1 << Bit(value))];
      contents := contents + {value};
    }

    /** BITMASK_256_UNSET. */
    method Unset(value: byte)
      requires Valid()
      modifies this
      ensures Valid() && contents == old(contents) - {value}
    {
      forall v: byte
        ensures Check(WithoutBit(bits, value), v) <==> v in contents - {value}
      {
        UpdateIsLocal(bits, value, v);
      }
      bits := bits[Index(value) := bits[Index(value)] & !(1 << Bit(value))];
      contents := contents - {value};
    }
  }
}

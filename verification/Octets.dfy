/** Octets, octet strings, and the two ways the protocol reads them: as an
    order (memcmp) and as a big-endian number. */
module Octets {

  newtype byte = x: int | 0 <= x < 256

  type Bytes = seq<byte>

  datatype Option<+T> = None | Some(value: T)
  {
    function GetOr(default: T): T {
      if Some? then value else default
    }
  }

  /** The unsigned integer whose network-byte-order digits are s. */
  function BigEndian(s: Bytes): (n: nat)
    ensures n < Pow256(|s|)
  {
    if s == [] then 0
    else
      PrefixBound(BigEndian(s[..|s| - 1]), Pow256(|s| - 1));
      BigEndian(s[..|s| - 1]) * 256 + s[|s| - 1] as int
  }

  function Pow256(n: nat): (p: nat)
    ensures p >= 1
  {
    if n == 0 then 1 else Pow256(n - 1) * 256
  }

  /** A 32-bit integer in network byte order. */
  function Word32(n: nat): Bytes {
    [(n / 0x100_0000 % 256) as byte, (n / 0x1_0000 % 256) as byte, (n / 0x100 % 256) as byte, (n % 256) as byte]
  }

  lemma PrefixBound(high: nat, p: nat)
    requires high < p
    ensures high * 256 + 255 < p * 256
  {
  }

  /** memcmp over two strings of one length: the sign is decided by the first
      octet that differs, as in a scan from the left. */
  function MemCmp(a: Bytes, b: Bytes): (order: int)
    requires |a| == |b|
  {
    if a == [] then 0
    else if a[0] < b[0] then -1
    else if a[0] > b[0] then 1
    else MemCmp(a[1..], b[1..])
  }

  /** The value of a string split after its first octet. */
  lemma {:induction false} BigEndianHead(s: Bytes)
    requires s != []
    ensures BigEndian(s) == s[0] as int * Pow256(|s| - 1) + BigEndian(s[1..])
  {
    if |s| > 1 {
      var front := s[..|s| - 1];
      BigEndianHead(front);
      assert front[1..] == s[1..][..|s| - 2];
      assert s[1..][|s| - 2] == s[|s| - 1];
      ShiftOctet(s[0] as int, Pow256(|s| - 2), BigEndian(front[1..]), s[|s| - 1] as int);
    }
  }

  lemma ShiftOctet(head: nat, p: nat, middle: nat, last: nat)
    ensures (head * p + middle) * 256 + last == head * (p * 256) + (middle * 256 + last)
  {
  }

  /** The memcmp test used in Commit contention is the comparison RFC 6189
      section 4.2 asks for: both values as large unsigned integers in network
      byte order. */
  lemma {:induction false} MemCmpIsBigEndianOrder(a: Bytes, b: Bytes)
    requires |a| == |b|
    ensures MemCmp(a, b) < 0 <==> BigEndian(a) < BigEndian(b)
    ensures MemCmp(a, b) == 0 <==> a == b
    ensures MemCmp(a, b) == 0 <==> BigEndian(a) == BigEndian(b)
  {
    if a != [] {
      BigEndianHead(a);
      BigEndianHead(b);
      MemCmpIsBigEndianOrder(a[1..], b[1..]);
      var p := Pow256(|a| - 1);
      if a[0] < b[0] {
        HeadDecides(a[0] as int, b[0] as int, BigEndian(a[1..]), BigEndian(b[1..]), p);
      } else if a[0] > b[0] {
        HeadDecides(b[0] as int, a[0] as int, BigEndian(b[1..]), BigEndian(a[1..]), p);
      } else {
        assert a == [a[0]] + a[1..] && b == [b[0]] + b[1..];
      }
    }
  }

  lemma HeadDecides(lo: nat, hi: nat, lowTail: nat, highTail: nat, p: nat)
    requires lo < hi && lowTail < p
    ensures lo * p + lowTail < hi * p + highTail
  {
    assert (lo + 1) * p <= hi * p by {
      assert hi * p == (lo + 1) * p + (hi - lo - 1) * p;
    }
  }
}

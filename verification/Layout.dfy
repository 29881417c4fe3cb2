/** The fields of messages on the wire: network-order words, fixed-width fields one
    after the other, and the four-character names of algorithms
    (bzrtp_cryptoAlgoTypeIntToString and StringToInt of src/cryptoUtils.cc). */
module Layout {
  import opened Octets
  import opened Negotiation

  // ---------------------------------------------------------------------
  // Words

  function ReadWord(octets: Bytes): (n: nat)
    requires |octets| == 4
    ensures n < 0x1_0000_0000
  {
    octets[0] as int * 0x100_0000 + octets[1] as int * 0x1_0000 + octets[2] as int * 0x100 + octets[3] as int
  }

  lemma WordReadsBack(n: nat)
    requires n < 0x1_0000_0000
    ensures ReadWord(Word32(n)) == n
  {
    var q1 := n / 0x100;
    var q2 := q1 / 0x100;
    var q3 := q2 / 0x100;
    DivTwice(n);
    DivThrice(n);
    assert n == q1 * 0x100 + n % 256 && q1 == q2 * 0x100 + q1 % 256 && q2 == q3 * 0x100 + q2 % 256 && q3 < 256;
  }

  lemma DivTwice(n: nat)
    ensures n / 0x1_0000 == n / 0x100 / 0x100
  {
  }

  lemma DivThrice(n: nat)
    ensures n / 0x100_0000 == n / 0x100 / 0x100 / 0x100
  {
  }

  function ShortOctets(n: nat): (octets: Bytes)
    ensures |octets| == 2
  {
    [(n / 0x100 % 256) as byte, (n % 256) as byte]
  }

  function ReadShort(octets: Bytes): (n: nat)
    requires |octets| == 2
    ensures n < 0x1_0000
  {
    octets[0] as int * 0x100 + octets[1] as int
  }

  lemma ShortReadsBack(n: nat)
    requires n < 0x1_0000
    ensures ReadShort(ShortOctets(n)) == n
  {
  }

  // ---------------------------------------------------------------------
  // Fields one after the other

  function Total(widths: seq<nat>): nat {
    if widths == [] then 0 else widths[0] + Total(widths[1..])
  }

  function Joined(fields: seq<Bytes>): Bytes {
    if fields == [] then [] else fields[0] + Joined(fields[1..])
  }

  function Widths(fields: seq<Bytes>): (w: seq<nat>)
    ensures |w| == |fields|
  {
    if fields == [] then [] else [|fields[0]|] + Widths(fields[1..])
  }

  lemma {:induction false} WidthsAre(fields: seq<Bytes>, widths: seq<nat>)
    requires |fields| == |widths| && forall k :: 0 <= k < |fields| ==> |fields[k]| == widths[k]
    ensures Widths(fields) == widths
  {
    if fields != [] {
      WidthsAre(fields[1..], widths[1..]);
      assert widths == [widths[0]] + widths[1..];
    }
  }

  /** The fields read through a pointer that advances by the width of each. */
  function Split(octets: Bytes, widths: seq<nat>): (fields: seq<Bytes>)
    requires Total(widths) <= |octets|
    ensures |fields| == |widths| && forall k :: 0 <= k < |fields| ==> |fields[k]| == widths[k]
  {
    if widths == [] then [] else [octets[..widths[0]]] + Split(octets[widths[0]..], widths[1..])
  }

  /** Fields written one after the other are read back, whatever follows them. */
  lemma {:induction false} SplitUndoesJoin(fields: seq<Bytes>, widths: seq<nat>, rest: Bytes)
    requires Widths(fields) == widths
    ensures Total(widths) == |Joined(fields)|
    ensures Split(Joined(fields) + rest, widths) == fields
  {
    if fields != [] {
      SplitUndoesJoin(fields[1..], widths[1..], rest);
      FirstField(fields[0], Joined(fields[1..]), rest);
    }
  }

  lemma FirstField(field: Bytes, others: Bytes, rest: Bytes)
    ensures (field + others + rest)[..|field|] == field && (field + others + rest)[|field|..] == others + rest
  {
  }

  // ---------------------------------------------------------------------
  // Names of algorithms

  const HASH_N256: byte := 0x14
  const HASH_N384: byte := 0x15
  const CIPHER_2FS1: byte := 0x24
  const CIPHER_2FS2: byte := 0x25
  const CIPHER_2FS3: byte := 0x26
  const AUTHTAG_SK32: byte := 0x33
  const AUTHTAG_SK64: byte := 0x34

  /** The algorithms that have a name. */
  predicate Named(family: Family, algo: byte) {
    match family
    case Hash => 0x11 <= algo <= 0x15
    case Cipher => 0x21 <= algo <= 0x26
    case AuthTag => 0x31 <= algo <= 0x35
    case KeyAgreement => 0x41 <= algo <= 0x4f || 0x51 <= algo <= 0x56 || algo == KEYAGREEMENT_PRSH || algo == KEYAGREEMENT_MULT
    case Sas => algo == SAS_B32 || algo == SAS_B256
  }

  /** "NSET". */
  const UNSET_NAME := 0x4e534554

  /** The name of an algorithm, its four characters read as a word. */
  function NameOf(algo: byte): nat {
    match algo as int
    case 0x11 => 0x53323536 // S256
    case 0x12 => 0x53333834 // S384
    case 0x13 => 0x53353132 // S512
    case 0x14 => 0x4e323536 // N256
    case 0x15 => 0x4e333834 // N384
    case 0x21 => 0x41455331 // AES1
    case 0x22 => 0x41455332 // AES2
    case 0x23 => 0x41455333 // AES3
    case 0x24 => 0x32465331 // 2FS1
    case 0x25 => 0x32465332 // 2FS2
    case 0x26 => 0x32465333 // 2FS3
    case 0x31 => 0x48533332 // HS32
    case 0x32 => 0x48533830 // HS80
    case 0x33 => 0x534b3332 // SK32
    case 0x34 => 0x534b3634 // SK64
    case 0x35 => 0x47434d20 // GCM
    case 0x41 => 0x4448326b // DH2k
    case 0x42 => 0x58323535 // X255
    case 0x43 => 0x4b323535 // K255
    case 0x44 => 0x45433235 // EC25
    case 0x45 => 0x58343438 // X448
    case 0x46 => 0x4b343438 // K448
    case 0x47 => 0x4448336b // DH3k
    case 0x48 => 0x45433338 // EC38
    case 0x49 => 0x45433532 // EC52
    case 0x4a => 0x4b594231 // KYB1
    case 0x4b => 0x4b594232 // KYB2
    case 0x4c => 0x4b594233 // KYB3
    case 0x4d => 0x48514431 // HQD1
    case 0x4e => 0x48514432 // HQD2
    case 0x4f => 0x48514433 // HQD3
    case 0x51 => 0x58314b31 // X1K1
    case 0x52 => 0x58314831 // X1H1
    case 0x53 => 0x58334b33 // X3K3
    case 0x54 => 0x58334833 // X3H3
    case 0x55 => 0x584b5231 // XKR1
    case 0x56 => 0x584b5233 // XKR3
    case 0x9e => 0x50727368 // Prsh
    case 0x9f => 0x4d756c74 // Mult
    case 0xa1 => 0x42333220 // B32
    case 0xa2 => 0x42323536 // B256
    case _ => UNSET_NAME
  }

  /** The algorithm of a family that has a name; the peer may announce names that
      are not known. */
  function AlgoOf(family: Family, name: nat): byte {
    match family
    case Hash => HashOf(name)
    case Cipher => CipherOf(name)
    case AuthTag => AuthTagOf(name)
    case KeyAgreement => KeyAgreementOf(name)
    case Sas => if name == 0x42333220 then SAS_B32 else if name == 0x42323536 then SAS_B256 else UNSET_ALGO
  }

  function HashOf(name: nat): byte {
    match name
    case 0x53323536 => HASH_S256
    case 0x53333834 => HASH_S384
    case 0x53353132 => HASH_S512
    case 0x4e323536 => HASH_N256
    case 0x4e333834 => HASH_N384
    case _ => UNSET_ALGO
  }

  function CipherOf(name: nat): byte {
    match name
    case 0x41455331 => CIPHER_AES1
    case 0x41455332 => CIPHER_AES2
    case 0x41455333 => CIPHER_AES3
    case 0x32465331 => CIPHER_2FS1
    case 0x32465332 => CIPHER_2FS2
    case 0x32465333 => CIPHER_2FS3
    case _ => UNSET_ALGO
  }

  function AuthTagOf(name: nat): byte {
    match name
    case 0x48533332 => AUTHTAG_HS32
    case 0x48533830 => AUTHTAG_HS80
    case 0x534b3332 => AUTHTAG_SK32
    case 0x534b3634 => AUTHTAG_SK64
    case 0x47434d20 => AUTHTAG_GCM
    case _ => UNSET_ALGO
  }

  function KeyAgreementOf(name: nat): byte {
    match name
    case 0x4448336b => KEYAGREEMENT_DH3K
    case 0x4448326b => KEYAGREEMENT_DH2K
    case 0x58323535 => KEYAGREEMENT_X255
    case 0x4b323535 => KEYAGREEMENT_K255
    case 0x45433235 => KEYAGREEMENT_EC25
    case 0x58343438 => KEYAGREEMENT_X448
    case 0x4b343438 => KEYAGREEMENT_K448
    case 0x45433338 => KEYAGREEMENT_EC38
    case 0x45433532 => KEYAGREEMENT_EC52
    case 0x4b594231 => KEYAGREEMENT_KYB1
    case 0x4b594232 => KEYAGREEMENT_KYB2
    case 0x4b594233 => KEYAGREEMENT_KYB3
    case 0x48514431 => KEYAGREEMENT_HQC1
    case 0x48514432 => KEYAGREEMENT_HQC2
    case 0x48514433 => KEYAGREEMENT_HQC3
    case 0x58314b31 => 0x51
    case 0x58314831 => 0x52
    case 0x58334b33 => 0x53
    case 0x58334833 => 0x54
    case 0x584b5231 => 0x55
    case 0x584b5233 => 0x56
    case 0x50727368 => KEYAGREEMENT_PRSH
    case 0x4d756c74 => KEYAGREEMENT_MULT
    case _ => UNSET_ALGO
  }

  /** The two tables are inverse to each other on every family, and an unknown name
      or algorithm is never taken for a known one. */
  lemma NamesReadBack(family: Family, algo: byte)
    ensures NameOf(algo) < 0x1_0000_0000
    ensures Named(family, algo) ==> AlgoOf(family, NameOf(algo)) == algo
    ensures !Named(family, algo) ==> AlgoOf(family, NameOf(algo)) == UNSET_ALGO
  {
    match family
    case Hash =>
    case Cipher =>
    case AuthTag =>
    case KeyAgreement =>
    case Sas =>
  }

  lemma AlgosReadBack(family: Family, name: nat)
    ensures AlgoOf(family, name) != UNSET_ALGO ==> Named(family, AlgoOf(family, name)) && NameOf(AlgoOf(family, name)) == name
  {
    match family
    case Hash =>
    case Cipher =>
    case AuthTag =>
    case KeyAgreement =>
    case Sas =>
  }

  function NameOctets(algo: byte): (octets: Bytes)
    ensures |octets| == 4
  {
    Word32(NameOf(algo))
  }

  function ReadAlgo(family: Family, octets: Bytes): byte
    requires |octets| == 4
  {
    AlgoOf(family, ReadWord(octets))
  }

  lemma AlgoReadsBack(family: Family, algo: byte)
    requires Named(family, algo)
    ensures ReadAlgo(family, NameOctets(algo)) == algo
  {
    NamesReadBack(family, algo);
    WordReadsBack(NameOf(algo));
  }

  // ---------------------------------------------------------------------
  // Lists of algorithms

  function ListOctets(list: seq<byte>): (octets: Bytes)
    ensures |octets| == 4 * |list|
  {
    if list == [] then [] else ListOctets(list[..|list| - 1]) + NameOctets(list[|list| - 1])
  }

  function ReadList(family: Family, octets: Bytes, count: nat): (list: seq<byte>)
    requires |octets| >= 4 * count
    ensures |list| == count
  {
    if count == 0 then [] else ReadList(family, octets, count - 1) + [ReadAlgo(family, octets[4 * count - 4..4 * count])]
  }

  predicate AllNamed(family: Family, list: seq<byte>) {
    forall k :: 0 <= k < |list| ==> Named(family, list[k])
  }

  lemma {:induction false} ListReadsBack(family: Family, list: seq<byte>, rest: Bytes)
    requires AllNamed(family, list)
    ensures ReadList(family, ListOctets(list) + rest, |list|) == list
  {
    if list != [] {
      var front, last := list[..|list| - 1], list[|list| - 1];
      ListReadsBack(family, front, NameOctets(last) + rest);
      assert ListOctets(front) + (NameOctets(last) + rest) == ListOctets(list) + rest;
      AlgoReadsBack(family, last);
      assert (ListOctets(list) + rest)[4 * |list| - 4..4 * |list|] == NameOctets(last);
    }
  }
}

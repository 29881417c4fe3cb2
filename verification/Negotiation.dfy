/** Algorithm negotiation: src/cryptoUtils.cc and the list handling of
    bzrtp_setSupportedCryptoTypes and bzrtp_initBzrtpContext in src/bzrtp.c. */
module Negotiation {
  import opened Octets
  import Bitmask

  const UNSET_ALGO: byte := 0x00

  const HASH_S256: byte := 0x11
  const HASH_S384: byte := 0x12
  const HASH_S512: byte := 0x13

  const CIPHER_AES1: byte := 0x21
  const CIPHER_AES2: byte := 0x22
  const CIPHER_AES3: byte := 0x23

  const AUTHTAG_HS32: byte := 0x31
  const AUTHTAG_HS80: byte := 0x32
  const AUTHTAG_GCM: byte := 0x35

  const KEYAGREEMENT_DH2K: byte := 0x41
  const KEYAGREEMENT_X255: byte := 0x42
  const KEYAGREEMENT_K255: byte := 0x43
  const KEYAGREEMENT_EC25: byte := 0x44
  const KEYAGREEMENT_X448: byte := 0x45
  const KEYAGREEMENT_K448: byte := 0x46
  const KEYAGREEMENT_DH3K: byte := 0x47
  const KEYAGREEMENT_EC38: byte := 0x48
  const KEYAGREEMENT_EC52: byte := 0x49
  const KEYAGREEMENT_KYB1: byte := 0x4a
  const KEYAGREEMENT_KYB2: byte := 0x4b
  const KEYAGREEMENT_KYB3: byte := 0x4c
  const KEYAGREEMENT_HQC1: byte := 0x4d
  const KEYAGREEMENT_HQC2: byte := 0x4e
  const KEYAGREEMENT_HQC3: byte := 0x4f
  const KEYAGREEMENT_PRSH: byte := 0x9e
  const KEYAGREEMENT_MULT: byte := 0x9f

  const SAS_B32: byte := 0xa1
  const SAS_B256: byte := 0xa2

  datatype Family = Hash | Cipher | AuthTag | KeyAgreement | Sas

  /** Key agreements whose Commit carries a public key and whose DHPart1 carries
      a ciphertext: K255, K448, the Kyber and HQC ones and the hybrids. */
  predicate IsKem(algo: byte) {
    algo == KEYAGREEMENT_K255 || algo == KEYAGREEMENT_K448 || IsPostQuantum(algo)
  }

  predicate IsPostQuantum(algo: byte) {
    0x4a <= algo <= 0x4f || 0x51 <= algo <= 0x56
  }

  predicate IsDiffieHellman(algo: byte) {
    algo == KEYAGREEMENT_DH2K || algo == KEYAGREEMENT_DH3K || algo == KEYAGREEMENT_X255 || algo == KEYAGREEMENT_X448
  }

  /** bzrtpUtils_getMandatoryCryptoTypes. */
  function Mandatory(family: Family): (types: seq<byte>) {
    match family
    case Hash => [HASH_S256]
    case Cipher => [CIPHER_AES1]
    case AuthTag => [AUTHTAG_HS32, AUTHTAG_HS80]
    case KeyAgreement => [KEYAGREEMENT_DH3K, KEYAGREEMENT_MULT]
    case Sas => [SAS_B32]
  }

  /** bzrtpUtils_getAllAvailableCryptoTypes, every optional library present. */
  predicate Implemented(family: Family, algo: byte) {
    match family
    case Hash => algo == HASH_S256 || algo == HASH_S384 || algo == HASH_S512
    case Cipher => algo == CIPHER_AES1 || algo == CIPHER_AES3
    case AuthTag => algo == AUTHTAG_GCM || algo == AUTHTAG_HS32 || algo == AUTHTAG_HS80
    case KeyAgreement => IsDiffieHellman(algo) || IsKem(algo) || algo == KEYAGREEMENT_MULT
    case Sas => algo == SAS_B32 || algo == SAS_B256
  }

  function Elements(s: seq<byte>): set<byte> {
    if s == [] then {} else Elements(s[..|s| - 1]) + {s[|s| - 1]}
  }

  lemma {:induction false} ElementsMembers(s: seq<byte>)
    ensures forall x :: x in Elements(s) <==> x in s
  {
    if s != [] {
      ElementsMembers(s[..|s| - 1]);
      assert s == s[..|s| - 1] + [s[|s| - 1]];
    }
  }

  lemma ElementsSnoc(s: seq<byte>, x: byte)
    ensures Elements(s + [x]) == Elements(s) + {x}
  {
    assert (s + [x])[..|s|] == s;
  }

  ghost predicate DuplicateFree(s: seq<byte>) {
    forall i, j :: 0 <= i < j < |s| ==> s[i] != s[j]
  }

  function FirstIndex(s: seq<byte>, x: byte): (i: nat)
    requires x in s
    ensures i < |s| && s[i] == x && x !in s[..i]
  {
    if s[0] == x then 0 else 1 + FirstIndex(s[1..], x)
  }

  function Seven(s: seq<byte>): seq<byte> {
    if |s| > 7 then s[..7] else s
  }

  // ---------------------------------------------------------------------
  // Common algorithms

  /** The algorithms of master that are available, each once, in master order. */
  function CommonAlgos(master: seq<byte>, available: set<byte>): seq<byte> {
    if master == [] then []
    else
      var front, x := master[..|master| - 1], master[|master| - 1];
      CommonAlgos(front, available) + if x in available && x !in front then [x] else []
  }

  lemma {:induction false} CommonAlgosMembers(master: seq<byte>, available: set<byte>)
    ensures forall x :: x in CommonAlgos(master, available) <==> x in master && x in available
    ensures DuplicateFree(CommonAlgos(master, available))
    ensures |CommonAlgos(master, available)| <= |master|
  {
    if master != [] {
      CommonAlgosMembers(master[..|master| - 1], available);
    }
  }

  /** The selection keeps the preference order of its master list: it is the
      duplicate-free intersection sorted by first position in master. */
  lemma {:induction false} CommonAlgosOrdered(master: seq<byte>, available: set<byte>, j: nat, k: nat)
    requires j < k < |CommonAlgos(master, available)|
    ensures var r := CommonAlgos(master, available);
            r[j] in master && r[k] in master && FirstIndex(master, r[j]) < FirstIndex(master, r[k])
  {
    var front := master[..|master| - 1];
    CommonAlgosMembers(master, available);
    CommonAlgosMembers(front, available);
    var r := CommonAlgos(master, available);
    FirstIndexExtends(master, r[j]);
    FirstIndexExtends(master, r[k]);
    if k < |CommonAlgos(front, available)| {
      CommonAlgosOrdered(front, available, j, k);
    }
  }

  lemma {:induction false} FirstIndexUnique(s: seq<byte>, x: byte, i: nat)
    requires i < |s| && s[i] == x && x !in s[..i]
    ensures FirstIndex(s, x) == i
  {
    if i > 0 {
      assert s[0] == s[..i][0];
      assert s[1..][..i - 1] == s[..i][1..];
      FirstIndexUnique(s[1..], x, i - 1);
    }
  }

  lemma FirstIndexExtends(s: seq<byte>, x: byte)
    requires x in s
    ensures x in s[..|s| - 1] ==> FirstIndex(s[..|s| - 1], x) == FirstIndex(s, x)
    ensures x !in s[..|s| - 1] ==> FirstIndex(s, x) == |s| - 1
  {
    var front := s[..|s| - 1];
    if x in front {
      var k := FirstIndex(front, x);
      assert front[..k] == s[..k];
      FirstIndexUnique(s, x, k);
    } else {
      FirstIndexUnique(s, x, |s| - 1);
    }
  }

  // A prefix of the master list selects a prefix of the result.
  lemma {:induction false} CommonAlgosPrefix(master: seq<byte>, available: set<byte>, i: nat)
    requires i <= |master|
    ensures CommonAlgos(master[..i], available) <= CommonAlgos(master, available)
  {
    if i < |master| {
      var front := master[..|master| - 1];
      assert front[..i] == master[..i];
      CommonAlgosPrefix(front, available, i);
    } else {
      assert master[..i] == master;
    }
  }

  // One turn of the selection loop, on values.
  lemma CommonAlgosStep(master: seq<byte>, available: set<byte>, i: nat)
    requires i < |master|
    ensures var taken, x := CommonAlgos(master[..i], available), master[i];
            && Elements(master[..i + 1]) == Elements(master[..i]) + {x}
            && (x in available - Elements(master[..i]) <==> x in available && x !in master[..i])
            && CommonAlgos(master[..i + 1], available) ==
               if x in available - Elements(master[..i]) then taken + [x] else taken
  {
    ElementsMembers(master[..i]);
    ElementsSnoc(master[..i], master[i]);
    assert master[..i + 1] == master[..i] + [master[i]];
    assert master[..i + 1][..i] == master[..i];
  }

  /** A bitmap with the bit of every entry of algoTypes set. */
  method NewBitmask(algoTypes: seq<byte>) returns (bitmask: Bitmask.Bitmask256)
    ensures fresh(bitmask) && bitmask.Valid() && bitmask.contents == Elements(algoTypes)
  {
    bitmask := new Bitmask.Bitmask256();
    for i := 0 to |algoTypes|
      modifies bitmask
      invariant bitmask.Valid() && bitmask.contents == Elements(algoTypes[..i])
    {
      bitmask.Set(algoTypes[i]);
      ElementsSnoc(algoTypes[..i], algoTypes[i]);
      assert algoTypes[..i + 1] == algoTypes[..i] + [algoTypes[i]];
    }
    assert algoTypes[..|algoTypes|] == algoTypes;
  }

  /** bzrtp_selectCommonAlgo: the first seven common algorithms, at most, are
      left in common. */
  method SelectCommonAlgo(master: seq<byte>, slave: seq<byte>, common: array<byte>) returns (commonLength: nat)
    requires common.Length == 7
    modifies common
    ensures commonLength <= 7
    ensures common[..commonLength] == Seven(CommonAlgos(master, Elements(slave)))
  {
    var algosBitmap := NewBitmask(slave);
    ghost var available := Elements(slave);
    commonLength := 0;
    for i := 0 to |master|
      invariant algosBitmap.Valid() && fresh(algosBitmap)
      invariant algosBitmap.contents == available - Elements(master[..i])
      invariant commonLength < 7 && common[..commonLength] == CommonAlgos(master[..i], available)
    {
      CommonAlgosStep(master, available, i);
      if algosBitmap.Has(master[i]) {
        algosBitmap.Unset(master[i]);
        common[commonLength] := master[i];
        commonLength := commonLength + 1;
        assert common[..commonLength] == CommonAlgos(master[..i + 1], available);
        if commonLength == 7 {
          CommonAlgosPrefix(master, available, i + 1);
          return;
        }
      }
    }
    assert master[..|master|] == master;
  }

  // ---------------------------------------------------------------------
  // Mandatory algorithms

  /** The mandatory types that kept does not hold, in their own order. */
  function Missing(mandatory: seq<byte>, kept: seq<byte>): seq<byte> {
    if mandatory == [] then []
    else
      var front, x := mandatory[..|mandatory| - 1], mandatory[|mandatory| - 1];
      Missing(front, kept) + if x !in kept then [x] else []
  }

  /** The entries that survive the in-place compaction: a repeated type is
      dropped, and so is any other type once the free slots are all needed for
      mandatory types not kept yet. */
  function Kept(list: seq<byte>, mandatory: seq<byte>): seq<byte> {
    if list == [] then []
    else
      var kept, x := Kept(list[..|list| - 1], mandatory), list[|list| - 1];
      if (|kept| + |Missing(mandatory, kept)| < 7 || x in mandatory) && x !in kept then kept + [x] else kept
  }

  function WithMandatory(list: seq<byte>, mandatory: seq<byte>): seq<byte> {
    var kept := Kept(list, mandatory);
    kept + Missing(mandatory, kept)
  }

  lemma {:induction false} MissingMembers(mandatory: seq<byte>, kept: seq<byte>)
    ensures forall x :: x in Missing(mandatory, kept) <==> x in mandatory && x !in kept
    ensures DuplicateFree(mandatory) ==> DuplicateFree(Missing(mandatory, kept))
    ensures |Missing(mandatory, kept)| <= |mandatory|
  {
    if mandatory != [] {
      var front, x := mandatory[..|mandatory| - 1], mandatory[|mandatory| - 1];
      assert mandatory == front + [x];
      MissingMembers(front, kept);
    }
  }

  // Keeping one more type makes at most that one no longer missing.
  lemma {:induction false} MissingAfter(mandatory: seq<byte>, kept: seq<byte>, x: byte)
    requires DuplicateFree(mandatory) && x !in kept
    ensures |Missing(mandatory, kept + [x])| == |Missing(mandatory, kept)| - if x in mandatory then 1 else 0
  {
    if mandatory != [] {
      var front := mandatory[..|mandatory| - 1];
      MissingAfter(front, kept, x);
      assert mandatory == front + [mandatory[|mandatory| - 1]];
    }
  }

  /** At every point of the compaction the kept entries and the mandatory types
      still missing fit together in the seven slots. */
  lemma {:induction false} KeptBound(list: seq<byte>, mandatory: seq<byte>)
    requires DuplicateFree(mandatory) && |mandatory| <= 7
    ensures var kept := Kept(list, mandatory);
            && |kept| + |Missing(mandatory, kept)| <= 7
            && |kept| <= |list|
            && DuplicateFree(kept)
            && (forall x :: x in kept ==> x in list)
            && (forall x :: x in mandatory && x in list ==> x in kept)
  {
    if list == [] {
      MissingMembers(mandatory, []);
    } else {
      var front, x := list[..|list| - 1], list[|list| - 1];
      assert list == front + [x];
      KeptBound(front, mandatory);
      var kept := Kept(front, mandatory);
      if x !in kept {
        MissingAfter(mandatory, kept, x);
      }
    }
  }

  /** Surviving entries stay in the order they came in. */
  lemma {:induction false} KeptOrdered(list: seq<byte>, mandatory: seq<byte>, j: nat, k: nat)
    requires DuplicateFree(mandatory) && |mandatory| <= 7
    requires j < k < |Kept(list, mandatory)|
    ensures var r := Kept(list, mandatory);
            exists p, q :: 0 <= p < q < |list| && list[p] == r[j] && list[q] == r[k]
  {
    var front, x := list[..|list| - 1], list[|list| - 1];
    var kept := Kept(front, mandatory);
    KeptBound(front, mandatory);
    var r := Kept(list, mandatory);
    if k < |kept| {
      KeptOrdered(front, mandatory, j, k);
      var p, q :| 0 <= p < q < |front| && front[p] == kept[j] && front[q] == kept[k];
      assert list[p] == r[j] && list[q] == r[k];
    } else {
      assert r[k] == x && r[j] == kept[j];
      var p := FirstIndex(front, r[j]);
      assert list[p] == r[j] && list[|list| - 1] == r[k];
    }
  }

  /** The completed list has at most seven entries, no duplicate, every mandatory
      type, and nothing that was neither given nor mandatory. */
  lemma WithMandatoryComplete(list: seq<byte>, mandatory: seq<byte>)
    requires DuplicateFree(mandatory) && |mandatory| <= 7
    ensures var r := WithMandatory(list, mandatory);
            && |r| <= 7 && DuplicateFree(r)
            && (forall x :: x in mandatory ==> x in r)
            && (forall x :: x in r ==> x in mandatory || x in list)
  {
    KeptBound(list, mandatory);
    var kept := Kept(list, mandatory);
    MissingMembers(mandatory, kept);
    Disjoint(kept, Missing(mandatory, kept));
  }

  lemma Disjoint(a: seq<byte>, b: seq<byte>)
    requires DuplicateFree(a) && DuplicateFree(b) && forall x :: x in b ==> x !in a
    ensures DuplicateFree(a + b)
  {
    forall i, j | 0 <= i < j < |a + b|
      ensures (a + b)[i] != (a + b)[j]
    {
      if i < |a| <= j {
        assert b[j - |a|] in b && a[i] in a;
      }
    }
  }

  lemma {:induction false} ElementsSize(s: seq<byte>)
    ensures |Elements(s)| <= |s|
    ensures DuplicateFree(s) ==> |Elements(s)| == |s|
  {
    if s != [] {
      var front, x := s[..|s| - 1], s[|s| - 1];
      ElementsSize(front);
      ElementsMembers(front);
    }
  }

  lemma Pigeonhole(a: seq<byte>, b: seq<byte>)
    requires DuplicateFree(a) && forall x :: x in a ==> x in b
    ensures |a| <= |b|
  {
    ElementsSize(a);
    ElementsSize(b);
    ElementsMembers(a);
    ElementsMembers(b);
    assert Elements(b) == Elements(a) + (Elements(b) - Elements(a));
  }

  // The missing types are all in the rest of a complete list, beside its head
  // when that one is not mandatory.
  lemma RoomLeft(front: seq<byte>, rest: seq<byte>, mandatory: seq<byte>)
    requires DuplicateFree(mandatory) && forall x :: x in mandatory ==> x in front || x in rest
    requires rest != [] && rest[0] !in mandatory
    ensures |Missing(mandatory, front)| < |rest|
  {
    MissingMembers(mandatory, front);
    Disjoint(Missing(mandatory, front), [rest[0]]);
    Pigeonhole(Missing(mandatory, front) + [rest[0]], rest);
  }

  // Each prefix of a complete duplicate-free list is kept entire.
  lemma {:induction false} KeptPrefix(list: seq<byte>, mandatory: seq<byte>, i: nat)
    requires DuplicateFree(list) && |list| <= 7
    requires DuplicateFree(mandatory) && forall x :: x in mandatory ==> x in list
    requires i <= |list|
    ensures Kept(list[..i], mandatory) == list[..i]
  {
    if i > 0 {
      var front, x, rest := list[..i - 1], list[i - 1], list[i - 1..];
      KeptPrefix(list, mandatory, i - 1);
      assert list[..i][..i - 1] == front;
      assert list[..i] == front + [x];
      if x !in mandatory {
        assert list == front + rest;
        RoomLeft(front, rest, mandatory);
      }
    }
  }

  /** A duplicate-free list that already holds the mandatory types is left as it
      is, so a Hello from a configured end is parsed back to the very lists it
      was built from. */
  lemma WithMandatoryIdentity(list: seq<byte>, mandatory: seq<byte>)
    requires DuplicateFree(list) && |list| <= 7
    requires DuplicateFree(mandatory) && forall x :: x in mandatory ==> x in list
    ensures WithMandatory(list, mandatory) == list
  {
    KeptPrefix(list, mandatory, |list|);
    assert list[..|list|] == list;
    MissingMembers(mandatory, list);
    Pigeonhole(Missing(mandatory, list), []);
  }

  lemma MandatoryDuplicateFree(family: Family)
    ensures DuplicateFree(Mandatory(family)) && |Mandatory(family)| <= 2
    ensures forall x :: x in Mandatory(family) ==> Implemented(family, x)
  {
  }

  lemma {:induction false} MissingPrefix(mandatory: seq<byte>, kept: seq<byte>, k: nat)
    requires k <= |mandatory|
    ensures Missing(mandatory[..k], kept) <= Missing(mandatory, kept)
  {
    if k == |mandatory| {
      assert mandatory[..k] == mandatory;
    } else {
      var front := mandatory[..|mandatory| - 1];
      assert front[..k] == mandatory[..k];
      MissingPrefix(front, kept, k);
    }
  }

  // One turn of the loop that appends the missing types, on values.
  lemma MissingStep(mandatory: seq<byte>, kept: seq<byte>, k: nat)
    requires k < |mandatory|
    ensures Missing(mandatory[..k + 1], kept) ==
            Missing(mandatory[..k], kept) + if mandatory[k] in Elements(mandatory) - Elements(kept) then [mandatory[k]] else []
  {
    ElementsMembers(mandatory);
    ElementsMembers(kept);
    assert mandatory[..k + 1][..k] == mandatory[..k];
  }

  // With seven entries kept nothing more is taken.
  lemma FullKeepsNoMore(kept: seq<byte>, x: byte, mandatory: seq<byte>)
    requires |kept| + |Missing(mandatory, kept)| <= 7 && |kept| == 7
    ensures x in mandatory ==> x in kept
  {
    MissingMembers(mandatory, kept);
  }

  lemma {:induction false} FullListKeepsNoMore(list: seq<byte>, i: nat, mandatory: seq<byte>)
    requires DuplicateFree(mandatory) && |mandatory| <= 7
    requires i <= |list| && (i == |list| || |Kept(list[..i], mandatory)| == 7)
    ensures Kept(list, mandatory) == Kept(list[..i], mandatory)
    decreases |list| - i
  {
    if i == |list| {
      assert list[..i] == list;
    } else {
      KeptStep(list, i, mandatory);
      FullKeepsNoMore(Kept(list[..i], mandatory), list[i], mandatory);
      FullListKeepsNoMore(list, i + 1, mandatory);
    }
  }

  lemma {:induction false} AllMissing(mandatory: seq<byte>)
    ensures Missing(mandatory, []) == mandatory
  {
    if mandatory != [] {
      AllMissing(mandatory[..|mandatory| - 1]);
    }
  }

  // One turn of the compaction loop, on values.
  lemma KeptStep(list: seq<byte>, i: nat, mandatory: seq<byte>)
    requires DuplicateFree(mandatory) && |mandatory| <= 7 && i < |list|
    ensures var kept, x := Kept(list[..i], mandatory), list[i];
            var take := (|kept| + |Missing(mandatory, kept)| < 7 || x in mandatory) && x !in kept;
            && Kept(list[..i + 1], mandatory) == (if take then kept + [x] else kept)
            && |kept| + |Missing(mandatory, kept)| <= 7
            && (take ==> |Missing(mandatory, kept + [x])| == |Missing(mandatory, kept)| - if x in mandatory then 1 else 0)
  {
    assert list[..i + 1][..i] == list[..i];
    KeptBound(list[..i], mandatory);
    var kept, x := Kept(list[..i], mandatory), list[i];
    if x !in kept {
      MissingAfter(mandatory, kept, x);
    }
  }

  lemma KeptStepFits(list: seq<byte>, i: nat, mandatory: seq<byte>)
    requires DuplicateFree(mandatory) && |mandatory| <= 7 && i < |list|
    ensures var after := Kept(list[..i + 1], mandatory);
            |after| + |Missing(mandatory, after)| <= 7
  {
    KeptBound(list[..i + 1], mandatory);
  }

  /** The bitmaps of the compaction hold the kept types and the mandatory types
      still missing. */
  ghost predicate Tracks(algosBitmask: Bitmask.Bitmask256, missingBitmask: Bitmask.Bitmask256,
                         kept: seq<byte>, mandatory: seq<byte>)
    reads algosBitmask, missingBitmask
  {
    && algosBitmask != missingBitmask
    && algosBitmask.Valid() && algosBitmask.contents == Elements(kept)
    && missingBitmask.Valid() && missingBitmask.contents == Elements(mandatory) - Elements(kept)
  }

  /** The test and the bitmap updates of one turn of the compaction loop, j
      entries being kept so far. */
  method Admit(x: byte, j: nat, missingTypesCount: nat,
               algosBitmask: Bitmask.Bitmask256, missingBitmask: Bitmask.Bitmask256,
               ghost list: seq<byte>, ghost i: nat, ghost mandatory: seq<byte>)
    returns (take: bool, missingLeft: nat)
    requires DuplicateFree(mandatory) && |mandatory| <= 7
    requires i < |list| && x == list[i]
    requires Tracks(algosBitmask, missingBitmask, Kept(list[..i], mandatory), mandatory)
    requires j == |Kept(list[..i], mandatory)| && missingTypesCount == |Missing(mandatory, Kept(list[..i], mandatory))|
    modifies algosBitmask, missingBitmask
    ensures var kept, after := Kept(list[..i], mandatory), Kept(list[..i + 1], mandatory);
            && after == (if take then kept + [x] else kept)
            && Tracks(algosBitmask, missingBitmask, after, mandatory)
            && missingLeft == |Missing(mandatory, after)|
            && |after| + missingLeft <= 7
  {
    ghost var kept := Kept(list[..i], mandatory);
    KeptStep(list, i, mandatory);
    KeptStepFits(list, i, mandatory);
    ElementsMembers(mandatory);
    ElementsMembers(kept);
    take, missingLeft := false, missingTypesCount;
    if (j + missingTypesCount < 7 || missingBitmask.Has(x)) && !algosBitmask.Has(x) {
      algosBitmask.Set(x);
      ElementsSnoc(kept, x);
      take := true;
      if missingBitmask.Has(x) {
        MissingMembers(mandatory, kept);
        missingBitmask.Unset(x);
        missingLeft := missingTypesCount - 1;
      }
    }
  }

  /** The array contents while list is compacted: the kept entries at the front,
      the entries not read yet still in place. */
  ghost predicate Compacted(contents: seq<byte>, list: seq<byte>, i: nat, kept: seq<byte>) {
    && |kept| <= i <= |list| <= |contents|
    && (forall k :: 0 <= k < |kept| ==> contents[k] == kept[k])
    && (forall k :: i <= k < |list| ==> contents[k] == list[k])
  }

  /** The compaction has read i entries of list: the invariant of its loop. */
  ghost predicate CompactedUpTo(algoTypes: array<byte>, list: seq<byte>, i: nat, j: nat, missingTypesCount: nat,
                                algosBitmask: Bitmask.Bitmask256, missingBitmask: Bitmask.Bitmask256, mandatory: seq<byte>)
    reads algoTypes, algosBitmask, missingBitmask
  {
    && i <= |list|
    && var kept := Kept(list[..i], mandatory);
       && Compacted(algoTypes[..], list, i, kept)
       && Tracks(algosBitmask, missingBitmask, kept, mandatory)
       && j == |kept| && missingTypesCount == |Missing(mandatory, kept)| && j + missingTypesCount <= 7
  }

  /** One turn of the compaction loop. */
  method CompactTurn(algoTypes: array<byte>, i: nat, j: nat, missingTypesCount: nat,
                     algosBitmask: Bitmask.Bitmask256, missingBitmask: Bitmask.Bitmask256,
                     ghost list: seq<byte>, ghost mandatory: seq<byte>)
    returns (nextJ: nat, missingLeft: nat)
    requires DuplicateFree(mandatory) && |mandatory| <= 7 && i < |list|
    requires CompactedUpTo(algoTypes, list, i, j, missingTypesCount, algosBitmask, missingBitmask, mandatory)
    modifies algoTypes, algosBitmask, missingBitmask
    ensures CompactedUpTo(algoTypes, list, i + 1, nextJ, missingLeft, algosBitmask, missingBitmask, mandatory)
  {
    var x, take := algoTypes[i], false;
    take, missingLeft := Admit(x, j, missingTypesCount, algosBitmask, missingBitmask, list, i, mandatory);
    nextJ := j;
    if take {
      algoTypes[j] := x;
      nextJ := j + 1;
    }
  }

  lemma CompactionDone(contents: seq<byte>, list: seq<byte>, i: nat, mandatory: seq<byte>)
    requires DuplicateFree(mandatory) && |mandatory| <= 7 && i <= |list|
    requires Compacted(contents, list, i, Kept(list[..i], mandatory))
    requires i == |list| || |Kept(list[..i], mandatory)| == 7
    ensures var kept := Kept(list, mandatory);
            |kept| <= |contents| && contents[..|kept|] == kept && kept == Kept(list[..i], mandatory)
  {
    FullListKeepsNoMore(list, i, mandatory);
  }

  lemma CompactionStart(contents: seq<byte>, list: seq<byte>, mandatory: seq<byte>)
    requires list <= contents
    ensures Kept(list[..0], mandatory) == []
    ensures Compacted(contents, list, 0, []) && Missing(mandatory, []) == mandatory
  {
    AllMissing(mandatory);
  }

  /** The compaction loop itself. */
  method CompactionLoop(algoTypes: array<byte>, algoTypesCount: nat, missing: nat,
                        algosBitmask: Bitmask.Bitmask256, missingBitmask: Bitmask.Bitmask256,
                        ghost list: seq<byte>, ghost mandatory: seq<byte>)
    returns (i: nat, j: nat, missingTypesCount: nat)
    requires DuplicateFree(mandatory) && |mandatory| <= 7 && algoTypesCount == |list|
    requires CompactedUpTo(algoTypes, list, 0, 0, missing, algosBitmask, missingBitmask, mandatory)
    modifies algoTypes, algosBitmask, missingBitmask
    ensures CompactedUpTo(algoTypes, list, i, j, missingTypesCount, algosBitmask, missingBitmask, mandatory)
    ensures j >= 7 || i == |list|
  {
    i, j, missingTypesCount := 0, 0, missing;
    while j < 7 && i < algoTypesCount
      invariant CompactedUpTo(algoTypes, list, i, j, missingTypesCount, algosBitmask, missingBitmask, mandatory)
      decreases algoTypesCount - i
    {
      j, missingTypesCount :=
        CompactTurn(algoTypes, i, j, missingTypesCount, algosBitmask, missingBitmask, list, mandatory);
      i := i + 1;
    }
  }

  /** The first part of bzrtp_addMandatoryCryptoTypesIfNeeded: the kept entries
      become the first ones of algoTypes. */
  method CompactInPlace(algoTypes: array<byte>, algoTypesCount: nat, mandatory: seq<byte>,
                        algosBitmask: Bitmask.Bitmask256, missingBitmask: Bitmask.Bitmask256)
    returns (j: nat, missingTypesCount: nat)
    requires algoTypes.Length == 7 && algoTypesCount <= 7
    requires DuplicateFree(mandatory) && |mandatory| <= 7
    requires Tracks(algosBitmask, missingBitmask, [], mandatory)
    modifies algoTypes, algosBitmask, missingBitmask
    ensures var kept := Kept(old(algoTypes[..algoTypesCount]), mandatory);
            && j == |kept| && j + missingTypesCount <= 7
            && algoTypes[..j] == kept
            && missingTypesCount == |Missing(mandatory, kept)|
            && Tracks(algosBitmask, missingBitmask, kept, mandatory)
  {
    ghost var list := algoTypes[..algoTypesCount];
    CompactionStart(algoTypes[..], list, mandatory);
    var i;
    i, j, missingTypesCount :=
      CompactionLoop(algoTypes, algoTypesCount, |mandatory|, algosBitmask, missingBitmask, list, mandatory);
    CompactionDone(algoTypes[..], list, i, mandatory);
  }

  /** The loop of bzrtp_addMandatoryCryptoTypesIfNeeded that appends the
      mandatory types still missing. */
  method AppendMissing(algoTypes: array<byte>, kept: nat, missing: nat, mandatory: seq<byte>,
                       missingBitmask: Bitmask.Bitmask256)
    returns (j: nat)
    requires algoTypes.Length == 7 && kept + missing <= 7 && |mandatory| <= 7
    requires missing == |Missing(mandatory, algoTypes[..kept])|
    requires missingBitmask.Valid() && missingBitmask.contents == Elements(mandatory) - Elements(algoTypes[..kept])
    modifies algoTypes
    ensures j <= 7
    ensures algoTypes[..j] == old(algoTypes[..kept]) + Missing(mandatory, old(algoTypes[..kept]))
  {
    ghost var taken := algoTypes[..kept];
    var i, missingTypesCount := 0, missing;
    j := kept;
    while i < 7 && missingTypesCount > 0 && i < |mandatory|
      invariant 0 <= i <= |mandatory| && 0 <= missingTypesCount && j + missingTypesCount <= 7
      invariant algoTypes[..j] == taken + Missing(mandatory[..i], taken)
      invariant missingTypesCount + |Missing(mandatory[..i], taken)| == missing
    {
      MissingStep(mandatory, taken, i);
      if missingBitmask.Has(mandatory[i]) {
        algoTypes[j] := mandatory[i];
        j := j + 1;
        missingTypesCount := missingTypesCount - 1;
      }
      i := i + 1;
    }
    MissingPrefix(mandatory, taken, i);
    assert mandatory[..|mandatory|] == mandatory;
    assert Missing(mandatory[..i], taken) == Missing(mandatory, taken);
  }

  /** bzrtp_addMandatoryCryptoTypesIfNeeded, in place in an array of seven. */
  method AddMandatoryCryptoTypesIfNeeded(family: Family, algoTypes: array<byte>, algoTypesCount: nat) returns (count: nat)
    requires algoTypes.Length == 7 && algoTypesCount <= 7
    modifies algoTypes
    ensures count <= 7
    ensures algoTypes[..count] == WithMandatory(old(algoTypes[..algoTypesCount]), Mandatory(family))
  {
    var mandatoryTypes := Mandatory(family);
    MandatoryDuplicateFree(family);
    var missingBitmask := NewBitmask(mandatoryTypes);
    var algosBitmask := new Bitmask.Bitmask256();
    var j, missingTypesCount := CompactInPlace(algoTypes, algoTypesCount, mandatoryTypes, algosBitmask, missingBitmask);
    count := AppendMissing(algoTypes, j, missingTypesCount, mandatoryTypes, missingBitmask);
  }
}

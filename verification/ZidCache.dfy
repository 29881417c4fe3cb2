/** The tables of the ZID cache, ziduri and zrtp: src/zidCache.c, with the part of
    bzrtp_updateCachedSecrets (src/stateMachine.c) that writes them. SQL statements
    are modelled by what they do to the tables. */
module ZidCache {
  import opened Octets
  import opened RetainedSecrets

  const CACHE_PEERNOTFOUND := 0x0800
  const CACHE_PEER_STATUS_UNKNOWN := 0x2010
  const CACHE_PEER_STATUS_VALID := 0x2011
  const CACHE_PEER_STATUS_INVALID := 0x2012
  const ZIDCACHE_UNABLETOUPDATE := 0x2103
  const ZIDCACHE_BADINPUTDATA := 0x2105

  /** The peer URI of the rows that hold the ZIDs of local users. */
  const SELF := "self"

  /** A local user, and a peer's URI and device. */
  datatype Binding = Binding(selfUri: string, peerUri: string, zid: Bytes)

  datatype Row = Row(binding: Binding, active: bool)

  datatype Column = Rs1 | Rs2 | Aux | Pbx | Pvs

  /** A row of the zrtp table: the columns that are not NULL. */
  type Secrets = map<Column, Bytes>

  type Values = seq<(Column, Option<Bytes>)>

  /** Both tables. The zuid of a row of ziduri is its rank, counted from 1; rows are
      never deleted. */
  datatype Tables = Tables(rows: seq<Row>, zrtp: map<nat, Secrets>)

  // ---------------------------------------------------------------------
  // Statements

  /** The zuid of the first row of a binding, 0 if there is none. */
  function Find(rows: seq<Row>, b: Binding): (zuid: nat)
    ensures zuid <= |rows|
    ensures zuid > 0 ==> rows[zuid - 1].binding == b && forall k :: 0 <= k < zuid - 1 ==> rows[k].binding != b
    ensures zuid == 0 ==> forall k :: 0 <= k < |rows| ==> rows[k].binding != b
  {
    if rows == [] then 0
    else
      var front := Find(rows[..|rows| - 1], b);
      if front > 0 then front else if rows[|rows| - 1].binding == b then |rows| else 0
  }

  /** The row of a local user's own ZID. */
  function FindSelf(rows: seq<Row>, selfUri: string): (zuid: nat)
    ensures zuid <= |rows|
    ensures zuid > 0 ==> rows[zuid - 1].binding.selfUri == selfUri && rows[zuid - 1].binding.peerUri == SELF
    ensures zuid > 0 ==> forall k :: 0 <= k < zuid - 1 ==> !(rows[k].binding.selfUri == selfUri && rows[k].binding.peerUri == SELF)
    ensures zuid == 0 ==> forall k :: 0 <= k < |rows| ==> !(rows[k].binding.selfUri == selfUri && rows[k].binding.peerUri == SELF)
  {
    if rows == [] then 0
    else
      var front := FindSelf(rows[..|rows| - 1], selfUri);
      var b := rows[|rows| - 1].binding;
      if front > 0 then front else if b.selfUri == selfUri && b.peerUri == SELF then |rows| else 0
  }

  /** bzrtp_getSelfZID: generated is the ZID drawn if the user has none. */
  function GetSelfZid(t: Tables, selfUri: string, generated: Bytes): (Tables, Bytes) {
    var zuid := FindSelf(t.rows, selfUri);
    if zuid > 0 then (t, t.rows[zuid - 1].binding.zid)
    else (t.(rows := t.rows + [Row(Binding(selfUri, SELF, generated), false)]), generated)
  }

  /** bzrtp_cache_getZuid: the tables, the code returned and the zuid. */
  function GetZuid(t: Tables, b: Binding, insert: bool): (Tables, int, nat) {
    var zuid := Find(t.rows, b);
    if zuid > 0 then (t, 0, zuid)
    else if !insert then (t, CACHE_PEERNOTFOUND, 0)
    else if FindSelf(t.rows, b.selfUri) == 0 then (t, ZIDCACHE_BADINPUTDATA, 0)
    else (t.(rows := t.rows + [Row(b, false)]), 0, |t.rows| + 1)
  }

  function Assigned(s: Secrets, column: Column, value: Option<Bytes>): Secrets {
    if value.Some? && value.value != [] then s[column := value.value] else s - {column}
  }

  function Written(s: Secrets, values: Values): Secrets {
    if values == [] then s
    else
      var last := values[|values| - 1];
      Assigned(Written(s, values[..|values| - 1]), last.0, last.1)
  }

  /** bzrtp_cache_write_impl: an update, or an insertion that the foreign key refuses
      when there is no such row in ziduri. refused tells if the statement itself
      fails. */
  function WriteImpl(t: Tables, zuid: nat, values: Values, refused: bool): (Tables, int) {
    if zuid == 0 then (t, CACHE_PEERNOTFOUND)
    else if refused then (t, ZIDCACHE_UNABLETOUPDATE)
    else if zuid in t.zrtp then (t.(zrtp := t.zrtp[zuid := Written(t.zrtp[zuid], values)]), 0)
    else if zuid <= |t.rows| then (t.(zrtp := t.zrtp[zuid := Written(map[], values)]), 0)
    else (t, ZIDCACHE_UNABLETOUPDATE)
  }

  /** The active flag given to a row and taken from the others of its peer URI, up to
      row n. */
  function ActivatedUpTo(rows: seq<Row>, zuid: nat, n: nat): (r: seq<Row>)
    requires 1 <= zuid <= |rows| && n <= |rows|
    ensures |r| == |rows|
  {
    seq(|rows|, k requires 0 <= k < |rows| =>
      if k == zuid - 1 then rows[k].(active := true)
      else if k < n && rows[k].binding.peerUri == rows[zuid - 1].binding.peerUri then rows[k].(active := false)
      else rows[k])
  }

  /** bzrtp_cache_write_active: what a failure leaves is what the transaction
      started from. */
  function WriteActive(t: Tables, zuid: nat, values: Values, refused: bool): (Tables, int) {
    if zuid == 0 then (t, CACHE_PEERNOTFOUND)
    else if zuid > |t.rows| then (t, ZIDCACHE_UNABLETOUPDATE)
    else
      var activated := if t.rows[zuid - 1].active then t else t.(rows := ActivatedUpTo(t.rows, zuid, |t.rows|));
      var (next, code) := WriteImpl(activated, zuid, values, refused);
      if code == 0 then (next, 0) else (t, code)
  }

  predicate Candidate(t: Tables, peerUri: string, zuid: nat) {
    1 <= zuid <= |t.rows| && t.rows[zuid - 1].binding.peerUri == peerUri && zuid in t.zrtp
  }

  /** The best of the first n rows: active first, then the last inserted. */
  function Chosen(t: Tables, peerUri: string, n: nat): (zuid: nat)
    requires n <= |t.rows|
    ensures zuid <= n && (zuid > 0 ==> Candidate(t, peerUri, zuid))
  {
    if n == 0 then 0
    else
      var best := Chosen(t, peerUri, n - 1);
      if Candidate(t, peerUri, n) && (best == 0 || t.rows[n - 1].active || !t.rows[best - 1].active) then n else best
  }

  function StatusOf(s: Secrets): int {
    if Pvs !in s || |s[Pvs]| != 1 then CACHE_PEER_STATUS_UNKNOWN
    else if s[Pvs] == [1] then CACHE_PEER_STATUS_VALID
    else CACHE_PEER_STATUS_INVALID
  }

  /** bzrtp_cache_getPeerStatus_lock. */
  function PeerStatus(t: Tables, peerUri: string): int {
    var zuid := Chosen(t, peerUri, |t.rows|);
    if zuid == 0 then CACHE_PEER_STATUS_UNKNOWN else StatusOf(t.zrtp[zuid])
  }

  // ---------------------------------------------------------------------
  // In place

  /** The database, with the content its transaction started from. */
  class Database {
    var ziduri: seq<Row>
    var zrtp: map<nat, Secrets>
    var journal: Option<Tables>

    function Contents(): Tables
      reads this
    {
      Tables(ziduri, zrtp)
    }

    constructor ()
      ensures Contents() == Tables([], map[]) && journal.None?
    {
      ziduri, zrtp, journal := [], map[], None;
    }

    method BeginTransaction()
      modifies this`journal
      ensures journal == Some(Contents())
    {
      journal := Some(Tables(ziduri, zrtp));
    }

    method Commit()
      modifies this`journal
      ensures journal.None?
    {
      journal := None;
    }

    method Rollback()
      requires journal.Some?
      modifies this
      ensures Contents() == old(journal.value) && journal.None?
    {
      ziduri, zrtp, journal := journal.value.rows, journal.value.zrtp, None;
    }

    method SelectZuid(b: Binding) returns (zuid: nat)
      ensures zuid == Find(ziduri, b)
    {
      zuid := 0;
      var k := 0;
      while k < |ziduri| && zuid == 0
        invariant k <= |ziduri| && zuid == Find(ziduri[..k], b)
        invariant zuid > 0 ==> zuid == Find(ziduri, b)
      {
        assert ziduri[..k + 1][..k] == ziduri[..k];
        if ziduri[k].binding == b {
          zuid := k + 1;
          FindIsFirst(ziduri, b, k);
        }
        k := k + 1;
      }
      assert ziduri[..|ziduri|] == ziduri;
    }

    /** bzrtp_cache_getZuid. */
    method CacheGetZuid(b: Binding, insert: bool) returns (code: int, zuid: nat)
      modifies this`ziduri
      ensures (Contents(), code, zuid) == GetZuid(old(Contents()), b, insert)
    {
      zuid := SelectZuid(b);
      if zuid > 0 {
        return 0, zuid;
      }
      if !insert {
        return CACHE_PEERNOTFOUND, 0;
      }
      if FindSelf(ziduri, b.selfUri) == 0 {
        return ZIDCACHE_BADINPUTDATA, 0;
      }
      ziduri := ziduri + [Row(b, false)];
      return 0, |ziduri|;
    }

    /** UPDATE ziduri SET active=0 on the other rows of the peer URI, then SET
        active=1 on the row. */
    method UpdateActive(zuid: nat)
      requires 1 <= zuid <= |ziduri|
      modifies this`ziduri
      ensures ziduri == ActivatedUpTo(old(ziduri), zuid, |old(ziduri)|)
    {
      var before := ziduri;
      var peerUri := ziduri[zuid - 1].binding.peerUri;
      ziduri := ziduri[zuid - 1 := ziduri[zuid - 1].(active := true)];
      for k := 0 to |before|
        invariant ziduri == ActivatedUpTo(before, zuid, k)
      {
        if k != zuid - 1 && ziduri[k].binding.peerUri == peerUri {
          ziduri := ziduri[k := ziduri[k].(active := false)];
        }
      }
    }

    /** bzrtp_cache_write_impl. */
    method CacheWrite(zuid: nat, values: Values, refused: bool) returns (code: int)
      modifies this`zrtp
      ensures (Contents(), code) == WriteImpl(old(Contents()), zuid, values, refused)
    {
      if zuid == 0 {
        return CACHE_PEERNOTFOUND;
      }
      if refused {
        return ZIDCACHE_UNABLETOUPDATE;
      }
      if zuid in zrtp {
        zrtp := zrtp[zuid := Written(zrtp[zuid], values)];
        return 0;
      }
      if zuid > |ziduri| {
        return ZIDCACHE_UNABLETOUPDATE;
      }
      zrtp := zrtp[zuid := Written(map[], values)];
      return 0;
    }

    /** bzrtp_cache_write_active. */
    method CacheWriteActive(zuid: nat, values: Values, refused: bool) returns (code: int)
      modifies this
      ensures (Contents(), code) == WriteActive(old(Contents()), zuid, values, refused)
    {
      if zuid == 0 {
        return CACHE_PEERNOTFOUND;
      }
      BeginTransaction();
      if zuid > |ziduri| {
        Rollback();
        return ZIDCACHE_UNABLETOUPDATE;
      }
      if !ziduri[zuid - 1].active {
        UpdateActive(zuid);
      }
      code := CacheWrite(zuid, values, refused);
      if code == 0 {
        Commit();
      } else {
        Rollback();
      }
    }

    /** bzrtp_cache_getPeerStatus_lock. */
    method CacheGetPeerStatus(peerUri: string) returns (status: int)
      ensures status == PeerStatus(Contents(), peerUri)
    {
      var best := 0;
      for zuid := 1 to |ziduri| + 1
        invariant best == Chosen(Contents(), peerUri, zuid - 1)
      {
        if ziduri[zuid - 1].binding.peerUri == peerUri && zuid in zrtp {
          if best == 0 || ziduri[zuid - 1].active || !ziduri[best - 1].active {
            best := zuid;
          }
        }
      }
      status := if best == 0 then CACHE_PEER_STATUS_UNKNOWN else StatusOf(zrtp[best]);
    }
  }

  lemma FindIsFirst(rows: seq<Row>, b: Binding, k: nat)
    requires k < |rows| && rows[k].binding == b && Find(rows[..k], b) == 0
    ensures Find(rows, b) == k + 1
  {
    forall j | 0 <= j < k ensures rows[j].binding != b {
      assert rows[..k][j] == rows[j];
    }
  }

  // ---------------------------------------------------------------------
  // Sequences of operations

  /** One active device per peer URI, one row per binding, no secrets without a row,
      and secrets for every active row. */
  ghost predicate Consistent(t: Tables) {
    && (forall i, j :: 0 <= i < j < |t.rows| && t.rows[i].active && t.rows[j].active ==>
          t.rows[i].binding.peerUri != t.rows[j].binding.peerUri)
    && (forall i, j :: 0 <= i < j < |t.rows| ==> t.rows[i].binding != t.rows[j].binding)
    && (forall zuid :: zuid in t.zrtp ==> 1 <= zuid <= |t.rows|)
    && (forall k :: 0 <= k < |t.rows| && t.rows[k].active ==> k + 1 in t.zrtp)
  }

  datatype Operation =
    | SelfZidOp(selfUri: string, generated: Bytes)
    | GetZuidOp(binding: Binding, insert: bool)
    | WriteOp(zuid: nat, values: Values, refused: bool)
    | WriteActiveOp(zuid: nat, values: Values, refused: bool)

  function Apply(t: Tables, op: Operation): Tables {
    match op
    case SelfZidOp(selfUri, generated) => GetSelfZid(t, selfUri, generated).0
    case GetZuidOp(b, insert) => GetZuid(t, b, insert).0
    case WriteOp(zuid, values, refused) => WriteImpl(t, zuid, values, refused).0
    case WriteActiveOp(zuid, values, refused) => WriteActive(t, zuid, values, refused).0
  }

  function After(t: Tables, ops: seq<Operation>): Tables {
    if ops == [] then t else Apply(After(t, ops[..|ops| - 1]), ops[|ops| - 1])
  }

  lemma ActivationKeepsOneActive(t: Tables, zuid: nat)
    requires Consistent(t) && 1 <= zuid <= |t.rows|
    ensures var rows := ActivatedUpTo(t.rows, zuid, |t.rows|);
            && (forall i, j :: 0 <= i < j < |rows| && rows[i].active && rows[j].active ==> rows[i].binding.peerUri != rows[j].binding.peerUri)
            && (forall k :: 0 <= k < |rows| ==> rows[k].binding == t.rows[k].binding)
            && (forall k :: 0 <= k < |rows| && rows[k].active ==> k == zuid - 1 || t.rows[k].active)
            && rows[zuid - 1].active
  {
  }

  lemma WriteActiveKeeps(t: Tables, zuid: nat, values: Values, refused: bool)
    requires Consistent(t)
    ensures Consistent(WriteActive(t, zuid, values, refused).0)
  {
    if 1 <= zuid <= |t.rows| {
      ActivationKeepsOneActive(t, zuid);
    }
  }

  /** Over any sequence of operations, those that fail and are rolled back included,
      the tables stay consistent. */
  lemma {:induction false} OperationsKeepTheTables(t: Tables, ops: seq<Operation>)
    requires Consistent(t)
    ensures Consistent(After(t, ops))
  {
    if ops != [] {
      var before, op := After(t, ops[..|ops| - 1]), ops[|ops| - 1];
      OperationsKeepTheTables(t, ops[..|ops| - 1]);
      if op.WriteActiveOp? {
        WriteActiveKeeps(before, op.zuid, op.values, op.refused);
      }
    }
  }

  // ---------------------------------------------------------------------
  // Bindings and local ZIDs

  lemma {:induction false} RowsStay(t: Tables, ops: seq<Operation>, k: nat)
    requires k < |t.rows|
    ensures k < |After(t, ops).rows| && After(t, ops).rows[k].binding == t.rows[k].binding
  {
    if ops != [] {
      RowsStay(t, ops[..|ops| - 1], k);
    }
  }

  /** A zuid once given stays that of its binding, whatever happens next. */
  lemma ZuidsAreForever(t: Tables, b: Binding, ops: seq<Operation>)
    requires Find(t.rows, b) > 0
    ensures Find(After(t, ops).rows, b) == Find(t.rows, b)
    ensures forall insert :: GetZuid(After(t, ops), b, insert) == (After(t, ops), 0, Find(t.rows, b))
  {
    var zuid := Find(t.rows, b);
    forall k | 0 <= k < zuid ensures k < |After(t, ops).rows| && After(t, ops).rows[k].binding == t.rows[k].binding {
      RowsStay(t, ops, k);
    }
    assert After(t, ops).rows[zuid - 1].binding == b;
  }

  predicate IsSelf(b: Binding, selfUri: string) {
    b.selfUri == selfUri && b.peerUri == SELF
  }

  lemma FindSelfIsFirst(rows: seq<Row>, selfUri: string, k: nat)
    requires k < |rows| && IsSelf(rows[k].binding, selfUri) && forall j :: 0 <= j < k ==> !IsSelf(rows[j].binding, selfUri)
    ensures FindSelf(rows, selfUri) == k + 1
  {
  }

  /** After a local user's ZID is read or drawn, its row is the first of the user. */
  lemma SelfRow(t: Tables, selfUri: string, drawn: Bytes) returns (k: nat)
    ensures var (next, zid) := GetSelfZid(t, selfUri, drawn);
            && k < |next.rows| && IsSelf(next.rows[k].binding, selfUri) && next.rows[k].binding.zid == zid
            && forall j :: 0 <= j < k ==> !IsSelf(next.rows[j].binding, selfUri)
  {
    k := if FindSelf(t.rows, selfUri) > 0 then FindSelf(t.rows, selfUri) - 1 else |t.rows|;
  }

  /** The ZID of a local user never changes. */
  lemma SelfZidsAreForever(t: Tables, selfUri: string, drawn: Bytes, ops: seq<Operation>, other: Bytes)
    ensures var (next, zid) := GetSelfZid(t, selfUri, drawn);
            GetSelfZid(After(next, ops), selfUri, other).1 == zid
  {
    var next := GetSelfZid(t, selfUri, drawn).0;
    var k := SelfRow(t, selfUri, drawn);
    var later := After(next, ops);
    RowsStay(next, ops, k);
    forall j | 0 <= j < k ensures !IsSelf(later.rows[j].binding, selfUri) {
      RowsStay(next, ops, j);
    }
    FindSelfIsFirst(later.rows, selfUri, k);
  }

  // ---------------------------------------------------------------------
  // Peer status

  lemma {:induction false} ChosenIsBest(t: Tables, peerUri: string, n: nat, other: nat)
    requires n <= |t.rows| && Candidate(t, peerUri, other) && other <= n
    ensures var best := Chosen(t, peerUri, n);
            && best > 0
            && (t.rows[other - 1].active ==> t.rows[best - 1].active)
            && (t.rows[other - 1].active == t.rows[best - 1].active ==> other <= best)
  {
    if other < n {
      ChosenIsBest(t, peerUri, n - 1, other);
    }
  }

  /** The status of a peer is that of its active device if it has one, else of the
      last one inserted. */
  lemma StatusIsOfTheActiveDevice(t: Tables, peerUri: string, zuid: nat)
    requires Consistent(t) && 1 <= zuid <= |t.rows| && t.rows[zuid - 1].active && t.rows[zuid - 1].binding.peerUri == peerUri
    ensures zuid in t.zrtp && PeerStatus(t, peerUri) == StatusOf(t.zrtp[zuid])
  {
    assert zuid - 1 + 1 in t.zrtp;
    ChosenIsBest(t, peerUri, |t.rows|, zuid);
  }

  predicate Sets(values: Values, column: Column) {
    exists k :: 0 <= k < |values| && values[k].0 == column
  }

  lemma {:induction false} WrittenElsewhere(s: Secrets, values: Values, column: Column)
    requires !Sets(values, column)
    ensures column in Written(s, values) <==> column in s
    ensures column in s ==> Written(s, values)[column] == s[column]
  {
    if values != [] {
      var front := values[..|values| - 1];
      assert forall k :: 0 <= k < |front| ==> values[k] == front[k];
      assert Sets(front, column) ==> Sets(values, column);
      WrittenElsewhere(s, front, column);
      assert values[|values| - 1].0 != column;
    }
  }

  /** An operation that makes another device of the peer the active one, or writes
      the flag of this one. */
  predicate Disturbs(t: Tables, op: Operation, peerUri: string, zuid: nat) {
    match op
    case WriteOp(z, values, _) => z == zuid && Sets(values, Pvs)
    case WriteActiveOp(z, values, _) =>
      if z == zuid then Sets(values, Pvs) else 1 <= z <= |t.rows| && t.rows[z - 1].binding.peerUri == peerUri
    case _ => false
  }

  predicate NoneDisturbs(t: Tables, ops: seq<Operation>, peerUri: string, zuid: nat) {
    if ops == [] then true
    else
      var front := ops[..|ops| - 1];
      NoneDisturbs(t, front, peerUri, zuid) && !Disturbs(After(t, front), ops[|ops| - 1], peerUri, zuid)
  }

  predicate IsActiveWith(t: Tables, peerUri: string, zuid: nat, status: int) {
    && 1 <= zuid <= |t.rows| && t.rows[zuid - 1].active && t.rows[zuid - 1].binding.peerUri == peerUri
    && zuid in t.zrtp && StatusOf(t.zrtp[zuid]) == status
  }

  lemma WriteElsewhere(t: Tables, zuid: nat, values: Values, refused: bool, watched: nat)
    requires watched in t.zrtp && (zuid == watched ==> !Sets(values, Pvs))
    ensures var next := WriteImpl(t, zuid, values, refused).0;
            watched in next.zrtp && StatusOf(next.zrtp[watched]) == StatusOf(t.zrtp[watched])
  {
    if zuid == watched {
      WrittenElsewhere(t.zrtp[watched], values, Pvs);
    }
  }

  lemma ActivatedElsewhere(t: Tables, zuid: nat, peerUri: string, watched: nat, status: int)
    requires 1 <= zuid <= |t.rows| && IsActiveWith(t, peerUri, watched, status)
    requires zuid == watched || t.rows[zuid - 1].binding.peerUri != peerUri
    ensures IsActiveWith(t.(rows := ActivatedUpTo(t.rows, zuid, |t.rows|)), peerUri, watched, status)
  {
  }

  lemma OneUndisturbed(t: Tables, op: Operation, peerUri: string, zuid: nat, status: int)
    requires IsActiveWith(t, peerUri, zuid, status) && !Disturbs(t, op, peerUri, zuid)
    ensures IsActiveWith(Apply(t, op), peerUri, zuid, status)
  {
    if op.WriteOp? {
      WriteElsewhere(t, op.zuid, op.values, op.refused, zuid);
    } else if op.WriteActiveOp? && 1 <= op.zuid <= |t.rows| {
      var activated := if t.rows[op.zuid - 1].active then t else t.(rows := ActivatedUpTo(t.rows, op.zuid, |t.rows|));
      if !t.rows[op.zuid - 1].active {
        ActivatedElsewhere(t, op.zuid, peerUri, zuid, status);
      }
      WriteElsewhere(activated, op.zuid, op.values, op.refused, zuid);
    }
  }

  lemma {:induction false} UndisturbedStays(t: Tables, ops: seq<Operation>, peerUri: string, zuid: nat, status: int)
    requires IsActiveWith(t, peerUri, zuid, status) && NoneDisturbs(t, ops, peerUri, zuid)
    ensures IsActiveWith(After(t, ops), peerUri, zuid, status)
  {
    if ops != [] {
      UndisturbedStays(t, ops[..|ops| - 1], peerUri, zuid, status);
      OneUndisturbed(After(t, ops[..|ops| - 1]), ops[|ops| - 1], peerUri, zuid, status);
    }
  }

  /** Once a call made a device active, the status of its peer stays what it is,
      through any other writes, until its flag is written or another device of the
      peer calls. */
  lemma StatusPersists(t: Tables, ops: seq<Operation>, peerUri: string, zuid: nat)
    requires Consistent(t) && 1 <= zuid <= |t.rows| && t.rows[zuid - 1].active && t.rows[zuid - 1].binding.peerUri == peerUri
    requires NoneDisturbs(t, ops, peerUri, zuid)
    ensures PeerStatus(After(t, ops), peerUri) == PeerStatus(t, peerUri)
  {
    StatusIsOfTheActiveDevice(t, peerUri, zuid);
    UndisturbedStays(t, ops, peerUri, zuid, StatusOf(t.zrtp[zuid]));
    OperationsKeepTheTables(t, ops);
    StatusIsOfTheActiveDevice(After(t, ops), peerUri, zuid);
  }

  // ---------------------------------------------------------------------
  // The retained secrets of a session

  function ColumnOf(t: Tables, zuid: nat, column: Column): Option<Bytes> {
    if zuid in t.zrtp && column in t.zrtp[zuid] then Some(t.zrtp[zuid][column]) else None
  }

  /** What bzrtp_getPeerAssociatedSecrets reads. */
  function StoredSecrets(t: Tables, b: Binding): Retained {
    var zuid := Find(t.rows, b);
    Retained(ColumnOf(t, zuid, Rs1), ColumnOf(t, zuid, Rs2))
  }

  /** The end of bzrtp_updateCachedSecrets: zuid is 0 for a first exchange. */
  function StoreSecrets(t: Tables, b: Binding, session: Match, derived: Bytes): Tables {
    var (known, _, zuid) := GetZuid(t, b, true);
    WriteActive(known, zuid, [(Rs1, Some(derived)), (Rs2, session.secrets.rs1)], false).0
  }

  lemma WrittenSecrets(s: Secrets, derived: Bytes, old1: Option<Bytes>)
    requires derived != [] && (old1.Some? ==> old1.value != [])
    ensures var w := Written(s, [(Rs1, Some(derived)), (Rs2, old1)]);
            && Rs1 in w && w[Rs1] == derived && (Rs2 in w <==> old1.Some?) && (old1.Some? ==> w[Rs2] == old1.value)
  {
    var values: Values := [(Rs1, Some(derived)), (Rs2, old1)];
    assert values[..1] == [(Rs1, Some(derived))] && values[..1][..0] == [];
    assert Written(s, values[..1]) == Assigned(Written(s, []), Rs1, Some(derived));
    assert Written(s, values) == Assigned(Written(s, values[..1]), Rs2, old1);
  }

  lemma {:induction false} FindDependsOnBindings(rows: seq<Row>, other: seq<Row>, b: Binding)
    requires |rows| == |other| && forall k :: 0 <= k < |rows| ==> rows[k].binding == other[k].binding
    ensures Find(rows, b) == Find(other, b)
  {
    if rows != [] {
      FindDependsOnBindings(rows[..|rows| - 1], other[..|other| - 1], b);
    }
  }

  lemma FindAppended(rows: seq<Row>, row: Row, b: Binding)
    ensures Find(rows + [row], b) == if Find(rows, b) > 0 then Find(rows, b) else if row.binding == b then |rows| + 1 else 0
  {
    assert (rows + [row])[..|rows|] == rows;
  }

  lemma GetZuidFinds(t: Tables, b: Binding, other: Binding)
    requires Consistent(t) && FindSelf(t.rows, b.selfUri) > 0
    ensures var (known, code, zuid) := GetZuid(t, b, true);
            && code == 0 && 1 <= zuid <= |known.rows| && Find(known.rows, b) == zuid && known.zrtp == t.zrtp
            && (other != b ==> Find(known.rows, other) == Find(t.rows, other) && Find(known.rows, other) != zuid)
  {
    if Find(t.rows, b) == 0 {
      FindAppended(t.rows, Row(b, false), b);
      FindAppended(t.rows, Row(b, false), other);
    }
  }

  lemma WriteActiveWrites(t: Tables, zuid: nat, values: Values, b: Binding)
    requires 1 <= zuid <= |t.rows|
    ensures var next := WriteActive(t, zuid, values, false).0;
            && next.zrtp == t.zrtp[zuid := Written(if zuid in t.zrtp then t.zrtp[zuid] else map[], values)]
            && Find(next.rows, b) == Find(t.rows, b)
  {
    FindDependsOnBindings(WriteActive(t, zuid, values, false).0.rows, t.rows, b);
  }

  lemma StoreKeepsTheTables(t: Tables, b: Binding, session: Match, derived: Bytes)
    requires Consistent(t)
    ensures Consistent(StoreSecrets(t, b, session, derived))
  {
    var (known, _, zuid) := GetZuid(t, b, true);
    OperationsKeepTheTables(t, [GetZuidOp(b, true)]);
    assert After(t, [GetZuidOp(b, true)]) == Apply(After(t, []), GetZuidOp(b, true));
    WriteActiveKeeps(known, zuid, [(Rs1, Some(derived)), (Rs2, session.secrets.rs1)], false);
  }

  /** The tables implement the cache of the retained-secret model: after a session
      that updates it, the secrets read for the peer are those the model says, and
      those of every other binding are what they were. */
  lemma TablesHoldTheUpdate(t: Tables, b: Binding, session: Match, derived: Bytes, other: Binding)
    requires Consistent(t) && FindSelf(t.rows, b.selfUri) > 0
    requires derived != [] && (session.secrets.rs1.Some? ==> session.secrets.rs1.value != [])
    ensures StoredSecrets(StoreSecrets(t, b, session, derived), b) == Updated(StoredSecrets(t, b), session, derived, true)
    ensures other != b ==> StoredSecrets(StoreSecrets(t, b, session, derived), other) == StoredSecrets(t, other)
    ensures Consistent(StoreSecrets(t, b, session, derived))
  {
    StoreKeepsTheTables(t, b, session, derived);
    GetZuidFinds(t, b, other);
    var (known, code, zuid) := GetZuid(t, b, true);
    var values: Values := [(Rs1, Some(derived)), (Rs2, session.secrets.rs1)];
    WriteActiveWrites(known, zuid, values, b);
    WriteActiveWrites(known, zuid, values, other);
    WrittenSecrets(if zuid in known.zrtp then known.zrtp[zuid] else map[], derived, session.secrets.rs1);
  }
}

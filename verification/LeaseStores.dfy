/** The saved state file: the persisted form of a lease record, the port-ordered file image, and
    what a save leaves behind (crates/server/src/lease_store.rs). */
module LeaseStores {
  import opened Common
  import opened HostAdmission
  import opened Leases
  import opened LeaseInvariants
  import opened LeaseRecords
  import opened Hex

  datatype PersistedLease = PersistedLease(
    tokenId: string,
    retiredTokenId: Option<string>,
    retiredTokenIds: seq<string>,
    recoveryId: Option<string>,
    port: u16,
    lastIp: Option<IpAddr>,
    expiresAt: u64)

  datatype PersistedV2 = PersistedV2(version: byte, leases: seq<PersistedLease>)

  // ---- Records and their persisted form ----

  function HexAll(ids: seq<TokenId>): (r: seq<string>)
    ensures |r| == |ids|
  {
    seq(|ids|, i requires 0 <= i < |ids| => HexOf(ids[i].bytes))
  }

  function FromRecord(r: LeaseRecord): PersistedLease {
    PersistedLease(HexOf(r.tokenId.bytes), None, HexAll(r.retired),
                   if r.recoveryId.Some? then Some(HexOf(r.recoveryId.value.bytes)) else None,
                   r.port, r.lastIp, r.expiresAt)
  }

  function ParsedId(hex: string): Option<TokenId> {
    var parsed := ParsedHex(hex);
    if parsed.Some? then Some(TokenId(parsed.value)) else None
  }

  function ParsedIds(hexes: seq<string>): Option<seq<TokenId>> {
    if forall h | h in hexes :: IsHex32(h) then
      Some(seq(|hexes|, i requires 0 <= i < |hexes| => TokenId(HexBytes(hexes[i]))))
    else None
  }

  /** A missing recovery key is fine; a malformed one is not. */
  function ParsedRecovery(hex: Option<string>): Option<Option<TokenId>> {
    match hex
    case None => Some(None)
    case Some(h) => var id := ParsedId(h); if id.Some? then Some(id) else None
  }

  function RetiredHexes(p: PersistedLease): seq<string> {
    p.retiredTokenIds + (if p.retiredTokenId.Some? then [p.retiredTokenId.value] else [])
  }

  function IntoRecord(p: PersistedLease): Option<LeaseRecord> {
    if exists c | c in p.tokenId :: !IsLowerHexDigit(c) then None
    else
      var id, retired, recovery := ParsedId(p.tokenId), ParsedIds(RetiredHexes(p)), ParsedRecovery(p.recoveryId);
      if id.Some? && retired.Some? && recovery.Some? then
        Some(LeaseRecord(id.value, retired.value, recovery.value, p.port, p.lastIp, p.expiresAt))
      else None
  }

  /** What is read: the fingerprint in lower case; the former keys, in either case, with the one of the
      old single field after those of the list; the recovery key if there is one. Anything else in
      one of them, and the lease is refused. */
  lemma IntoRecordAnswers(p: PersistedLease)
    ensures IntoRecord(p).Some? <==>
              && IsHex32(p.tokenId) && (forall c | c in p.tokenId :: IsLowerHexDigit(c))
              && (forall h | h in p.retiredTokenIds :: IsHex32(h))
              && (p.retiredTokenId.Some? ==> IsHex32(p.retiredTokenId.value))
              && (p.recoveryId.Some? ==> IsHex32(p.recoveryId.value))
    ensures IntoRecord(p).Some? ==>
              var r := IntoRecord(p).value; var n := |p.retiredTokenIds|;
              && ParsedHex(p.tokenId) == Some(r.tokenId.bytes)
              && |r.retired| == (if p.retiredTokenId.Some? then n + 1 else n)
              && (forall i :: 0 <= i < n ==> ParsedHex(p.retiredTokenIds[i]) == Some(r.retired[i].bytes))
              && (p.retiredTokenId.Some? ==> ParsedHex(p.retiredTokenId.value) == Some(r.retired[n].bytes))
              && (if p.recoveryId.Some? then
                    r.recoveryId.Some? && ParsedHex(p.recoveryId.value) == Some(r.recoveryId.value.bytes)
                  else r.recoveryId == None)
              && r.port == p.port && r.lastIp == p.lastIp && r.expiresAt == p.expiresAt
  {
    var hexes := RetiredHexes(p);
    assert (forall h | h in hexes :: IsHex32(h)) <==>
           && (forall h | h in p.retiredTokenIds :: IsHex32(h))
           && (p.retiredTokenId.Some? ==> IsHex32(p.retiredTokenId.value)) by {
      assert forall h | h in p.retiredTokenIds :: h in hexes;
      assert p.retiredTokenId.Some? ==> hexes[|hexes| - 1] == p.retiredTokenId.value;
    }
    if IntoRecord(p).Some? {
      assert forall i :: 0 <= i < |p.retiredTokenIds| ==> hexes[i] == p.retiredTokenIds[i];
    }
  }

  /** Every record survives being persisted. */
  lemma RecordRoundTrip(r: LeaseRecord)
    ensures IntoRecord(FromRecord(r)) == Some(r)
  {
    var p := FromRecord(r);
    HexRoundTrip(r.tokenId.bytes);
    if r.recoveryId.Some? { HexRoundTrip(r.recoveryId.value.bytes); }
    var hexes := RetiredHexes(p);
    assert hexes == HexAll(r.retired);
    forall i | 0 <= i < |hexes| ensures IsHex32(hexes[i]) && TokenId(HexBytes(hexes[i])) == r.retired[i] {
      HexRoundTrip(r.retired[i].bytes);
    }
    assert ParsedIds(hexes).value == r.retired;
  }

  /** Two records with one persisted form are one record. */
  lemma FromRecordInjective(a: LeaseRecord, b: LeaseRecord)
    requires FromRecord(a) == FromRecord(b)
    ensures a == b
  {
    RecordRoundTrip(a);
    RecordRoundTrip(b);
  }

  /** A token fingerprint that is accepted was printed by the relay: it is the canonical text. */
  lemma AcceptedTokenIsCanonical(p: PersistedLease)
    requires IntoRecord(p).Some?
    ensures p.tokenId == HexOf(IntoRecord(p).value.tokenId.bytes)
  {
    HexCanonical(p.tokenId);
  }

  function FromRecords(rs: seq<LeaseRecord>): (ps: seq<PersistedLease>)
    ensures |ps| == |rs| && forall i :: 0 <= i < |rs| ==> ps[i] == FromRecord(rs[i])
  {
    seq(|rs|, i requires 0 <= i < |rs| => FromRecord(rs[i]))
  }

  // ---- Port order ----

  ghost predicate PortsAscend(ps: seq<PersistedLease>) {
    forall i, j :: 0 <= i < j < |ps| ==> ps[i].port < ps[j].port
  }

  function InsertByPort(p: PersistedLease, ps: seq<PersistedLease>): seq<PersistedLease> {
    if ps == [] || p.port <= ps[0].port then [p] + ps
    else [ps[0]] + InsertByPort(p, ps[1..])
  }

  /** `sort_by_key(port)`, which is stable. */
  function SortByPort(ps: seq<PersistedLease>): seq<PersistedLease> {
    if ps == [] then [] else InsertByPort(ps[0], SortByPort(ps[1..]))
  }

  lemma {:induction false} InsertMembers(p: PersistedLease, ps: seq<PersistedLease>)
    ensures multiset(InsertByPort(p, ps)) == multiset(ps) + multiset{p}
    ensures forall q :: q in InsertByPort(p, ps) <==> q == p || q in ps
  {
    if ps != [] && p.port > ps[0].port {
      InsertMembers(p, ps[1..]);
      assert ps == [ps[0]] + ps[1..];
    }
  }

  /** Sorting loses and invents nothing. */
  lemma {:induction false} SortMembers(ps: seq<PersistedLease>)
    ensures multiset(SortByPort(ps)) == multiset(ps)
    ensures forall q :: q in SortByPort(ps) <==> q in ps
  {
    if ps != [] {
      SortMembers(ps[1..]);
      InsertMembers(ps[0], SortByPort(ps[1..]));
      assert ps == [ps[0]] + ps[1..];
    }
  }

  lemma {:induction false} InsertAscends(p: PersistedLease, ps: seq<PersistedLease>)
    requires PortsAscend(ps) && forall q | q in ps :: q.port != p.port
    ensures PortsAscend(InsertByPort(p, ps))
  {
    if ps != [] && p.port > ps[0].port {
      InsertAscends(p, ps[1..]);
      InsertMembers(p, ps[1..]);
      var rest := InsertByPort(p, ps[1..]);
      forall i | 0 <= i < |rest| ensures ps[0].port < rest[i].port { assert rest[i] in rest; }
    }
  }

  lemma {:induction false} SortAscends(ps: seq<PersistedLease>)
    requires forall i, j :: 0 <= i < j < |ps| ==> ps[i].port != ps[j].port
    ensures PortsAscend(SortByPort(ps))
  {
    if ps != [] {
      SortAscends(ps[1..]);
      SortMembers(ps[1..]);
      InsertAscends(ps[0], SortByPort(ps[1..]));
    }
  }

  /** There is one way to list given leases by ascending port. */
  lemma {:induction false} AscendingIsUnique(a: seq<PersistedLease>, b: seq<PersistedLease>)
    requires PortsAscend(a) && PortsAscend(b) && forall q :: q in a <==> q in b
    ensures a == b
  {
    assert b != [] ==> b[0] in b;
    if a != [] {
      assert a[0] in b;
      assert b[0] in a;
      assert a[0] == b[0];
      forall q ensures q in a[1..] <==> q in b[1..] {
        if q in a[1..] { assert q in a && q != a[0]; }
        if q in b[1..] { assert q in b && q != b[0]; }
      }
      AscendingIsUnique(a[1..], b[1..]);
    }
  }

  // ---- The file image of a table ----

  /** What a save at `savedAt` writes: version 2, every claim once, ordered by port. */
  ghost function ImageOf(m: Claims, savedAt: u64): PersistedV2 {
    PersistedV2(2, FromRecords(RecordsFrom(m, savedAt, PORT_START)))
  }

  lemma SnapshotPersists(m: Claims, savedAt: u64, rs: seq<LeaseRecord>)
    requires PortsOk(m) && IsSnapshot(m, savedAt, rs)
    ensures forall q :: q in FromRecords(rs) <==> exists k :: k in m && q == FromRecord(RecordOf(k, m[k], savedAt))
  {
    var ps := FromRecords(rs);
    forall q | q in ps ensures exists k :: k in m && q == FromRecord(RecordOf(k, m[k], savedAt)) {
      var i :| 0 <= i < |ps| && ps[i] == q;
      assert rs[i].tokenId in m;
    }
    forall k | k in m ensures FromRecord(RecordOf(k, m[k], savedAt)) in ps {
      assert k in TokensOf(rs);
      var i :| 0 <= i < |rs| && rs[i].tokenId == k;
      assert ps[i] in ps;
    }
  }

  /** The saved file does not depend on the order the map of claims is listed in. */
  lemma SavedImageIsCanonical(m: Claims, savedAt: u64, rs: seq<LeaseRecord>)
    requires PortsOk(m) && IsSnapshot(m, savedAt, rs)
    ensures SortByPort(FromRecords(rs)) == ImageOf(m, savedAt).leases
  {
    var canonical := RecordsFrom(m, savedAt, PORT_START);
    RecordsFromSnapshot(m, savedAt);
    RecordsFromAscend(m, savedAt, PORT_START);
    SnapshotPersists(m, savedAt, rs);
    SnapshotPersists(m, savedAt, canonical);
    SortMembers(FromRecords(rs));
    forall i, j | 0 <= i < j < |rs| ensures rs[i].port != rs[j].port {
      assert rs[i].tokenId != rs[j].tokenId;
    }
    SortAscends(FromRecords(rs));
    AscendingIsUnique(SortByPort(FromRecords(rs)), FromRecords(canonical));
  }

  // ---- Loading ----

  predicate AllParse(ps: seq<PersistedLease>) {
    forall p | p in ps :: IntoRecord(p).Some?
  }

  function IntoRecords(ps: seq<PersistedLease>): seq<LeaseRecord>
    requires AllParse(ps)
  {
    seq(|ps|, i requires 0 <= i < |ps| => IntoRecord(ps[i]).value)
  }

  /** A start-up accepts exactly these files, at any time. */
  ghost predicate Loadable(file: PersistedV2) {
    file.version == 2 && AllParse(file.leases) && Acceptable(IntoRecords(file.leases))
  }

  ghost function Loaded(file: PersistedV2, now: u64): Table
    requires Loadable(file)
  {
    Table(RestoredLeases(IntoRecords(file.leases), now), 0)
  }

  lemma FromRecordsRoundTrip(rs: seq<LeaseRecord>)
    ensures AllParse(FromRecords(rs)) && IntoRecords(FromRecords(rs)) == rs
  {
    var ps := FromRecords(rs);
    forall i | 0 <= i < |ps| ensures IntoRecord(ps[i]) == Some(rs[i]) {
      RecordRoundTrip(rs[i]);
    }
  }

  /** A valid table written at `savedAt` is always loaded again, at any time, as itself with its
      sessions over and its lapsed claims gone. */
  lemma LoadSaved(t: Table, savedAt: u64, now: u64)
    requires ValidTable(t)
    ensures Loadable(ImageOf(t.leases, savedAt))
    ensures Loaded(ImageOf(t.leases, savedAt), now) == Table(Demoted(t.leases, savedAt, now), 0)
  {
    var rs := RecordsFrom(t.leases, savedAt, PORT_START);
    RecordsFromSnapshot(t.leases, savedAt);
    FromRecordsRoundTrip(rs);
    SnapshotRestores(t, savedAt, rs, now);
  }

  lemma LoadedIsValid(file: PersistedV2, now: u64)
    requires Loadable(file)
    ensures ValidTable(Loaded(file, now))
  {
    AcceptedIsValid(IntoRecords(file.leases), now);
  }

  lemma LoadedLater(file: PersistedV2, early: u64, savedAt: u64, late: u64)
    requires Loadable(file) && early <= late
    ensures Loaded(file, late).leases == Demoted(Loaded(file, early).leases, savedAt, late)
  {
    RestoredLater(IntoRecords(file.leases), early, savedAt, late);
  }
}

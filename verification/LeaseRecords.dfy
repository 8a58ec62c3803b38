/** Snapshots of the lease table and their restoration
    (crates/server/src/lease.rs, `snapshot` and `restore`). */
module LeaseRecords {
  import opened Common
  import opened HostAdmission
  import opened Leases
  import opened LeaseInvariants

  datatype LeaseRecord = LeaseRecord(
    tokenId: TokenId,
    retired: seq<TokenId>,
    recoveryId: Option<TokenId>,
    port: u16,
    lastIp: Option<IpAddr>,
    expiresAt: u64)

  /** When a claim saved at `savedAt` lapses. */
  function ExpiryOf(lease: Lease, savedAt: u64): u64 {
    match lease.status
    case Active(_) => SaturatingAdd(savedAt, GRACE_MS)
    case Grace(expiresAt) => expiresAt
  }

  function RecordOf(id: TokenId, lease: Lease, savedAt: u64): LeaseRecord {
    LeaseRecord(id, lease.retired, lease.recoveryId, lease.port, lease.lastIp, ExpiryOf(lease, savedAt))
  }

  function LeaseOf(record: LeaseRecord): Lease {
    Lease(record.port, record.lastIp, record.retired, record.recoveryId, Grace(record.expiresAt))
  }

  ghost predicate TokensDistinct(rs: seq<LeaseRecord>) {
    forall i, j :: 0 <= i < j < |rs| ==> rs[i].tokenId != rs[j].tokenId
  }

  function TokensOf(rs: seq<LeaseRecord>): set<TokenId> {
    set i | 0 <= i < |rs| :: rs[i].tokenId
  }

  /** `rs` lists every claim of `m` once, in some order. */
  ghost predicate IsSnapshot(m: Claims, savedAt: u64, rs: seq<LeaseRecord>) {
    && TokensDistinct(rs)
    && TokensOf(rs) == m.Keys
    && forall i :: 0 <= i < |rs| ==> rs[i].tokenId in m && rs[i] == RecordOf(rs[i].tokenId, m[rs[i].tokenId], savedAt)
  }

  // ---- What `restore` accepts, and what it builds ----

  ghost predicate RecordWellFormed(r: LeaseRecord) {
    && PORT_START <= r.port <= PORT_END
    && |r.retired| <= MAX_RETIRED_IDENTITIES && NoDuplicates(r.retired)
    && r.tokenId !in r.retired
  }

  ghost predicate RecordsCompatible(a: LeaseRecord, b: LeaseRecord) {
    && a.port != b.port
    && a.tokenId != b.tokenId
    && (a.recoveryId.Some? ==> a.recoveryId != b.recoveryId)
    && (forall x | x in a.retired :: x !in b.retired)
    && a.tokenId !in b.retired
  }

  /** The checks of `restore`. None of them looks at the clock. */
  ghost predicate Acceptable(rs: seq<LeaseRecord>) {
    && |rs| <= 1000
    && (forall i :: 0 <= i < |rs| ==> RecordWellFormed(rs[i]))
    && (forall i, j :: 0 <= i < |rs| && 0 <= j < |rs| && i != j ==> RecordsCompatible(rs[i], rs[j]))
  }

  /** The unexpired records as Grace claims. */
  function RestoredLeases(rs: seq<LeaseRecord>, now: u64): Claims {
    if rs == [] then map[]
    else
      var last := rs[|rs| - 1];
      var m := RestoredLeases(rs[..|rs| - 1], now);
      if last.expiresAt <= now then m else m[last.tokenId := LeaseOf(last)]
  }

  /** A table that was written at `savedAt`, as it looks after a restart at `now`: every claim
      keeps its token, port, address, retired list and recovery key, sessions are over, and
      exactly the lapsed claims are gone. */
  function Demoted(m: Claims, savedAt: u64, now: u64): Claims {
    map k | k in m && ExpiryOf(m[k], savedAt) > now :: m[k].(status := Grace(ExpiryOf(m[k], savedAt)))
  }

  lemma TokensOfLast(rs: seq<LeaseRecord>)
    requires rs != [] && TokensDistinct(rs)
    ensures var n := |rs| - 1;
            TokensOf(rs) == TokensOf(rs[..n]) + {rs[n].tokenId} && rs[n].tokenId !in TokensOf(rs[..n])
  {
    var n := |rs| - 1;
    assert forall i :: 0 <= i < n ==> rs[..n][i] == rs[i];
    forall k | k in TokensOf(rs) ensures k in TokensOf(rs[..n]) || k == rs[n].tokenId {
      var i :| 0 <= i < |rs| && rs[i].tokenId == k;
      if i < n { assert rs[..n][i].tokenId == k; }
    }
  }

  lemma {:induction false} RestoredAre(rs: seq<LeaseRecord>, now: u64)
    requires TokensDistinct(rs)
    ensures var m := RestoredLeases(rs, now);
            && m.Keys <= TokensOf(rs)
            && forall i :: 0 <= i < |rs| ==>
                 (rs[i].tokenId in m <==> now < rs[i].expiresAt)
                 && (rs[i].tokenId in m ==> m[rs[i].tokenId] == LeaseOf(rs[i]))
  {
    if rs != [] {
      var n := |rs| - 1;
      var prefix, m := rs[..n], RestoredLeases(rs[..n], now);
      RestoredAre(prefix, now);
      TokensOfLast(rs);
      assert rs[n].tokenId !in m;
      forall i | 0 <= i < n
        ensures rs[i].tokenId in m <==> now < rs[i].expiresAt
        ensures rs[i].tokenId in m ==> m[rs[i].tokenId] == LeaseOf(rs[i])
      {
        assert prefix[i] == rs[i];
      }
      assert RestoredLeases(rs, now) == if rs[n].expiresAt <= now then m else m[rs[n].tokenId := LeaseOf(rs[n])];
    }
  }

  lemma {:induction false} TokensOfSize(rs: seq<LeaseRecord>)
    requires TokensDistinct(rs)
    ensures |TokensOf(rs)| == |rs|
  {
    if rs != [] {
      var n := |rs| - 1;
      TokensOfSize(rs[..n]);
      TokensOfLast(rs);
    }
  }

  lemma RestoredSnapshot(m: Claims, savedAt: u64, rs: seq<LeaseRecord>, now: u64)
    requires IsSnapshot(m, savedAt, rs)
    ensures RestoredLeases(rs, now) == Demoted(m, savedAt, now)
  {
    RestoredAre(rs, now);
    var restored := RestoredLeases(rs, now);
    forall k ensures k in restored <==> k in Demoted(m, savedAt, now) {
      if k in m {
        assert k in TokensOf(rs);
      }
    }
    forall k | k in restored ensures restored[k] == Demoted(m, savedAt, now)[k] {
      assert k in TokensOf(rs);
    }
  }

  /** Restart never fails: whatever order the claims of a valid table are listed in, and
      whenever the restart happens, `restore` accepts the list and rebuilds the claims. */
  lemma SnapshotRestores(t: Table, savedAt: u64, rs: seq<LeaseRecord>, now: u64)
    requires ValidTable(t) && IsSnapshot(t.leases, savedAt, rs)
    ensures Acceptable(rs)
    ensures RestoredLeases(rs, now) == Demoted(t.leases, savedAt, now)
  {
    var m := t.leases;
    RestoredSnapshot(m, savedAt, rs, now);
    TokensOfSize(rs);
    PoolCount(m);
    forall i | 0 <= i < |rs| ensures RecordWellFormed(rs[i]) {
      LeavingAdmits(m, rs[i].tokenId);
    }
    forall i, j | 0 <= i < |rs| && 0 <= j < |rs| && i != j ensures RecordsCompatible(rs[i], rs[j]) {
      var a, b := rs[i].tokenId, rs[j].tokenId;
      assert a != b;
      assert a !in m[b].retired by { assert !IsRetired(m, a); }
    }
  }

  /** Conversely, any records `restore` accepts, from whatever source, make a valid table. */
  lemma AcceptedIsValid(rs: seq<LeaseRecord>, now: u64)
    requires Acceptable(rs)
    ensures ValidTable(Table(RestoredLeases(rs, now), 0))
  {
    AcceptableTokens(rs);
    RestoredAre(rs, now);
    var m := RestoredLeases(rs, now);
    forall k | k in m ensures exists i :: 0 <= i < |rs| && rs[i].tokenId == k && m[k] == LeaseOf(rs[i]) {
      assert k in TokensOf(rs);
    }
    assert LiveNotRetired(m) by {
      forall a, b | a in m && b in m ensures a !in m[b].retired {
        var i :| 0 <= i < |rs| && rs[i].tokenId == a;
        var j :| 0 <= j < |rs| && rs[j].tokenId == b;
        assert i != j ==> RecordsCompatible(rs[i], rs[j]);
      }
    }
    forall a, b | a in m && b in m && a != b
      ensures m[a].port != m[b].port
      ensures m[a].recoveryId.Some? ==> m[a].recoveryId != m[b].recoveryId
      ensures forall x | x in m[a].retired :: x !in m[b].retired
    {
      var i :| 0 <= i < |rs| && rs[i].tokenId == a;
      var j :| 0 <= j < |rs| && rs[j].tokenId == b;
      assert RecordsCompatible(rs[i], rs[j]);
    }
  }

  lemma AcceptableTokens(rs: seq<LeaseRecord>)
    requires Acceptable(rs)
    ensures TokensDistinct(rs)
  {
    forall i, j | 0 <= i < j < |rs| ensures rs[i].tokenId != rs[j].tokenId {
      assert RecordsCompatible(rs[i], rs[j]);
    }
  }

  /** A later restart from the same records gives what the earlier one holds, less what lapsed. */
  lemma RestoredLater(rs: seq<LeaseRecord>, early: u64, savedAt: u64, late: u64)
    requires Acceptable(rs) && early <= late
    ensures RestoredLeases(rs, late) == Demoted(RestoredLeases(rs, early), savedAt, late)
  {
    AcceptableTokens(rs);
    var a, b := RestoredLeases(rs, early), RestoredLeases(rs, late);
    forall k ensures k in b <==> k in Demoted(a, savedAt, late) {
      RestoredToken(rs, early, k);
      RestoredToken(rs, late, k);
    }
    forall k | k in b ensures b[k] == Demoted(a, savedAt, late)[k] {
      RestoredToken(rs, early, k);
      RestoredToken(rs, late, k);
    }
  }

  /** What is restored of one token. */
  lemma RestoredToken(rs: seq<LeaseRecord>, now: u64, k: TokenId)
    requires TokensDistinct(rs)
    ensures var m := RestoredLeases(rs, now);
            if k in TokensOf(rs) then
              exists i :: 0 <= i < |rs| && rs[i].tokenId == k && (k in m <==> now < rs[i].expiresAt)
                          && (k in m ==> m[k] == LeaseOf(rs[i]))
            else k !in m
  {
    RestoredAre(rs, now);
  }

  /** Reaping never removes a claim that a restart at the same time or later would bring back. */
  lemma ReapInvisible(m: Claims, savedAt: u64, now: u64, late: u64)
    requires now <= late
    ensures Demoted(Reap(m, now), savedAt, late) == Demoted(m, savedAt, late)
  {
  }

  lemma DemotedQuota(m: Claims, savedAt: u64, now: u64)
    requires QuotaOk(m)
    ensures QuotaOk(Demoted(m, savedAt, now))
  {
    var d := Demoted(m, savedAt, now);
    forall source ensures |ChargedKeys(d, source)| <= MAX_TUNNELS_PER_IP {
      SubsetSize(ChargedKeys(d, source), ChargedKeys(m, source));
    }
  }

  // ---- The quota is the one invariant `restore` does not check ----

  function LiveChargedRecords(rs: seq<LeaseRecord>, now: u64, source: HostSource): set<nat> {
    set i | 0 <= i < |rs| && now < rs[i].expiresAt && ChargedTo(LeaseOf(rs[i]), source)
  }

  function TokensAt(rs: seq<LeaseRecord>, indices: set<nat>): set<TokenId>
    requires forall i | i in indices :: i < |rs|
  {
    set i | i in indices :: rs[i].tokenId
  }

  lemma {:induction false} TokensAtSize(rs: seq<LeaseRecord>, indices: set<nat>)
    requires TokensDistinct(rs) && forall i | i in indices :: i < |rs|
    ensures |TokensAt(rs, indices)| == |indices|
  {
    if indices != {} {
      var i :| i in indices;
      TokensAtSize(rs, indices - {i});
      assert forall j | j in indices && j != i :: rs[j].tokenId != rs[i].tokenId;
      assert rs[i].tokenId !in TokensAt(rs, indices - {i});
      assert TokensAt(rs, indices) == TokensAt(rs, indices - {i}) + {rs[i].tokenId};
    }
  }

  /** Restored claims respect the quota exactly when the unexpired records do. */
  lemma RestoredQuota(rs: seq<LeaseRecord>, now: u64)
    requires Acceptable(rs)
    ensures QuotaOk(RestoredLeases(rs, now)) <==>
            forall source :: |LiveChargedRecords(rs, now, source)| <= MAX_TUNNELS_PER_IP
  {
    AcceptableTokens(rs);
    RestoredAre(rs, now);
    var m := RestoredLeases(rs, now);
    forall source ensures |ChargedKeys(m, source)| == |LiveChargedRecords(rs, now, source)| {
      var live := LiveChargedRecords(rs, now, source);
      TokensAtSize(rs, live);
      assert ChargedKeys(m, source) == TokensAt(rs, live) by {
        forall k | k in ChargedKeys(m, source) ensures exists i | i in live :: rs[i].tokenId == k {
          assert k in TokensOf(rs);
        }
      }
    }
  }

  /** Three live records from one address are accepted: a hand-edited file can exceed the quota. */
  lemma RestoreCanExceedQuota(a: TokenId, b: TokenId, c: TokenId, ip: IpAddr, now: u64)
    requires a != b && a != c && b != c && now < U64_MAX
    ensures exists rs :: Acceptable(rs) && !QuotaOk(RestoredLeases(rs, now))
  {
    var rs := [LeaseRecord(a, [], None, 10000, Some(ip), U64_MAX),
               LeaseRecord(b, [], None, 10001, Some(ip), U64_MAX),
               LeaseRecord(c, [], None, 10002, Some(ip), U64_MAX)];
    assert Acceptable(rs);
    RestoredQuota(rs, now);
    assert LiveChargedRecords(rs, now, SourceOf(ip)) == {0, 1, 2};
  }

  // ---- The order of the saved file ----

  ghost function HolderOf(m: Claims, port: u16): TokenId
    requires Occupied(m, port)
  {
    var k :| k in m && m[k].port == port;
    k
  }

  /** The records of the claims on ports from `p` up, ordered by port. */
  ghost function RecordsFrom(m: Claims, savedAt: u64, p: u16): seq<LeaseRecord>
    requires p <= PORT_END + 1
    decreases PORT_END + 1 - p, |m|
  {
    if p > PORT_END then []
    else
      (if Occupied(m, p) then [RecordOf(HolderOf(m, p), m[HolderOf(m, p)], savedAt)] else [])
      + RecordsFrom(m, savedAt, p + 1)
  }

  ghost predicate RecordsAscend(rs: seq<LeaseRecord>, p: u16) {
    && (forall i :: 0 <= i < |rs| ==> p <= rs[i].port)
    && (forall i, j :: 0 <= i < j < |rs| ==> rs[i].port < rs[j].port)
  }

  lemma {:induction false} RecordsFromAscend(m: Claims, savedAt: u64, p: u16)
    requires p <= PORT_END + 1
    ensures RecordsAscend(RecordsFrom(m, savedAt, p), p)
    decreases PORT_END + 1 - p
  {
    if p <= PORT_END { RecordsFromAscend(m, savedAt, p + 1); }
  }

  lemma {:induction false} RecordsFromMembers(m: Claims, savedAt: u64, p: u16)
    requires PortsOk(m) && p <= PORT_END + 1
    ensures forall r :: r in RecordsFrom(m, savedAt, p) <==>
              r.tokenId in m && p <= r.port && r == RecordOf(r.tokenId, m[r.tokenId], savedAt)
    decreases PORT_END + 1 - p
  {
    if p <= PORT_END {
      RecordsFromMembers(m, savedAt, p + 1);
    }
  }

  /** The port-ordered records are a snapshot, so a saved file lists every claim once. */
  lemma RecordsFromSnapshot(m: Claims, savedAt: u64)
    requires PortsOk(m)
    ensures IsSnapshot(m, savedAt, RecordsFrom(m, savedAt, PORT_START))
  {
    var rs := RecordsFrom(m, savedAt, PORT_START);
    RecordsFromAscend(m, savedAt, PORT_START);
    RecordsFromMembers(m, savedAt, PORT_START);
    forall i | 0 <= i < |rs| ensures rs[i].tokenId in m && rs[i] == RecordOf(rs[i].tokenId, m[rs[i].tokenId], savedAt) {
      assert rs[i] in rs;
    }
    assert TokensOf(rs) == m.Keys by {
      forall k | k in m ensures k in TokensOf(rs) {
        assert RecordOf(k, m[k], savedAt) in rs;
      }
    }
  }
}

/** The in-memory lease table, updated in place (crates/server/src/lease.rs). */
module LeaseTables {
  import opened Common
  import opened HostAdmission
  import opened Leases
  import opened LeaseInvariants
  import opened LeaseRecords

  datatype RestoreError =
    | TooManyLeases
    | InvalidPort
    | DuplicatePort
    | DuplicateToken
    | DuplicateRecoveryKey
    | TooManyRetired
    | RetiresItself
    | DuplicateRetired
    | LiveAndRetired

  class LeaseTable {
    var leases: Claims
    var nextSession: u64

    ghost function Model(): Table
      reads this
    {
      Table(leases, nextSession)
    }

    constructor ()
      ensures Model() == EMPTY_TABLE
    {
      leases, nextSession := map[], 0;
    }

    constructor CloneOf(other: LeaseTable)
      ensures Model() == other.Model()
    {
      leases, nextSession := other.leases, other.nextSession;
    }

    method CheckIpQuota(ip: IpAddr, alreadyCounted: bool) returns (r: Result<(), LeaseError>)
      ensures r == if QuotaAllows(leases, ip, alreadyCounted) then Ok(()) else Err(TooManyTunnels)
    {
      var source := SourceOf(ip);
      var remaining := leases.Keys;
      var count := 0;
      ghost var counted: set<TokenId> := {};
      while remaining != {}
        invariant remaining <= leases.Keys
        invariant counted == ChargedKeys(leases, source) - remaining && count == |counted|
      {
        var k :| k in remaining;
        remaining := remaining - {k};
        if ChargedTo(leases[k], source) {
          count := count + 1;
          counted := counted + {k};
        }
      }
      assert counted == ChargedKeys(leases, source);
      if alreadyCounted || count < MAX_TUNNELS_PER_IP {
        return Ok(());
      }
      return Err(TooManyTunnels);
    }

    method ReapExpired(now: u64)
      modifies this
      ensures Model() == Reaped(old(Model()), now)
    {
      leases := map k | k in leases && !Expired(leases[k], now) :: leases[k];
    }

    method CandidatePorts(id: TokenId, ip: IpAddr, now: u64) returns (r: Result<seq<u16>, LeaseError>)
      modifies this
      ensures (Model(), r) == Candidates(old(Model()), id, ip, now)
    {
      ReapExpired(now);
      if IsRetired(leases, id) {
        return Err(IdentityRotated);
      }
      if id in leases {
        var lease := leases[id];
        if lease.status.Active? {
          return Err(AlreadyActive);
        }
        var quota := CheckIpQuota(ip, ChargedTo(lease, SourceOf(ip)));
        if quota.Err? {
          return Err(quota.error);
        }
        return Ok([lease.port]);
      }
      var quota := CheckIpQuota(ip, false);
      if quota.Err? {
        return Err(quota.error);
      }
      var ports := FreePorts();
      if ports == [] {
        return Err(PoolExhausted);
      }
      return Ok(ports);
    }

    /** The filter over the port range. */
    method FreePorts() returns (ports: seq<u16>)
      ensures ports == FreePortsFrom(leases, PORT_START)
    {
      var occupied := set k | k in leases :: leases[k].port;
      var first := PORT_START;
      ghost var all := FreePortsFrom(leases, first);
      ports := [];
      for p := first as int to PORT_END as int + 1
        invariant ports + FreePortsFrom(leases, p) == all
      {
        ghost var rest := FreePortsFrom(leases, p + 1);
        assert ports + ([p] + rest) == (ports + [p]) + rest;
        if p !in occupied {
          ports := ports + [p];
        }
      }
      assert ports + [] == ports;
    }

    method ActivateWithRecovery(id: TokenId, recovery: Option<TokenId>, ip: IpAddr, port: u16, now: u64)
      returns (r: Result<u64, LeaseError>)
      modifies this
      ensures (Model(), r) == Activated(old(Model()), id, recovery, ip, port, now)
    {
      var candidates := CandidatePorts(id, ip, now);
      if candidates.Err? {
        return Err(candidates.error);
      }
      if port !in candidates.value {
        return Err(PortNotAvailable);
      }
      if recovery.Some? && exists k | k in leases :: k != id && leases[k].recoveryId == recovery {
        return Err(RecoveryKeyInUse);
      }
      var enrolled := if id in leases then leases[id].recoveryId else None;
      if enrolled.Some? && recovery.Some? && enrolled != recovery {
        return Err(RecoveryKeyMismatch);
      }
      var retired := if id in leases then leases[id].retired else [];
      if nextSession == U64_MAX {
        return Err(SessionIdsExhausted);
      }
      nextSession := nextSession + 1;
      leases := leases[id := Lease(port, Some(ip), retired, if enrolled.Some? then enrolled else recovery,
                                   Active(nextSession))];
      return Ok(nextSession);
    }

    method End(id: TokenId, session: u64, now: u64) returns (ended: bool)
      modifies this
      ensures (Model(), ended) == Ended(old(Model()), id, session, now)
    {
      if id !in leases || leases[id].status != Active(session) {
        return false;
      }
      leases := leases[id := leases[id].(status := Grace(SaturatingAdd(now, GRACE_MS)))];
      return true;
    }

    method RotateClaim(former: TokenId, next: TokenId, now: u64) returns (r: Result<RotationResult, LeaseError>)
      modifies this
      ensures (Model(), r) == Rotated(old(Model()), former, next, now)
    {
      ReapExpired(now);
      if former == next {
        return Err(SameIdentity);
      }
      if next in leases {
        if former in leases[next].retired {
          return Ok(Unchanged(Some(leases[next].port)));
        }
        return Err(NewIdentityOwnsClaim);
      }
      if IsRetired(leases, next) {
        return Err(NewIdentityRetired);
      }
      if IsRetired(leases, former) {
        return Err(OldIdentityRotated);
      }
      if former !in leases {
        return Ok(Unchanged(None));
      }
      var lease := leases[former];
      if lease.status.Active? {
        return Err(StopActiveTunnel);
      }
      if lease.retired != [] {
        return Err(RotatedOnce);
      }
      assert lease.retired + [former] == [former];
      leases := leases - {former};
      leases := leases[next := lease.(retired := lease.retired + [former])];
      return Ok(Transferred(lease.port));
    }

    method RecoverClaim(recovery: TokenId, next: TokenId, ip: IpAddr, now: u64)
      returns (r: Result<RecoveryResult, LeaseError>)
      requires RecoveryOk(leases)
      modifies this
      ensures (Model(), r) == Recovered(old(Model()), recovery, next, ip, now)
    {
      ReapExpired(now);
      if !exists k | k in leases :: leases[k].recoveryId == Some(recovery) {
        return Err(NoMatchingClaim);
      }
      // The scan order of the map decides which match is met first; there is only one.
      var former :| former in leases && leases[former].recoveryId == Some(recovery);
      KeyHolderIsUnique(leases, recovery, former);
      var lease := leases[former];
      if former == next {
        return Ok(RecoveryResult(lease.port, None, false));
      }
      if next in leases {
        return Err(NewIdentityOwnsClaim);
      }
      if IsRetired(leases, next) {
        return Err(NewIdentityRetired);
      }
      var quota := CheckIpQuota(ip, ChargedTo(lease, SourceOf(ip)));
      if quota.Err? {
        return Err(quota.error);
      }
      leases := leases - {former};
      var displaced := if lease.status.Active? then Some((former, lease.status.session)) else None;
      var retired := lease.retired + [former];
      if |retired| > MAX_RETIRED_IDENTITIES {
        retired := retired[1..];
      }
      leases := leases[next := lease.(status := Grace(SaturatingAdd(now, GRACE_MS)), lastIp := Some(ip),
                                      retired := retired)];
      return Ok(RecoveryResult(lease.port, displaced, true));
    }

    method Snapshot(now: u64) returns (rs: seq<LeaseRecord>)
      ensures IsSnapshot(leases, now, rs)
    {
      rs := [];
      var remaining := leases.Keys;
      while remaining != {}
        invariant remaining <= leases.Keys
        invariant IsSnapshot(leases - remaining, now, rs)
      {
        var k :| k in remaining;
        TokensOfAppend(rs, RecordOf(k, leases[k], now));
        assert k !in TokensOf(rs);
        remaining := remaining - {k};
        rs := rs + [RecordOf(k, leases[k], now)];
      }
      assert leases - remaining == leases;
    }

    /** Adds the retired ids of one record to those of the earlier ones. */
    static method AddRetired(record: LeaseRecord, earlier: set<TokenId>) returns (r: Result<set<TokenId>, RestoreError>)
      ensures r.Ok? <==> NoDuplicates(record.retired) && record.tokenId !in record.retired
                         && forall x | x in record.retired :: x !in earlier
      ensures r.Ok? ==> r.value == earlier + set x | x in record.retired
    {
      var retired := earlier;
      for m := 0 to |record.retired|
        invariant retired == earlier + set x | x in record.retired[..m]
        invariant NoDuplicates(record.retired[..m]) && record.tokenId !in record.retired[..m]
        invariant forall x | x in record.retired[..m] :: x !in earlier
      {
        var former := record.retired[m];
        if former == record.tokenId {
          return Err(RetiresItself);
        }
        if former in retired {
          return Err(DuplicateRetired);
        }
        retired := retired + {former};
      }
      assert record.retired[..|record.retired|] == record.retired;
      return Ok(retired);
    }

    static method Restore(records: seq<LeaseRecord>, now: u64) returns (r: Result<LeaseTable, RestoreError>)
      ensures r.Ok? <==> Acceptable(records)
      ensures r.Ok? ==> fresh(r.value) && r.value.Model() == Table(RestoredLeases(records, now), 0)
    {
      if |records| > 1000 {
        return Err(TooManyLeases);
      }
      var table := new LeaseTable();
      var ports: set<u16> := {};
      var tokens: set<TokenId> := {};
      var retired: set<TokenId> := {};
      var recoveryIds: set<TokenId> := {};
      for n := 0 to |records|
        invariant Collected(records[..n], ports, tokens, retired, recoveryIds)
        invariant ApartSoFar(records[..n])
        invariant table.Model() == Table(RestoredLeases(records[..n], now), 0)
      {
        var record := records[n];
        assert records[..n + 1] == records[..n] + [record];
        ghost var apart := ApartFrom(record, ports, tokens, retired, recoveryIds);
        CollectedAppend(records[..n], record, ports, tokens, retired, recoveryIds);
        if !apart || !RecordWellFormed(record) {
          ApartPrefix(records, n + 1);
        }
        if !(PORT_START <= record.port <= PORT_END) {
          return Err(InvalidPort);
        }
        if record.port in ports {
          return Err(DuplicatePort);
        }
        ports := ports + {record.port};
        if record.tokenId in tokens {
          return Err(DuplicateToken);
        }
        tokens := tokens + {record.tokenId};
        if record.recoveryId.Some? {
          if record.recoveryId.value in recoveryIds {
            return Err(DuplicateRecoveryKey);
          }
          recoveryIds := recoveryIds + {record.recoveryId.value};
        }
        if |record.retired| > MAX_RETIRED_IDENTITIES {
          return Err(TooManyRetired);
        }
        var added := AddRetired(record, retired);
        if added.Err? {
          return Err(added.error);
        }
        retired := added.value;
        if now < record.expiresAt {
          table.leases := table.leases[record.tokenId := LeaseOf(record)];
        }
      }
      assert records[..|records|] == records;
      ApartIsAcceptable(records, ports, tokens, retired, recoveryIds);
      if tokens !! retired {
        return Ok(table);
      }
      return Err(LiveAndRetired);
    }
  }

  // ---- The four sets `Restore` fills ----

  lemma TokensOfAppend(rs: seq<LeaseRecord>, r: LeaseRecord)
    ensures TokensOf(rs + [r]) == TokensOf(rs) + {r.tokenId}
  {
    assert (rs + [r])[|rs|] == r;
    forall i | 0 <= i < |rs| ensures rs[i].tokenId in TokensOf(rs + [r]) {
      assert (rs + [r])[i] == rs[i];
    }
  }

  ghost function PortsIn(rs: seq<LeaseRecord>): set<u16> {
    set r | r in rs :: r.port
  }

  ghost function RetiredIn(rs: seq<LeaseRecord>): set<TokenId> {
    set r, x | r in rs && x in r.retired :: x
  }

  ghost function RecoveryIdsIn(rs: seq<LeaseRecord>): set<TokenId> {
    set r | r in rs && r.recoveryId.Some? :: r.recoveryId.value
  }

  ghost predicate Collected(rs: seq<LeaseRecord>, ports: set<u16>, tokens: set<TokenId>, retired: set<TokenId>,
                            recoveryIds: set<TokenId>)
  {
    ports == PortsIn(rs) && tokens == TokensOf(rs) && retired == RetiredIn(rs) && recoveryIds == RecoveryIdsIn(rs)
  }

  ghost predicate ApartFrom(r: LeaseRecord, ports: set<u16>, tokens: set<TokenId>, retired: set<TokenId>,
                            recoveryIds: set<TokenId>)
  {
    && r.port !in ports && r.tokenId !in tokens
    && (r.recoveryId.Some? ==> r.recoveryId.value !in recoveryIds)
    && (forall x | x in r.retired :: x !in retired)
  }

  /** What the loop checks of two records; that no live id is retired is checked after it. */
  ghost predicate RecordsApart(a: LeaseRecord, b: LeaseRecord) {
    && a.port != b.port && a.tokenId != b.tokenId
    && (a.recoveryId.Some? ==> a.recoveryId != b.recoveryId)
    && (forall x | x in a.retired :: x !in b.retired)
  }

  ghost predicate ApartSoFar(rs: seq<LeaseRecord>) {
    && (forall i :: 0 <= i < |rs| ==> RecordWellFormed(rs[i]))
    && (forall i, j :: 0 <= i < j < |rs| ==> RecordsApart(rs[i], rs[j]))
  }

  lemma CollectedAppend(rs: seq<LeaseRecord>, r: LeaseRecord, ports: set<u16>, tokens: set<TokenId>,
                        retired: set<TokenId>, recoveryIds: set<TokenId>)
    requires Collected(rs, ports, tokens, retired, recoveryIds) && ApartSoFar(rs)
    ensures Collected(rs + [r], ports + {r.port}, tokens + {r.tokenId}, retired + (set x | x in r.retired),
                      recoveryIds + (if r.recoveryId.Some? then {r.recoveryId.value} else {}))
    ensures ApartSoFar(rs + [r]) <==> RecordWellFormed(r) && ApartFrom(r, ports, tokens, retired, recoveryIds)
  {
    assert forall q :: q in rs + [r] <==> q in rs || q == r;
    TokensOfAppend(rs, r);
    AppendApart(rs, r, ports, tokens, retired, recoveryIds);
    ApartAppend(rs, r);
  }

  lemma ApartAppend(rs: seq<LeaseRecord>, r: LeaseRecord)
    requires ApartSoFar(rs)
    ensures ApartSoFar(rs + [r]) <==> RecordWellFormed(r) && forall i :: 0 <= i < |rs| ==> RecordsApart(rs[i], r)
  {
    var all := rs + [r];
    assert forall i :: 0 <= i < |rs| ==> all[i] == rs[i];
    if ApartSoFar(all) {
      assert RecordWellFormed(all[|rs|]);
      forall i | 0 <= i < |rs| ensures RecordsApart(rs[i], r) { assert RecordsApart(all[i], all[|rs|]); }
    }
  }

  lemma AppendApart(rs: seq<LeaseRecord>, r: LeaseRecord, ports: set<u16>, tokens: set<TokenId>,
                    retired: set<TokenId>, recoveryIds: set<TokenId>)
    requires Collected(rs, ports, tokens, retired, recoveryIds)
    ensures ApartFrom(r, ports, tokens, retired, recoveryIds) <==> forall i :: 0 <= i < |rs| ==> RecordsApart(rs[i], r)
  {
    if ApartFrom(r, ports, tokens, retired, recoveryIds) {
      forall i | 0 <= i < |rs| ensures RecordsApart(rs[i], r) { assert rs[i] in rs; }
    }
    if forall i :: 0 <= i < |rs| ==> RecordsApart(rs[i], r) {
      forall q | q in rs ensures RecordsApart(q, r) {}
    }
  }

  lemma ApartPrefix(rs: seq<LeaseRecord>, n: nat)
    requires n <= |rs| && !ApartSoFar(rs[..n])
    ensures !Acceptable(rs)
  {
    if Acceptable(rs) {
      forall i, j | 0 <= i < j < n ensures RecordsApart(rs[..n][i], rs[..n][j]) {
        assert RecordsCompatible(rs[i], rs[j]);
      }
    }
  }

  lemma ApartIsAcceptable(rs: seq<LeaseRecord>, ports: set<u16>, tokens: set<TokenId>, retired: set<TokenId>,
                          recoveryIds: set<TokenId>)
    requires Collected(rs, ports, tokens, retired, recoveryIds) && ApartSoFar(rs) && |rs| <= 1000
    ensures Acceptable(rs) <==> tokens !! retired
  {
    if tokens !! retired {
      forall i, j | 0 <= i < |rs| && 0 <= j < |rs| && i != j ensures RecordsCompatible(rs[i], rs[j]) {
        assert rs[i] in rs && rs[j] in rs;
        assert rs[i].tokenId in tokens;
        assert forall x | x in rs[j].retired :: x in retired;
        assert RecordsApart(rs[if i < j then i else j], rs[if i < j then j else i]);
      }
    }
    if Acceptable(rs) {
      forall a, b | a in rs && b in rs ensures a.tokenId !in b.retired {
        var i :| 0 <= i < |rs| && rs[i] == a;
        var j :| 0 <= j < |rs| && rs[j] == b;
        assert i != j ==> RecordsCompatible(rs[i], rs[j]);
      }
    }
  }
}

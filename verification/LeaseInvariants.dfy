/** What every lease table keeps, and that every operation keeps it
    (crates/server/src/lease.rs). */
module LeaseInvariants {
  import opened Common
  import opened HostAdmission
  import opened Leases

  ghost predicate PortsOk(m: Claims) {
    && (forall k | k in m :: PORT_START <= m[k].port <= PORT_END)
    && (forall a, b | a in m && b in m && a != b :: m[a].port != m[b].port)
  }

  ghost predicate RecoveryOk(m: Claims) {
    forall a, b | a in m && b in m && a != b && m[a].recoveryId.Some? :: m[a].recoveryId != m[b].recoveryId
  }

  ghost predicate RetiredListsOk(m: Claims) {
    && (forall k | k in m :: |m[k].retired| <= MAX_RETIRED_IDENTITIES && NoDuplicates(m[k].retired))
    && (forall a, b, x | a in m && b in m && a != b && x in m[a].retired :: x !in m[b].retired)
  }

  /** No live key is also a retired one. */
  ghost predicate LiveNotRetired(m: Claims) {
    forall k | k in m :: !IsRetired(m, k)
  }

  ghost predicate ClaimsOk(m: Claims) {
    PortsOk(m) && RecoveryOk(m) && RetiredListsOk(m) && LiveNotRetired(m)
  }

  ghost predicate SessionsOk(t: Table) {
    && (forall k | k in t.leases && t.leases[k].status.Active? :: 0 < t.leases[k].status.session <= t.nextSession)
    && (forall a, b | a in t.leases && b in t.leases && a != b && t.leases[a].status.Active? ::
          t.leases[a].status != t.leases[b].status)
  }

  /** The invariant of every table, whether grown by operations or read from disk. */
  ghost predicate ValidTable(t: Table) {
    ClaimsOk(t.leases) && SessionsOk(t)
  }

  /** No source is charged with more than two claims. `restore` does not check this. */
  ghost predicate QuotaOk(m: Claims) {
    forall source :: |ChargedKeys(m, source)| <= MAX_TUNNELS_PER_IP
  }

  // ---- Two ways a claim map changes: it loses claims, or it gains one ----

  ghost predicate SubClaims(small: Claims, m: Claims) {
    forall k | k in small :: k in m && small[k] == m[k]
  }

  lemma SubClaimsKeep(small: Claims, m: Claims)
    requires SubClaims(small, m) && ClaimsOk(m)
    ensures ClaimsOk(small)
  {
  }

  lemma SubClaimsQuota(small: Claims, m: Claims)
    requires SubClaims(small, m) && QuotaOk(m)
    ensures QuotaOk(small)
  {
    forall source ensures |ChargedKeys(small, source)| <= MAX_TUNNELS_PER_IP {
      SubsetSize(ChargedKeys(small, source), ChargedKeys(m, source));
    }
  }

  lemma SubsetSize<T>(a: set<T>, b: set<T>)
    requires a <= b
    ensures |a| <= |b|
  {
    if a != {} {
      var x :| x in a;
      SubsetSize(a - {x}, b - {x});
    }
  }

  /** What a claim must bring to join the others. */
  ghost predicate Admissible(m: Claims, id: TokenId, lease: Lease) {
    && id !in m && !IsRetired(m, id) && id !in lease.retired
    && PORT_START <= lease.port <= PORT_END && !Occupied(m, lease.port)
    && (lease.recoveryId.Some? ==> forall k | k in m :: m[k].recoveryId != lease.recoveryId)
    && |lease.retired| <= MAX_RETIRED_IDENTITIES && NoDuplicates(lease.retired)
    && (forall x | x in lease.retired :: x !in m && !IsRetired(m, x))
  }

  lemma InsertKeeps(m: Claims, id: TokenId, lease: Lease)
    requires ClaimsOk(m) && Admissible(m, id, lease)
    ensures ClaimsOk(m[id := lease])
  {
    var n := m[id := lease];
    assert forall k | k in n :: k == id || (k in m && n[k] == m[k]);
    assert LiveNotRetired(n) by {
      forall k, j | k in n && j in n ensures k !in n[j].retired {
        if j in m && j != id && k in m && k != id { assert !IsRetired(m, k); }
      }
    }
    assert RetiredListsOk(n);
  }

  lemma ReplaceKeys(m: Claims, former: TokenId, id: TokenId, lease: Lease, source: HostSource)
    requires id == former || id !in m
    ensures var others := ChargedKeys(m, source) - {former};
            && id !in others
            && ChargedKeys((m - {former})[id := lease], source) == if ChargedTo(lease, source) then others + {id} else others
  {
    var after := (m - {former})[id := lease];
    assert forall k | k in after :: if k == id then after[k] == lease else k in m && k != former && after[k] == m[k];
  }

  /** Replacing a claim moves its charge from its old source to its new one. */
  lemma ReplaceCharges(m: Claims, former: TokenId, id: TokenId, lease: Lease, source: HostSource)
    requires id == former || id !in m
    ensures |ChargedKeys((m - {former})[id := lease], source)| ==
            |ChargedKeys(m, source)|
            - (if former in m && ChargedTo(m[former], source) then 1 else 0)
            + (if ChargedTo(lease, source) then 1 else 0)
  {
    ReplaceKeys(m, former, id, lease, source);
    assert former in ChargedKeys(m, source) <==> former in m && ChargedTo(m[former], source);
  }

  /** Recharging a claim to a source that had room, or already paid for it, keeps the quota. */
  lemma RechargeKeepsQuota(m: Claims, former: TokenId, id: TokenId, lease: Lease, ip: IpAddr)
    requires QuotaOk(m) && (id == former || id !in m) && lease.lastIp == Some(ip)
    requires QuotaAllows(m, ip, former in m && ChargedTo(m[former], SourceOf(ip)))
    ensures QuotaOk((m - {former})[id := lease])
  {
    var after := (m - {former})[id := lease];
    forall source ensures |ChargedKeys(after, source)| <= MAX_TUNNELS_PER_IP {
      ReplaceCharges(m, former, id, lease, source);
    }
  }

  lemma SameIpKeepsQuota(m: Claims, former: TokenId, id: TokenId, lease: Lease)
    requires QuotaOk(m) && former in m && (id == former || id !in m) && lease.lastIp == m[former].lastIp
    ensures QuotaOk((m - {former})[id := lease])
  {
    var after := (m - {former})[id := lease];
    forall source ensures |ChargedKeys(after, source)| <= MAX_TUNNELS_PER_IP {
      ReplaceCharges(m, former, id, lease, source);
    }
  }

  /** A claim that stops, or starts with the next number, keeps the sessions apart. */
  lemma SessionsAfter(t: Table, former: TokenId, id: TokenId, lease: Lease, nextSession: u64)
    requires SessionsOk(t) && t.nextSession <= nextSession
    requires lease.status.Active? ==> t.nextSession < lease.status.session == nextSession
    ensures SessionsOk(Table((t.leases - {former})[id := lease], nextSession))
  {
  }

  // ---- The free ports ----

  lemma {:induction false} FreePortsAre(m: Claims, p: u16)
    requires p <= PORT_END + 1
    ensures forall q :: q in FreePortsFrom(m, p) <==> p <= q <= PORT_END && !Occupied(m, q)
    decreases PORT_END + 1 - p
  {
    if p <= PORT_END {
      FreePortsAre(m, p + 1);
    }
  }

  ghost predicate Ascending(ports: seq<u16>) {
    forall i, j :: 0 <= i < j < |ports| ==> ports[i] < ports[j]
  }

  lemma {:induction false} FreePortsAscend(m: Claims, p: u16)
    requires p <= PORT_END + 1
    ensures Ascending(FreePortsFrom(m, p))
    decreases PORT_END + 1 - p
  {
    if p <= PORT_END {
      FreePortsAscend(m, p + 1);
      FreePortsAre(m, p + 1);
      var rest := FreePortsFrom(m, p + 1);
      forall i | 0 <= i < |rest| ensures p < rest[i] { assert rest[i] in rest; }
    }
  }

  function PortsUsed(m: Claims, keys: set<TokenId>): set<u16>
    requires keys <= m.Keys
  {
    set k | k in keys :: m[k].port
  }

  lemma {:induction false} PortsUsedCount(m: Claims, keys: set<TokenId>)
    requires keys <= m.Keys
    requires forall a, b | a in m && b in m && a != b :: m[a].port != m[b].port
    ensures |PortsUsed(m, keys)| == |keys|
  {
    if keys != {} {
      var k :| k in keys;
      PortsUsedCount(m, keys - {k});
      assert PortsUsed(m, keys) == PortsUsed(m, keys - {k}) + {m[k].port};
    }
  }

  lemma {:induction false} FreePortsCount(m: Claims, p: u16)
    requires p <= PORT_END + 1
    ensures |FreePortsFrom(m, p)| + |set q | q in PortsUsed(m, m.Keys) && p <= q <= PORT_END| == PORT_END + 1 - p
    decreases PORT_END + 1 - p
  {
    var used := set q | q in PortsUsed(m, m.Keys) && p <= q <= PORT_END;
    if p > PORT_END {
      assert used == {};
    } else {
      FreePortsCount(m, p + 1);
      var later := set q | q in PortsUsed(m, m.Keys) && p + 1 <= q <= PORT_END;
      if Occupied(m, p) {
        assert used == later + {p};
      } else {
        assert p !in PortsUsed(m, m.Keys);
        assert used == later;
      }
    }
  }

  lemma PoolCount(m: Claims)
    requires PortsOk(m)
    ensures |m| <= 1000 && |FreePortsFrom(m, PORT_START)| == 1000 - |m|
  {
    FreePortsCount(m, PORT_START);
    PortsUsedCount(m, m.Keys);
    assert (set q | q in PortsUsed(m, m.Keys) && PORT_START <= q <= PORT_END) == PortsUsed(m, m.Keys);
  }

  /** A new identity is offered exactly the unleased ports in ascending order: the pool is
      exhausted at 1000 claims and never before. */
  lemma PoolPartition(m: Claims, id: TokenId, ip: IpAddr)
    requires PortsOk(m)
    ensures |m| <= 1000 && |FreePortsFrom(m, PORT_START)| == 1000 - |m|
    ensures CandidatesIn(m, id, ip) == Err(PoolExhausted) <==>
            |m| == 1000 && id !in m && !IsRetired(m, id) && QuotaAllows(m, ip, false)
    ensures id !in m && CandidatesIn(m, id, ip).Ok? ==>
            var ports := CandidatesIn(m, id, ip).value;
            && |ports| == 1000 - |m|
            && Ascending(ports)
            && (forall q :: q in ports <==> PORT_START <= q <= PORT_END && !Occupied(m, q))
  {
    PoolCount(m);
    FreePortsAre(m, PORT_START);
    FreePortsAscend(m, PORT_START);
  }

  // ---- Every operation keeps the invariant and the quota ----

  lemma ReapedKeeps(t: Table, now: u64)
    requires ValidTable(t)
    ensures ValidTable(Reaped(t, now)) && SubClaims(Reap(t.leases, now), t.leases)
  {
    SubClaimsKeep(Reap(t.leases, now), t.leases);
  }

  /** The claims without `id` admit every claim that takes its place on the same terms. */
  lemma ReplaceKeeps(m: Claims, id: TokenId, lease: Lease)
    requires ClaimsOk(m) && Admissible(m - {id}, id, lease)
    ensures ClaimsOk(m[id := lease])
  {
    SubClaimsKeep(m - {id}, m);
    InsertKeeps(m - {id}, id, lease);
    assert m[id := lease] == (m - {id})[id := lease];
  }

  lemma ActivationAdmits(r: Table, id: TokenId, recovery: Option<TokenId>, ip: IpAddr, port: u16, session: u64)
    requires ClaimsOk(r.leases) && ActivationError(r, id, recovery, ip, port) == None
    ensures Admissible(r.leases - {id}, id, ActivatedLease(r.leases, id, recovery, ip, port, session))
  {
    var m := r.leases;
    if id in m {
      LeavingAdmits(m, id);
    } else {
      FreePortsAre(m, PORT_START);
    }
    assert !IsRetired(m - {id}, id);
  }

  lemma ActivationKeepsClaims(r: Table, id: TokenId, recovery: Option<TokenId>, ip: IpAddr, port: u16, session: u64)
    requires ClaimsOk(r.leases) && ActivationError(r, id, recovery, ip, port) == None
    ensures ClaimsOk(r.leases[id := ActivatedLease(r.leases, id, recovery, ip, port, session)])
  {
    ActivationAdmits(r, id, recovery, ip, port, session);
    ReplaceKeeps(r.leases, id, ActivatedLease(r.leases, id, recovery, ip, port, session));
  }

  lemma ActivatedKeepsClaims(t: Table, id: TokenId, recovery: Option<TokenId>, ip: IpAddr, port: u16, now: u64)
    requires ClaimsOk(t.leases)
    ensures ClaimsOk(Activated(t, id, recovery, ip, port, now).0.leases)
  {
    var r := Reaped(t, now);
    SubClaimsKeep(r.leases, t.leases);
    if ActivationError(r, id, recovery, ip, port) == None {
      ActivationKeepsClaims(r, id, recovery, ip, port, r.nextSession + 1);
    }
  }

  lemma ActivatedKeepsSessions(t: Table, id: TokenId, recovery: Option<TokenId>, ip: IpAddr, port: u16, now: u64)
    requires SessionsOk(t)
    ensures SessionsOk(Activated(t, id, recovery, ip, port, now).0)
  {
    var r := Reaped(t, now);
    if ActivationError(r, id, recovery, ip, port) == None {
      var lease := ActivatedLease(r.leases, id, recovery, ip, port, r.nextSession + 1);
      SessionsAfter(r, id, id, lease, r.nextSession + 1);
      assert r.leases[id := lease] == (r.leases - {id})[id := lease];
    }
  }

  lemma ActivatedKeepsQuota(t: Table, id: TokenId, recovery: Option<TokenId>, ip: IpAddr, port: u16, now: u64)
    requires QuotaOk(t.leases)
    ensures QuotaOk(Activated(t, id, recovery, ip, port, now).0.leases)
  {
    var r := Reaped(t, now);
    var m := r.leases;
    SubClaimsQuota(m, t.leases);
    if ActivationError(r, id, recovery, ip, port) == None {
      var lease := ActivatedLease(m, id, recovery, ip, port, r.nextSession + 1);
      RechargeKeepsQuota(m, id, id, lease, ip);
      assert m[id := lease] == (m - {id})[id := lease];
    }
  }

  lemma EndedKeeps(t: Table, id: TokenId, session: u64, now: u64)
    requires ValidTable(t)
    ensures ValidTable(Ended(t, id, session, now).0)
  {
    if ActiveAt(t.leases, id, session) {
      var lease := t.leases[id].(status := Grace(SaturatingAdd(now, GRACE_MS)));
      LeavingAdmits(t.leases, id);
      ReplaceKeeps(t.leases, id, lease);
      SessionsAfter(t, id, id, lease, t.nextSession);
      assert t.leases[id := lease] == (t.leases - {id})[id := lease];
    }
  }

  lemma EndedKeepsQuota(t: Table, id: TokenId, session: u64, now: u64)
    requires QuotaOk(t.leases)
    ensures QuotaOk(Ended(t, id, session, now).0.leases)
  {
    if ActiveAt(t.leases, id, session) {
      var lease := t.leases[id].(status := Grace(SaturatingAdd(now, GRACE_MS)));
      SameIpKeepsQuota(t.leases, id, id, lease);
      assert t.leases[id := lease] == (t.leases - {id})[id := lease];
    }
  }

  /** A claim may return to the others on its own terms. */
  lemma LeavingAdmits(m: Claims, id: TokenId)
    requires ClaimsOk(m) && id in m
    ensures Admissible(m - {id}, id, m[id])
  {
    assert !IsRetired(m, id);
    forall x | x in m[id].retired ensures x !in m && !IsRetired(m - {id}, x) {
      assert IsRetired(m, x);
    }
  }

  /** Moving a claim to a fresh key, with its old key appended to the retired list. */
  lemma MovedKeeps(m: Claims, former: TokenId, next: TokenId, lease: Lease)
    requires ClaimsOk(m) && former in m && next !in m && !IsRetired(m, next)
    requires lease.port == m[former].port && lease.recoveryId == m[former].recoveryId
    requires lease.retired == Retire(m[former].retired, former)
    ensures ClaimsOk((m - {former})[next := lease])
  {
    var rest := m - {former};
    SubClaimsKeep(rest, m);
    LeavingAdmits(m, former);
    forall x | x in lease.retired ensures x == former || x in m[former].retired {}
    assert NoDuplicates(lease.retired);
    assert !IsRetired(m, former);
    assert Admissible(rest, next, lease);
    InsertKeeps(rest, next, lease);
  }

  lemma RotatedKeeps(t: Table, former: TokenId, next: TokenId, now: u64)
    requires ValidTable(t)
    ensures ValidTable(Rotated(t, former, next, now).0)
  {
    ReapedKeeps(t, now);
    var m := Reap(t.leases, now);
    if RotationError(m, former, next) == None && next !in m && former in m {
      var lease := m[former].(retired := [former]);
      MovedKeeps(m, former, next, lease);
      SessionsAfter(Reaped(t, now), former, next, lease, t.nextSession);
    }
  }

  lemma RotatedKeepsQuota(t: Table, former: TokenId, next: TokenId, now: u64)
    requires QuotaOk(t.leases)
    ensures QuotaOk(Rotated(t, former, next, now).0.leases)
  {
    var m := Reap(t.leases, now);
    SubClaimsQuota(m, t.leases);
    if RotationError(m, former, next) == None && next !in m && former in m {
      SameIpKeepsQuota(m, former, next, m[former].(retired := [former]));
    }
  }

  lemma RecoveredKeeps(t: Table, recovery: TokenId, next: TokenId, ip: IpAddr, now: u64)
    requires ValidTable(t)
    ensures ValidTable(Recovered(t, recovery, next, ip, now).0)
  {
    ReapedKeeps(t, now);
    var m := Reap(t.leases, now);
    var holder := KeyHolder(m, recovery);
    if holder.Some? && RecoveryError(m, holder.value, next, ip) == None && holder.value != next {
      var lease := RecoveredLease(m[holder.value], holder.value, ip, now);
      MovedKeeps(m, holder.value, next, lease);
      SessionsAfter(Reaped(t, now), holder.value, next, lease, t.nextSession);
    }
  }

  lemma RecoveredKeepsQuota(t: Table, recovery: TokenId, next: TokenId, ip: IpAddr, now: u64)
    requires QuotaOk(t.leases)
    ensures QuotaOk(Recovered(t, recovery, next, ip, now).0.leases)
  {
    var m := Reap(t.leases, now);
    SubClaimsQuota(m, t.leases);
    var holder := KeyHolder(m, recovery);
    if holder.Some? && RecoveryError(m, holder.value, next, ip) == None && holder.value != next {
      RechargeKeepsQuota(m, holder.value, next, RecoveredLease(m[holder.value], holder.value, ip, now), ip);
    }
  }

  /** The search for a recovery key finds one claim, whatever order the map is scanned in. */
  lemma KeyHolderIsUnique(m: Claims, recovery: TokenId, k: TokenId)
    requires RecoveryOk(m) && k in m && m[k].recoveryId == Some(recovery)
    ensures KeyHolder(m, recovery) == Some(k)
  {
  }

  /** Before its grace is over, a returning holder is offered exactly its own port; another source
      only if that source has room. */
  lemma GraceHolderReturns(t: Table, id: TokenId, ip: IpAddr, now: u64)
    requires LiveNotRetired(t.leases) && id in t.leases && t.leases[id].status.Grace? && now < t.leases[id].status.expiresAt
    ensures Candidates(t, id, ip, now).1 ==
              if QuotaAllows(Reap(t.leases, now), ip, ChargedTo(t.leases[id], SourceOf(ip))) then Ok([t.leases[id].port])
              else Err(TooManyTunnels)
    ensures ChargedTo(t.leases[id], SourceOf(ip)) ==> Candidates(t, id, ip, now).1 == Ok([t.leases[id].port])
  {
    assert !IsRetired(t.leases, id);
  }

  /** A session that ends at `now` keeps its port for exactly 300 s, unless the clock saturates. */
  lemma GraceWindow(t: Table, id: TokenId, session: u64, ip: IpAddr, now: u64, later: u64)
    requires ValidTable(t) && ActiveAt(t.leases, id, session) && ChargedTo(t.leases[id], SourceOf(ip))
    requires now + GRACE_MS <= U64_MAX
    ensures var ended := Ended(t, id, session, now).0;
            && (id in Reap(ended.leases, later) <==> later < now + 300_000)
            && (later < now + 300_000 ==> Candidates(ended, id, ip, later).1 == Ok([t.leases[id].port]))
  {
    EndedKeeps(t, id, session, now);
    if later < now + 300_000 {
      GraceHolderReturns(Ended(t, id, session, now).0, id, ip, later);
    }
  }
}

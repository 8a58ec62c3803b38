/** The lease table as a value: what each operation of `LeaseTable` does to the claims
    (crates/server/src/lease.rs). Class `LeaseTable` is proved against these functions. */
module Leases {
  import opened Common
  import opened HostAdmission

  const PORT_START: u16 := 10000
  const PORT_END: u16 := 10999
  const MAX_TUNNELS_PER_IP: nat := 2
  const GRACE_MS: u64 := 300_000
  const MAX_RETIRED_IDENTITIES: nat := 8

  /** A SHA-256 fingerprint of a 32-byte secret. */
  datatype TokenId = TokenId(bytes: Token)

  datatype LeaseStatus = Active(session: u64) | Grace(expiresAt: u64)

  datatype Lease = Lease(
    port: u16,
    lastIp: Option<IpAddr>,
    retired: seq<TokenId>,
    recoveryId: Option<TokenId>,
    status: LeaseStatus)

  type Claims = map<TokenId, Lease>

  datatype Table = Table(leases: Claims, nextSession: u64)

  const EMPTY_TABLE := Table(map[], 0)

  datatype LeaseError =
    | IdentityRotated
    | AlreadyActive
    | TooManyTunnels
    | PoolExhausted
    | PortNotAvailable
    | RecoveryKeyInUse
    | RecoveryKeyMismatch
    | SessionIdsExhausted
    | SameIdentity
    | NewIdentityOwnsClaim
    | NewIdentityRetired
    | OldIdentityRotated
    | StopActiveTunnel
    | RotatedOnce
    | NoMatchingClaim

  datatype RotationResult = Transferred(port: u16) | Unchanged(held: Option<u16>)

  datatype RecoveryResult = RecoveryResult(port: u16, displaced: Option<(TokenId, u64)>, changed: bool)

  // ---- Reaping and queries ----

  predicate Expired(lease: Lease, now: u64) {
    lease.status.Grace? && lease.status.expiresAt <= now
  }

  function Reap(m: Claims, now: u64): Claims {
    map k | k in m && !Expired(m[k], now) :: m[k]
  }

  function Reaped(t: Table, now: u64): Table {
    t.(leases := Reap(t.leases, now))
  }

  predicate IsRetired(m: Claims, id: TokenId) {
    exists k | k in m :: id in m[k].retired
  }

  predicate ChargedTo(lease: Lease, source: HostSource) {
    lease.lastIp.Some? && SourceOf(lease.lastIp.value) == source
  }

  function ChargedKeys(m: Claims, source: HostSource): set<TokenId> {
    set k | k in m && ChargedTo(m[k], source)
  }

  predicate QuotaAllows(m: Claims, ip: IpAddr, alreadyCounted: bool) {
    alreadyCounted || |ChargedKeys(m, SourceOf(ip))| < MAX_TUNNELS_PER_IP
  }

  predicate Occupied(m: Claims, port: u16) {
    exists k | k in m :: m[k].port == port
  }

  /** The unoccupied ports from `p` up, in ascending order. */
  // `|m|` stands in the measure so that the verifier does not unfold the scan port by port.
  function FreePortsFrom(m: Claims, p: u16): seq<u16>
    requires p <= PORT_END + 1
    decreases PORT_END + 1 - p, |m|
  {
    if p > PORT_END then []
    else (if Occupied(m, p) then [] else [p]) + FreePortsFrom(m, p + 1)
  }

  // ---- Operations ----

  /** The ports `id` may take, in the table that is already reaped. */
  function CandidatesIn(m: Claims, id: TokenId, ip: IpAddr): Result<seq<u16>, LeaseError> {
    if IsRetired(m, id) then Err(IdentityRotated)
    else if id in m then
      if m[id].status.Active? then Err(AlreadyActive)
      else if !QuotaAllows(m, ip, ChargedTo(m[id], SourceOf(ip))) then Err(TooManyTunnels)
      else Ok([m[id].port])
    else if !QuotaAllows(m, ip, false) then Err(TooManyTunnels)
    else
      var ports := FreePortsFrom(m, PORT_START);
      if ports == [] then Err(PoolExhausted) else Ok(ports)
  }

  function Candidates(t: Table, id: TokenId, ip: IpAddr, now: u64): (Table, Result<seq<u16>, LeaseError>) {
    (Reaped(t, now), CandidatesIn(Reap(t.leases, now), id, ip))
  }

  function EnrolledKey(m: Claims, id: TokenId): Option<TokenId> {
    if id in m then m[id].recoveryId else None
  }

  function RetiredList(m: Claims, id: TokenId): seq<TokenId> {
    if id in m then m[id].retired else []
  }

  predicate KeyOwnedByOther(m: Claims, id: TokenId, recovery: Option<TokenId>) {
    recovery.Some? && exists k | k in m :: k != id && m[k].recoveryId == recovery
  }

  function ActivationError(t: Table, id: TokenId, recovery: Option<TokenId>, ip: IpAddr, port: u16): Option<LeaseError> {
    var candidates := CandidatesIn(t.leases, id, ip);
    if candidates.Err? then Some(candidates.error)
    else if port !in candidates.value then Some(PortNotAvailable)
    else if KeyOwnedByOther(t.leases, id, recovery) then Some(RecoveryKeyInUse)
    else if recovery.Some? && EnrolledKey(t.leases, id).Some? && EnrolledKey(t.leases, id) != recovery then
      Some(RecoveryKeyMismatch)
    else if t.nextSession == U64_MAX then Some(SessionIdsExhausted)
    else None
  }

  function ActivatedLease(m: Claims, id: TokenId, recovery: Option<TokenId>, ip: IpAddr, port: u16, session: u64): Lease {
    var enrolled := EnrolledKey(m, id);
    Lease(port, Some(ip), RetiredList(m, id), if enrolled.Some? then enrolled else recovery, Active(session))
  }

  function Activated(t: Table, id: TokenId, recovery: Option<TokenId>, ip: IpAddr, port: u16, now: u64)
    : (Table, Result<u64, LeaseError>)
  {
    var r := Reaped(t, now);
    var error := ActivationError(r, id, recovery, ip, port);
    if error.Some? then (r, Err(error.value))
    else
      var session := r.nextSession + 1;
      (Table(r.leases[id := ActivatedLease(r.leases, id, recovery, ip, port, session)], session), Ok(session))
  }

  predicate ActiveAt(m: Claims, id: TokenId, session: u64) {
    id in m && m[id].status == Active(session)
  }

  function Ended(t: Table, id: TokenId, session: u64, now: u64): (Table, bool) {
    if ActiveAt(t.leases, id, session) then
      (t.(leases := t.leases[id := t.leases[id].(status := Grace(SaturatingAdd(now, GRACE_MS)))]), true)
    else (t, false)
  }

  function RotationError(m: Claims, former: TokenId, next: TokenId): Option<LeaseError> {
    if former == next then Some(SameIdentity)
    else if next in m then if former in m[next].retired then None else Some(NewIdentityOwnsClaim)
    else if IsRetired(m, next) then Some(NewIdentityRetired)
    else if IsRetired(m, former) then Some(OldIdentityRotated)
    else if former !in m then None
    else if m[former].status.Active? then Some(StopActiveTunnel)
    else if m[former].retired != [] then Some(RotatedOnce)
    else None
  }

  function Rotated(t: Table, former: TokenId, next: TokenId, now: u64): (Table, Result<RotationResult, LeaseError>) {
    var r := Reaped(t, now);
    var m := r.leases;
    var error := RotationError(m, former, next);
    if error.Some? then (r, Err(error.value))
    else if next in m then (r, Ok(Unchanged(Some(m[next].port))))
    else if former !in m then (r, Ok(Unchanged(None)))
    else (r.(leases := (m - {former})[next := m[former].(retired := [former])]), Ok(Transferred(m[former].port)))
  }

  /** The claim a recovery key opens; any one of them if several matched. */
  ghost function KeyHolder(m: Claims, recovery: TokenId): Option<TokenId> {
    if exists k :: k in m && m[k].recoveryId == Some(recovery) then
      var k :| k in m && m[k].recoveryId == Some(recovery);
      Some(k)
    else None
  }

  /** Appends a key to a retired list, dropping the oldest one beyond eight. */
  function Retire(retired: seq<TokenId>, former: TokenId): seq<TokenId> {
    if |retired| + 1 > MAX_RETIRED_IDENTITIES then (retired + [former])[1..] else retired + [former]
  }

  function RecoveryError(m: Claims, former: TokenId, next: TokenId, ip: IpAddr): Option<LeaseError>
    requires former in m
  {
    if former == next then None
    else if next in m then Some(NewIdentityOwnsClaim)
    else if IsRetired(m, next) then Some(NewIdentityRetired)
    else if !QuotaAllows(m, ip, ChargedTo(m[former], SourceOf(ip))) then Some(TooManyTunnels)
    else None
  }

  function RecoveredLease(lease: Lease, former: TokenId, ip: IpAddr, now: u64): Lease {
    lease.(status := Grace(SaturatingAdd(now, GRACE_MS)), lastIp := Some(ip), retired := Retire(lease.retired, former))
  }

  /** `recover_claim` when the search for the recovery key met the claim `former` first. */
  function RecoveredFrom(r: Table, former: TokenId, next: TokenId, ip: IpAddr, now: u64)
    : (Table, Result<RecoveryResult, LeaseError>)
    requires former in r.leases
  {
    var m := r.leases;
    var error := RecoveryError(m, former, next, ip);
    if error.Some? then (r, Err(error.value))
    else if former == next then (r, Ok(RecoveryResult(m[former].port, None, false)))
    else
      var displaced := if m[former].status.Active? then Some((former, m[former].status.session)) else None;
      (r.(leases := (m - {former})[next := RecoveredLease(m[former], former, ip, now)]),
       Ok(RecoveryResult(m[former].port, displaced, true)))
  }

  ghost function Recovered(t: Table, recovery: TokenId, next: TokenId, ip: IpAddr, now: u64)
    : (Table, Result<RecoveryResult, LeaseError>)
  {
    var r := Reaped(t, now);
    match KeyHolder(r.leases, recovery)
    case None => (r, Err(NoMatchingClaim))
    case Some(former) => RecoveredFrom(r, former, next, ip, now)
  }
}

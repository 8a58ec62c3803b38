/** The life of one port claim through whole runs of the lease table: who holds it, on which port,
    and which former keys it remembers (crates/server/src/lease.rs). */
module ClaimHistory {
  import opened Common
  import opened HostAdmission
  import opened Leases
  import opened LeaseInvariants
  import opened LeaseRecords

  datatype Op =
    | Offering(id: TokenId, ip: IpAddr, now: u64)
    | Activating(id: TokenId, recovery: Option<TokenId>, ip: IpAddr, port: u16, now: u64)
    | Stopping(id: TokenId, session: u64, now: u64)
    | Moving(former: TokenId, next: TokenId, now: u64)
    | Recovering(key: TokenId, next: TokenId, ip: IpAddr, now: u64)
    | Reaping(now: u64)
    | Restoring(savedAt: u64, now: u64)

  ghost function Apply(t: Table, op: Op): Table {
    match op
    case Offering(id, ip, now) => Candidates(t, id, ip, now).0
    case Activating(id, recovery, ip, port, now) => Activated(t, id, recovery, ip, port, now).0
    case Stopping(id, session, now) => Ended(t, id, session, now).0
    case Moving(former, next, now) => Rotated(t, former, next, now).0
    case Recovering(key, next, ip, now) => Recovered(t, key, next, ip, now).0
    case Reaping(now) => Reaped(t, now)
    case Restoring(savedAt, now) => Table(Demoted(t.leases, savedAt, now), 0)
  }

  ghost function ApplyAll(t: Table, ops: seq<Op>): Table {
    if ops == [] then t else Apply(ApplyAll(t, ops[..|ops| - 1]), ops[|ops| - 1])
  }

  lemma ApplyKeepsValid(t: Table, op: Op)
    requires ValidTable(t)
    ensures ValidTable(Apply(t, op))
  {
    match op
    case Offering(id, ip, now) => ReapedKeeps(t, now);
    case Activating(id, recovery, ip, port, now) =>
      ActivatedKeepsClaims(t, id, recovery, ip, port, now);
      ActivatedKeepsSessions(t, id, recovery, ip, port, now);
    case Stopping(id, session, now) => EndedKeeps(t, id, session, now);
    case Moving(former, next, now) => RotatedKeeps(t, former, next, now);
    case Recovering(key, next, ip, now) => RecoveredKeeps(t, key, next, ip, now);
    case Reaping(now) => ReapedKeeps(t, now);
    case Restoring(savedAt, now) => DemotedKeeps(t, savedAt, now);
  }

  lemma DemotedKeeps(t: Table, savedAt: u64, now: u64)
    requires ValidTable(t)
    ensures ValidTable(Table(Demoted(t.leases, savedAt, now), 0))
  {
    var m, d := t.leases, Demoted(t.leases, savedAt, now);
    assert forall k | k in d :: k in m && d[k] == m[k].(status := d[k].status);
    assert LiveNotRetired(d) by {
      forall a, b | a in d && b in d ensures a !in d[b].retired {
        assert !IsRetired(m, a);
      }
    }
  }

  // ---- Following a claim ----

  /** When a claim is moved by `op`, the claim that moves and where it goes. */
  ghost function Transfer(t: Table, op: Op): Option<(TokenId, TokenId)> {
    match op
    case Moving(former, next, now) =>
      if Rotated(t, former, next, now).1.Ok? && Rotated(t, former, next, now).1.value.Transferred? then Some((former, next))
      else None
    case Recovering(key, next, ip, now) =>
      var result := Recovered(t, key, next, ip, now).1;
      if result.Ok? && result.value.changed then Some((KeyHolder(Reap(t.leases, now), key).value, next)) else None
    case _ => None
  }

  /** A claim is given up by `op` only if its grace has run out by the time of `op`, or, at a
      restart, if what was saved of it has lapsed. */
  ghost predicate Lapses(lease: Lease, op: Op) {
    match op
    case Stopping(_, _, _) => false
    case Restoring(savedAt, now) => ExpiryOf(lease, savedAt) <= now
    case _ => Expired(lease, op.now)
  }

  /** The key that holds, after `op`, the claim that `k` held before it. */
  ghost function Follow(t: Table, op: Op, k: TokenId): Option<TokenId>
    requires k in t.leases
  {
    if Lapses(t.leases[k], op) then None
    else if Transfer(t, op).Some? && Transfer(t, op).value.0 == k then Some(Transfer(t, op).value.1)
    else Some(k)
  }

  /** What may not change while a claim lives: its port, and its recovery key once enrolled. */
  ghost predicate SameClaim(a: Lease, b: Lease) {
    a.port == b.port && (a.recoveryId.Some? ==> a.recoveryId == b.recoveryId)
  }

  /** Everything of a claim but its address and status. */
  ghost predicate SameKeys(a: Lease, b: Lease) {
    a.port == b.port && a.recoveryId == b.recoveryId && a.retired == b.retired
  }

  ghost predicate Activates(t: Table, op: Op) {
    op.Activating? && Activated(t, op.id, op.recovery, op.ip, op.port, op.now).1.Ok?
  }

  /** A step that neither moves nor activates a claim only drops the lapsed ones. */
  lemma QuietShape(t: Table, op: Op)
    requires Transfer(t, op).None? && !Activates(t, op)
    ensures var m := Apply(t, op).leases;
            && (forall k :: k in m <==> k in t.leases && !Lapses(t.leases[k], op))
            && (forall k | k in m :: SameKeys(t.leases[k], m[k]))
  {
  }

  lemma TransferShape(t: Table, op: Op)
    requires Transfer(t, op).Some?
    ensures var (former, next) := Transfer(t, op).value; var m := Reap(t.leases, op.now);
            && former in m && next !in m && !IsRetired(m, next)
            && Apply(t, op).leases.Keys == m.Keys - {former} + {next}
            && (forall k | k in m && k != former :: Apply(t, op).leases[k] == m[k])
            && Apply(t, op).leases[next].port == m[former].port
            && Apply(t, op).leases[next].recoveryId == m[former].recoveryId
            && Apply(t, op).leases[next].retired == Retire(m[former].retired, former)
            && if op.Moving? then op.former == former && op.next == next && m[former].status.Grace? && m[former].retired == []
               else op.Recovering? && op.next == next && m[former].recoveryId == Some(op.key)
  {
  }

  lemma ActivateShape(t: Table, op: Op)
    requires Activates(t, op)
    ensures var m := Reap(t.leases, op.now); var id := op.id;
            && Apply(t, op).leases.Keys == m.Keys + {id}
            && (forall k | k in m && k != id :: Apply(t, op).leases[k] == m[k])
            && Apply(t, op).leases[id].retired == RetiredList(m, id)
            && (id in m ==> SameClaim(m[id], Apply(t, op).leases[id]))
  {
  }

  /** One step: a claim that has not lapsed is still there, on its port and with its recovery key.
      It changes hands only by a rotation that the holder's own token asks for while it is in
      grace, or by a recovery with its enrolled key. */
  lemma FollowStep(t: Table, op: Op, k: TokenId)
    requires k in t.leases && Follow(t, op, k).Some?
    ensures var j := Follow(t, op, k).value; var t' := Apply(t, op);
            && j in t'.leases && SameClaim(t.leases[k], t'.leases[j])
            && (j != k ==>
                  || (op.Moving? && op.former == k && op.next == j && t.leases[k].status.Grace? && t.leases[k].retired == [])
                  || (op.Recovering? && op.next == j && t.leases[k].recoveryId == Some(op.key)))
  {
    if Transfer(t, op).Some? {
      TransferShape(t, op);
    } else if Activates(t, op) {
      ActivateShape(t, op);
    } else {
      QuietShape(t, op);
    }
  }

  /** Nobody else is offered, or holds, the port of a live claim. */
  lemma PortIsExclusive(t: Table, k: TokenId, other: TokenId, ip: IpAddr, now: u64)
    requires ValidTable(t) && k in t.leases && other != k && !Expired(t.leases[k], now)
    ensures other in t.leases ==> t.leases[other].port != t.leases[k].port
    ensures Candidates(t, other, ip, now).1.Ok? ==> t.leases[k].port !in Candidates(t, other, ip, now).1.value
  {
    var m := Reap(t.leases, now);
    assert k in m && m[k] == t.leases[k];
    assert Occupied(m, t.leases[k].port);
    FreePortsAre(m, PORT_START);
  }

  /** An Active claim is lost at no step but a restart that comes too late. */
  lemma ActiveNeverLapses(t: Table, op: Op, k: TokenId)
    requires k in t.leases && t.leases[k].status.Active?
    ensures Follow(t, op, k).None? <==> op.Restoring? && SaturatingAdd(op.savedAt, GRACE_MS) <= op.now
  {
  }

  ghost function FollowAll(t: Table, ops: seq<Op>, k: TokenId): Option<TokenId>
    requires ValidTable(t) && k in t.leases
    ensures FollowAll(t, ops, k).Some? ==>
              FollowAll(t, ops, k).value in ApplyAll(t, ops).leases && ValidTable(ApplyAll(t, ops))
              && SameClaim(t.leases[k], ApplyAll(t, ops).leases[FollowAll(t, ops, k).value])
  {
    if ops == [] then Some(k)
    else
      var n := |ops| - 1;
      var holder := FollowAll(t, ops[..n], k);
      if holder.None? then None
      else
        var before := ApplyAll(t, ops[..n]);
        var after := Follow(before, ops[n], holder.value);
        assert after.Some? ==> after.value in Apply(before, ops[n]).leases && ValidTable(Apply(before, ops[n]))
                               && SameClaim(t.leases[k], Apply(before, ops[n]).leases[after.value]) by {
          if after.Some? {
            FollowStep(before, ops[n], holder.value);
            ApplyKeepsValid(before, ops[n]);
          }
        }
        after
  }

  lemma {:induction false} ApplyAllKeepsValid(t: Table, ops: seq<Op>)
    requires ValidTable(t)
    ensures ValidTable(ApplyAll(t, ops))
  {
    if ops != [] {
      ApplyAllKeepsValid(t, ops[..|ops| - 1]);
      ApplyKeepsValid(ApplyAll(t, ops[..|ops| - 1]), ops[|ops| - 1]);
    }
  }

  /** Port exclusivity over whole runs: as long as no step finds the claim lapsed, it is on its port
      at the end, and every other claim is on another one. */
  lemma PortHeldThroughRun(t: Table, ops: seq<Op>, k: TokenId, other: TokenId)
    requires ValidTable(t) && k in t.leases && FollowAll(t, ops, k).Some?
    requires other in ApplyAll(t, ops).leases && other != FollowAll(t, ops, k).value
    ensures ApplyAll(t, ops).leases[FollowAll(t, ops, k).value].port == t.leases[k].port
    ensures ApplyAll(t, ops).leases[other].port != t.leases[k].port
  {
  }

  // ---- Former keys ----

  /** All former keys of each live claim, oldest first. */
  type History = map<TokenId, seq<TokenId>>

  /** How the former keys grow, said without the retired lists: a new claim has none, a moved claim
      gains the key it left. */
  ghost function Recorded(t: Table, h: History, op: Op): History
    requires h.Keys == t.leases.Keys
  {
    var t' := Apply(t, op);
    var transfer := Transfer(t, op);
    map k | k in t'.leases ::
      if transfer.Some? && transfer.value.1 == k && transfer.value.0 in h then h[transfer.value.0] + [transfer.value.0]
      else if k in h && !Lapses(t.leases[k], op) then h[k]
      else []
  }

  function LastEight(s: seq<TokenId>): seq<TokenId> {
    if |s| <= MAX_RETIRED_IDENTITIES then s else s[|s| - MAX_RETIRED_IDENTITIES..]
  }

  ghost predicate Remembers(t: Table, h: History) {
    h.Keys == t.leases.Keys && forall k | k in h :: t.leases[k].retired == LastEight(h[k])
  }

  lemma RetireIsLastEight(s: seq<TokenId>, x: TokenId)
    ensures Retire(LastEight(s), x) == LastEight(s + [x])
    ensures LastEight(s) == [] <==> s == []
  {
  }

  lemma TransferRemembers(t: Table, h: History, op: Op)
    requires Remembers(t, h) && Transfer(t, op).Some?
    ensures Remembers(Apply(t, op), Recorded(t, h, op))
  {
    TransferShape(t, op);
    var (former, next) := Transfer(t, op).value;
    RetireIsLastEight(h[former], former);
  }

  lemma ActivationRemembers(t: Table, h: History, op: Op)
    requires Remembers(t, h) && Activates(t, op)
    ensures Remembers(Apply(t, op), Recorded(t, h, op))
  {
    ActivateShape(t, op);
  }

  lemma QuietRemembers(t: Table, h: History, op: Op)
    requires Remembers(t, h) && Transfer(t, op).None? && !Activates(t, op)
    ensures Remembers(Apply(t, op), Recorded(t, h, op))
  {
    QuietShape(t, op);
  }

  lemma StepRemembers(t: Table, h: History, op: Op)
    requires Remembers(t, h)
    ensures Remembers(Apply(t, op), Recorded(t, h, op))
  {
    if Transfer(t, op).Some? {
      TransferRemembers(t, h, op);
    } else if Activates(t, op) {
      ActivationRemembers(t, h, op);
    } else {
      QuietRemembers(t, h, op);
    }
  }

  /** A claim that keeps its holder keeps its former keys; one that moves adds the key it left. */
  lemma RecordedStep(t: Table, h: History, op: Op, former: TokenId)
    requires h.Keys == t.leases.Keys && former in h && Follow(t, op, former).Some?
    ensures var next := Follow(t, op, former).value;
            && next in Recorded(t, h, op)
            && Recorded(t, h, op)[next] == if next == former then h[former] else h[former] + [former]
  {
    FollowStep(t, op, former);
    if Transfer(t, op).Some? {
      TransferShape(t, op);
    }
  }

  ghost function RecordedAll(t: Table, h: History, ops: seq<Op>): History
    requires h.Keys == t.leases.Keys
    ensures RecordedAll(t, h, ops).Keys == ApplyAll(t, ops).leases.Keys
  {
    if ops == [] then h
    else Recorded(ApplyAll(t, ops[..|ops| - 1]), RecordedAll(t, h, ops[..|ops| - 1]), ops[|ops| - 1])
  }

  /** The retirement window: through every run of activations, rotations, recoveries and restarts,
      the retired list of every claim is exactly its last eight former keys, in order. */
  lemma {:induction false} RunRemembers(t: Table, h: History, ops: seq<Op>)
    requires ValidTable(t) && Remembers(t, h)
    ensures Remembers(ApplyAll(t, ops), RecordedAll(t, h, ops))
  {
    if ops != [] {
      var n := |ops| - 1;
      RunRemembers(t, h, ops[..n]);
      ApplyAllKeepsValid(t, ops[..n]);
      StepRemembers(ApplyAll(t, ops[..n]), RecordedAll(t, h, ops[..n]), ops[n]);
    }
  }

  lemma RetiredIsBarred(t: Table, id: TokenId, ip: IpAddr, now: u64, former: TokenId, key: TokenId)
    requires IsRetired(Reap(t.leases, now), id) && id !in Reap(t.leases, now)
    ensures Candidates(t, id, ip, now).1 == Err(IdentityRotated)
    ensures Rotated(t, former, id, now).1.Err?
    ensures Recovered(t, key, id, ip, now).1.Err?
  {
  }

  /** One of the last eight former keys of a live claim can neither register nor receive a claim. */
  lemma FormerKeyIsBarred(t: Table, h: History, k: TokenId, i: nat, ip: IpAddr, now: u64, former: TokenId, key: TokenId)
    requires LiveNotRetired(t.leases) && Remembers(t, h) && k in h && !Expired(t.leases[k], now)
    requires i < |h[k]| <= i + MAX_RETIRED_IDENTITIES
    ensures Candidates(t, h[k][i], ip, now).1 == Err(IdentityRotated)
    ensures Rotated(t, former, h[k][i], now).1.Err?
    ensures Recovered(t, key, h[k][i], ip, now).1.Err?
  {
    var m := Reap(t.leases, now);
    var id := h[k][i];
    assert id in m[k].retired;
    assert IsRetired(m, id);
    assert IsRetired(t.leases, id) by { assert k in t.leases; }
    RetiredIsBarred(t, id, ip, now, former, key);
  }

  /** The exact reach of retirement: an identity is refused as rotated if and only if it is among
      the last eight former keys of a claim that has not lapsed. */
  lemma RefusedAsRotated(t: Table, h: History, id: TokenId, ip: IpAddr, now: u64)
    requires Remembers(t, h)
    ensures Candidates(t, id, ip, now).1 == Err(IdentityRotated) <==>
            exists k :: k in h && !Expired(t.leases[k], now) && id in LastEight(h[k])
  {
    var m := Reap(t.leases, now);
    if IsRetired(m, id) {
      var k :| k in m && id in m[k].retired;
      assert k in h && id in LastEight(h[k]);
    }
    if k :| k in h && !Expired(t.leases[k], now) && id in LastEight(h[k]) {
      assert k in m && id in m[k].retired;
    }
  }

  // ---- The ninth key change lets the first key back in ----

  function Single(id: TokenId, lease: Lease): Table {
    Table(map[id := lease], 0)
  }

  /** One recovery after another at `now`, each to the next of `keys`. */
  function Recoveries(key: TokenId, keys: seq<TokenId>, ip: IpAddr, now: u64): seq<Op>
    requires keys != []
  {
    seq(|keys| - 1, i requires 0 <= i < |keys| - 1 => Op.Recovering(key, keys[i + 1], ip, now))
  }

  lemma OneRecovery(id: TokenId, lease: Lease, key: TokenId, next: TokenId, ip: IpAddr, now: u64)
    requires lease.recoveryId == Some(key) && lease.lastIp == Some(ip) && !Expired(lease, now)
    requires next != id && next !in lease.retired
    ensures Apply(Single(id, lease), Op.Recovering(key, next, ip, now)) == Single(next, RecoveredLease(lease, id, ip, now))
  {
    var m := map[id := lease];
    assert Reap(m, now) == m;
    KeyHolderIsUnique(m, key, id);
    assert m - {id} == map[];
  }

  lemma LastKeyIsFresh(keys: seq<TokenId>)
    requires |keys| >= 2 && NoDuplicates(keys)
    ensures var n := |keys| - 1;
            && NoDuplicates(keys[..n]) && keys[n] != keys[n - 1] && keys[n] !in LastEight(keys[..n - 1])
            && keys[..n - 1] + [keys[n - 1]] == keys[..n] && keys[..n][..n - 1] == keys[..n - 1]
  {
  }

  lemma EarlierRecoveries(key: TokenId, keys: seq<TokenId>, ip: IpAddr, now: u64)
    requires |keys| >= 2
    ensures var n, ops := |keys| - 1, Recoveries(key, keys, ip, now);
            ops[..n - 1] == Recoveries(key, keys[..n], ip, now) && ops[n - 1] == Op.Recovering(key, keys[n], ip, now)
  {
  }

  lemma {:induction false} RecoveredAgain(first: Lease, key: TokenId, keys: seq<TokenId>, ip: IpAddr, now: u64)
    returns (lease: Lease)
    requires keys != [] && NoDuplicates(keys) && now < U64_MAX
    requires first.recoveryId == Some(key) && first.lastIp == Some(ip) && first.retired == [] && !Expired(first, now)
    ensures var n := |keys| - 1;
            && ApplyAll(Single(keys[0], first), Recoveries(key, keys, ip, now)) == Single(keys[n], lease)
            && lease == first.(retired := LastEight(keys[..n]), status := lease.status) && !Expired(lease, now)
  {
    var n := |keys| - 1;
    if n == 0 {
      lease := first;
    } else {
      LastKeyIsFresh(keys);
      var earlier := RecoveredAgain(first, key, keys[..n], ip, now);
      EarlierRecoveries(key, keys, ip, now);
      OneRecovery(keys[n - 1], earlier, key, keys[n], ip, now);
      lease := RecoveredLease(earlier, keys[n - 1], ip, now);
      RetireIsLastEight(keys[..n - 1], keys[n - 1]);
    }
  }

  /** Eight recoveries leave the first key barred; with the ninth it may register again, as a new
      identity with a claim of its own. */
  lemma NinthRecoveryFreesTheFirstKey(first: Lease, key: TokenId, keys: seq<TokenId>, ip: IpAddr, now: u64)
    requires 9 <= |keys| <= 10 && NoDuplicates(keys) && now < U64_MAX && PORT_START <= first.port <= PORT_END
    requires first.recoveryId == Some(key) && first.lastIp == Some(ip) && first.retired == [] && !Expired(first, now)
    ensures var result := Candidates(ApplyAll(Single(keys[0], first), Recoveries(key, keys, ip, now)), keys[0], ip, now).1;
            if |keys| == 9 then result == Err(IdentityRotated)
            else result.Ok? && result.value != [] && first.port !in result.value
  {
    var n := |keys| - 1;
    var lease := RecoveredAgain(first, key, keys, ip, now);
    var m := map[keys[n] := lease];
    assert Reap(m, now) == m;
    if |keys| == 9 {
      assert keys[..n][0] == keys[0] && keys[0] in m[keys[n]].retired;
    } else {
      assert LastEight(keys[..n]) == keys[1..n];
      assert ChargedKeys(m, SourceOf(ip)) == {keys[n]};
      PoolCount(m);
      FreePortsAre(m, PORT_START);
      assert Occupied(m, first.port) by { assert m[keys[n]].port == first.port; }
    }
  }

  lemma RotationTransfers(t: Table, former: TokenId, next: TokenId, now: u64)
    requires Rotated(t, former, next, now).1.Ok? && Rotated(t, former, next, now).1.value.Transferred?
    ensures former in t.leases && t.leases[former].retired == [] && former != next
    ensures Follow(t, Moving(former, next, now), former) == Some(next)
  {
  }

  /** Routine rotation moves only a claim that never changed keys before. */
  lemma RotationIsOnce(t: Table, h: History, former: TokenId, next: TokenId, now: u64)
    requires ValidTable(t) && Remembers(t, h)
    requires Rotated(t, former, next, now).1.Ok? && Rotated(t, former, next, now).1.value.Transferred?
    ensures former in h && h[former] == []
    ensures Recorded(t, h, Moving(former, next, now))[next] == [former]
  {
    RotationTransfers(t, former, next, now);
    RetireIsLastEight(h[former], former);
    RecordedStep(t, h, Moving(former, next, now), former);
  }
}

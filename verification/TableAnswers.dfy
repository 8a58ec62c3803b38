/** Every answer of the lease table: when each operation is refused and why, what it changes when it
    is not, and what a repeated request is answered (crates/server/src/lease.rs). */
module TableAnswers {
  import opened Common
  import opened HostAdmission
  import opened Leases
  import opened LeaseInvariants
  import opened LeaseRecords

  // ---- Being offered a port ----

  /** Two other claims are charged to the source of `ip` already. */
  ghost predicate SourceIsFull(m: Claims, ip: IpAddr) {
    exists a, b :: a != b && a in m && b in m && ChargedTo(m[a], SourceOf(ip)) && ChargedTo(m[b], SourceOf(ip))
  }

  lemma TwoMembers<T>(s: set<T>)
    ensures |s| >= 2 <==> exists a, b :: a != b && a in s && b in s
  {
    if a, b :| a != b && a in s && b in s {
      SubsetSize({a, b}, s);
    }
    if |s| >= 2 {
      var a :| a in s;
      assert |s - {a}| == |s| - 1;
      var b :| b in s - {a};
    }
  }

  lemma FullIsTwo(m: Claims, ip: IpAddr)
    ensures SourceIsFull(m, ip) <==> |ChargedKeys(m, SourceOf(ip))| >= 2
  {
    var charged := ChargedKeys(m, SourceOf(ip));
    TwoMembers(charged);
    if a, b :| a != b && a in m && b in m && ChargedTo(m[a], SourceOf(ip)) && ChargedTo(m[b], SourceOf(ip)) {
      assert a in charged && b in charged;
    }
  }

  /** A retired identity is told so; a running host that it runs already; a full source that it is
      full, unless the claim is its own; everybody else gets ports while there are any. */
  lemma OfferAnswers(t: Table, id: TokenId, ip: IpAddr, now: u64)
    requires PortsOk(t.leases) && LiveNotRetired(t.leases)
    ensures var m := Reap(t.leases, now); var answer := Candidates(t, id, ip, now).1;
            && (answer == Err(IdentityRotated) <==> IsRetired(m, id))
            && (answer == Err(AlreadyActive) <==> id in m && m[id].status.Active?)
            && (answer == Err(TooManyTunnels) <==>
                  && SourceIsFull(m, ip) && !IsRetired(m, id)
                  && (id in m ==> m[id].status.Grace? && !ChargedTo(m[id], SourceOf(ip))))
            && (answer == Err(PoolExhausted) <==>
                  && id !in m && !IsRetired(m, id) && !SourceIsFull(m, ip)
                  && forall p: u16 | 10000 <= p <= 10999 :: Occupied(m, p))
            && (answer.Err? ==> answer.error in {IdentityRotated, AlreadyActive, TooManyTunnels, PoolExhausted})
            && (answer.Ok? && id in m ==> answer == Ok([m[id].port]))
            && (answer.Ok? && id !in m ==> forall p :: p in answer.value <==> 10000 <= p <= 10999 && !Occupied(m, p))
  {
    var m := Reap(t.leases, now);
    FullIsTwo(m, ip);
    FreePortsAre(m, PORT_START);
    assert id in m ==> !IsRetired(t.leases, id);
    if FreePortsFrom(m, PORT_START) != [] {
      assert FreePortsFrom(m, PORT_START)[0] in FreePortsFrom(m, PORT_START);
    }
  }

  // ---- Being activated ----

  /** Beyond what refuses an offer, only the port, the recovery key and the counter can refuse. */
  lemma ActivationAnswers(t: Table, id: TokenId, recovery: Option<TokenId>, ip: IpAddr, port: u16, now: u64)
    ensures var m := Reap(t.leases, now);
            var offer, answer := Candidates(t, id, ip, now).1, Activated(t, id, recovery, ip, port, now).1;
            var foreign := recovery.Some? && exists k :: k in m && k != id && m[k].recoveryId == recovery;
            var other := recovery.Some? && id in m && m[id].recoveryId.Some? && m[id].recoveryId != recovery;
            if offer.Err? then answer == Err(offer.error)
            else
              && (answer == Err(PortNotAvailable) <==> port !in offer.value)
              && (answer == Err(RecoveryKeyInUse) <==> port in offer.value && foreign)
              && (answer == Err(RecoveryKeyMismatch) <==> port in offer.value && !foreign && other)
              && (answer == Err(SessionIdsExhausted) <==>
                    port in offer.value && !foreign && !other && t.nextSession == U64_MAX)
              && (answer.Ok? <==> port in offer.value && !foreign && !other && t.nextSession < U64_MAX)
  {
  }

  /** What an activation leaves: one claim that is Active under the next number, on the port asked
      for, charged to the address it came from, with the former keys it had and the recovery key it
      had or else the one presented; the other claims as they were, less the lapsed ones. */
  lemma ActivationLeaves(t: Table, id: TokenId, recovery: Option<TokenId>, ip: IpAddr, port: u16, now: u64)
    requires Activated(t, id, recovery, ip, port, now).1.Ok?
    ensures var (t', answer) := Activated(t, id, recovery, ip, port, now); var m := Reap(t.leases, now);
            && answer == Ok(t.nextSession + 1) && t'.nextSession == t.nextSession + 1
            && t'.leases.Keys == m.Keys + {id}
            && (forall k | k in m && k != id :: t'.leases[k] == m[k])
            && t'.leases[id].status == Active(t.nextSession + 1)
            && t'.leases[id].port == port && t'.leases[id].lastIp == Some(ip)
            && (if id in m then t'.leases[id].retired == m[id].retired else t'.leases[id].retired == [])
            && t'.leases[id].recoveryId == (if id in m && m[id].recoveryId.Some? then m[id].recoveryId else recovery)
    ensures forall source ::
              id in ChargedKeys(Activated(t, id, recovery, ip, port, now).0.leases, source) <==> source == SourceOf(ip)
  {
  }

  /** A refused activation only reaps. */
  lemma RefusedActivation(t: Table, id: TokenId, recovery: Option<TokenId>, ip: IpAddr, port: u16, now: u64)
    requires Activated(t, id, recovery, ip, port, now).1.Err?
    ensures Activated(t, id, recovery, ip, port, now).0 == Reaped(t, now)
  {
  }

  // ---- Ending ----

  /** Exactly the Active session of that number is ended; its claim then has 300 s. */
  lemma EndAnswers(t: Table, id: TokenId, session: u64, now: u64)
    ensures var (t', ended) := Ended(t, id, session, now);
            && (ended <==> id in t.leases && t.leases[id].status == Active(session))
            && (!ended ==> t' == t)
            && (ended ==> t'.nextSession == t.nextSession && t'.leases.Keys == t.leases.Keys
                          && (forall k | k in t.leases && k != id :: t'.leases[k] == t.leases[k])
                          && t'.leases[id] == t.leases[id].(status := Grace(SaturatingAdd(now, 300_000))))
  {
  }

  // ---- Rotation ----

  lemma RotationAnswers(t: Table, former: TokenId, next: TokenId, now: u64)
    requires LiveNotRetired(t.leases)
    ensures var m := Reap(t.leases, now); var answer := Rotated(t, former, next, now).1;
            var unused := former != next && next !in m && !IsRetired(m, next);
            && (answer == Err(SameIdentity) <==> former == next)
            && (answer == Err(NewIdentityOwnsClaim) <==> former != next && next in m && former !in m[next].retired)
            && (answer == Err(NewIdentityRetired) <==> former != next && IsRetired(m, next))
            && (answer == Err(OldIdentityRotated) <==> unused && IsRetired(m, former))
            && (answer == Err(StopActiveTunnel) <==> unused && former in m && m[former].status.Active?)
            && (answer == Err(RotatedOnce) <==> unused && former in m && m[former].status.Grace? && m[former].retired != [])
            && (forall p :: answer == Ok(Transferred(p)) <==>
                  unused && former in m && m[former].status.Grace? && m[former].retired == [] && p == m[former].port)
            && (answer == Ok(Unchanged(None)) <==> unused && former !in m && !IsRetired(m, former))
            && (forall p :: answer == Ok(Unchanged(Some(p))) <==>
                  former != next && next in m && former in m[next].retired && p == m[next].port)
  {
    var m := Reap(t.leases, now);
    assert next in m ==> !IsRetired(t.leases, next);
    assert former in m ==> !IsRetired(t.leases, former);
  }

  /** A rotation that transfers moves the claim as it is and puts the key it left on its list; any
      other only reaps. */
  lemma RotationLeaves(t: Table, former: TokenId, next: TokenId, now: u64)
    ensures var (t', answer) := Rotated(t, former, next, now); var m := Reap(t.leases, now);
            if answer.Ok? && answer.value.Transferred? then
              && former in m && t'.nextSession == t.nextSession
              && t'.leases.Keys == m.Keys - {former} + {next}
              && (forall k | k in m && k != former && k != next :: t'.leases[k] == m[k])
              && t'.leases[next] == m[former].(retired := [former])
            else t' == Reaped(t, now)
  {
  }

  /** Asking again is answered: while the claim lives, with its port; once it has lapsed, with none. */
  lemma RepeatedRotation(t: Table, former: TokenId, next: TokenId, now: u64, later: u64)
    requires ValidTable(t)
    requires Rotated(t, former, next, now).1.Ok? && Rotated(t, former, next, now).1.value.Transferred?
    ensures var (t', answer) := Rotated(t, former, next, now);
            Rotated(t', former, next, later).1 ==
              Ok(Unchanged(if next in Reap(t'.leases, later) then Some(answer.value.port) else None))
    ensures Rotated(Rotated(t, former, next, now).0, former, next, later).0 == Reaped(Rotated(t, former, next, now).0, later)
  {
    RotationAnswers(t, former, next, now);
    RotationLeaves(t, former, next, now);
    RotatedKeeps(t, former, next, now);
    var t' := Rotated(t, former, next, now).0;
    RotationAnswers(t', former, next, later);
    assert !IsRetired(t'.leases, next);
    forall k | k in t'.leases && former in t'.leases[k].retired ensures k == next {
      assert next in t'.leases && former in t'.leases[next].retired;
    }
  }

  // ---- Recovery ----

  lemma RecoveryAnswers(t: Table, recovery: TokenId, next: TokenId, ip: IpAddr, now: u64, former: TokenId)
    requires RecoveryOk(t.leases) && LiveNotRetired(t.leases)
    requires former in Reap(t.leases, now) && t.leases[former].recoveryId == Some(recovery)
    ensures var m := Reap(t.leases, now); var answer := Recovered(t, recovery, next, ip, now).1;
            var unused := former != next && next !in m && !IsRetired(m, next);
            && (answer == Err(NewIdentityOwnsClaim) <==> former != next && next in m)
            && (answer == Err(NewIdentityRetired) <==> IsRetired(m, next))
            && (answer == Err(TooManyTunnels) <==> unused && SourceIsFull(m, ip) && !ChargedTo(m[former], SourceOf(ip)))
            && (answer.Err? ==> answer.error in {NewIdentityOwnsClaim, NewIdentityRetired, TooManyTunnels})
            && (answer.Ok? ==>
                  var displaced := if former != next && m[former].status.Active? then Some((former, m[former].status.session))
                                   else None;
                  answer.value == RecoveryResult(m[former].port, displaced, former != next))
  {
    var m := Reap(t.leases, now);
    KeyHolderIsUnique(m, recovery, former);
    FullIsTwo(m, ip);
    assert next in m ==> !IsRetired(t.leases, next);
    assert former in m ==> !IsRetired(t.leases, former);
  }

  lemma UnknownKey(t: Table, recovery: TokenId, next: TokenId, ip: IpAddr, now: u64)
    ensures Recovered(t, recovery, next, ip, now).1 == Err(NoMatchingClaim) <==>
            forall k | k in Reap(t.leases, now) :: t.leases[k].recoveryId != Some(recovery)
  {
  }

  /** What a recovery that changes something leaves: the claim under the new key, in grace for 300 s,
      charged to the address it was recovered from, its former keys one longer, everything else as
      it was. */
  lemma RecoveryLeaves(t: Table, recovery: TokenId, next: TokenId, ip: IpAddr, now: u64, former: TokenId)
    requires RecoveryOk(t.leases) && former in Reap(t.leases, now) && t.leases[former].recoveryId == Some(recovery)
    requires Recovered(t, recovery, next, ip, now).1.Ok? && former != next
    ensures var t' := Recovered(t, recovery, next, ip, now).0; var m := Reap(t.leases, now);
            && t'.nextSession == t.nextSession && t'.leases.Keys == m.Keys - {former} + {next}
            && (forall k | k in m && k != former :: t'.leases[k] == m[k])
            && t'.leases[next].port == m[former].port && t'.leases[next].recoveryId == Some(recovery)
            && t'.leases[next].status == Grace(SaturatingAdd(now, 300_000)) && t'.leases[next].lastIp == Some(ip)
            && (|m[former].retired| < 8 ==> t'.leases[next].retired == m[former].retired + [former])
            && (|m[former].retired| >= 8 ==> t'.leases[next].retired == m[former].retired[1..] + [former])
    ensures forall source ::
              next in ChargedKeys(Recovered(t, recovery, next, ip, now).0.leases, source) <==> source == SourceOf(ip)
  {
    KeyHolderIsUnique(Reap(t.leases, now), recovery, former);
  }

  /** A recovery that changes nothing, or is refused, only reaps. */
  lemma RecoveryStays(t: Table, recovery: TokenId, next: TokenId, ip: IpAddr, now: u64)
    requires var answer := Recovered(t, recovery, next, ip, now).1; answer.Ok? ==> !answer.value.changed
    ensures Recovered(t, recovery, next, ip, now).0 == Reaped(t, now)
  {
  }

  /** A claim recovered at `now` is kept for exactly 300 s unless the clock saturates, also through a
      restart whenever it was saved, and until then its new owner is offered exactly its port. */
  lemma RecoveryWindow(t: Table, recovery: TokenId, next: TokenId, ip: IpAddr, now: u64, later: u64, savedAt: u64)
    requires ValidTable(t) && now + 300_000 <= U64_MAX
    requires Recovered(t, recovery, next, ip, now).1.Ok? && Recovered(t, recovery, next, ip, now).1.value.changed
    ensures var (t', answer) := Recovered(t, recovery, next, ip, now);
            var restarted := Demoted(t'.leases, savedAt, later);
            && (next in Reap(t'.leases, later) <==> later < now + 300_000)
            && (next in restarted <==> later < now + 300_000)
            && (later < now + 300_000 ==>
                  && Candidates(t', next, ip, later).1 == Ok([answer.value.port])
                  && Candidates(Table(restarted, 0), next, ip, later).1 == Ok([answer.value.port]))
  {
    var former := KeyHolder(Reap(t.leases, now), recovery).value;
    var t' := Recovered(t, recovery, next, ip, now).0;
    RecoveryLeaves(t, recovery, next, ip, now, former);
    RecoveredKeeps(t, recovery, next, ip, now);
    if later < now + 300_000 {
      GraceHolderReturns(t', next, ip, later);
      DemotedLive(t'.leases, savedAt, later);
      GraceHolderReturns(Table(Demoted(t'.leases, savedAt, later), 0), next, ip, later);
    }
  }

  lemma DemotedLive(m: Claims, savedAt: u64, late: u64)
    requires LiveNotRetired(m)
    ensures LiveNotRetired(Demoted(m, savedAt, late))
  {
    var d := Demoted(m, savedAt, late);
    forall a, b | a in d && b in d ensures a !in d[b].retired {
      assert !IsRetired(m, a);
    }
  }

  /** Asking again is answered with the port, and changes nothing. */
  lemma RepeatedRecovery(t: Table, recovery: TokenId, next: TokenId, ip: IpAddr, other: IpAddr, now: u64, later: u64)
    requires ValidTable(t)
    requires Recovered(t, recovery, next, ip, now).1.Ok? && Recovered(t, recovery, next, ip, now).1.value.changed
    requires next in Reap(Recovered(t, recovery, next, ip, now).0.leases, later)
    ensures var (t', answer) := Recovered(t, recovery, next, ip, now);
            Recovered(t', recovery, next, other, later) ==
              (Reaped(t', later), Ok(RecoveryResult(answer.value.port, None, false)))
  {
    var former := KeyHolder(Reap(t.leases, now), recovery).value;
    var t' := Recovered(t, recovery, next, ip, now).0;
    RecoveryLeaves(t, recovery, next, ip, now, former);
    RecoveredKeeps(t, recovery, next, ip, now);
    KeyHolderIsUnique(Reap(t'.leases, later), recovery, next);
  }

  /** A rotated claim lapses when it would have lapsed before. */
  lemma RotationWindow(t: Table, former: TokenId, next: TokenId, now: u64, later: u64)
    requires Rotated(t, former, next, now).1.Ok? && Rotated(t, former, next, now).1.value.Transferred? && now <= later
    ensures next in Reap(Rotated(t, former, next, now).0.leases, later) <==> former in Reap(t.leases, later)
  {
    RotationLeaves(t, former, next, now);
  }
}

/** What follows over whole runs of the relay: acknowledgements survive crashes, the quota holds,
    and the connection map names exactly the live sessions (crates/server/src/state.rs). */
module RunProperties {
  import opened Common
  import opened HostAdmission
  import opened Leases
  import opened LeaseInvariants
  import opened LeaseRecords
  import opened LeaseStores
  import opened ServerStates
  import opened Durability

  // ---- Acknowledged answers are durable ----

  /** The claim of `id` on `port` outlives a crash for as long as it is not lapsed. */
  ghost predicate SurvivesCrash(w: World, id: TokenId, port: u16)
    requires Startable(w.disk)
  {
    && id in w.server.table.leases && w.server.table.leases[id].port == port
    && forall late: u64 | w.clock <= late < ExpiryOf(w.server.table.leases[id], w.savedAt) ::
         var t := StartTable(w.disk, late);
         && id in t.leases && t.leases[id].port == port
         && t.leases[id].retired == w.server.table.leases[id].retired
         && t.leases[id].recoveryId == w.server.table.leases[id].recoveryId
  }

  lemma HealthySurvives(w: World, id: TokenId)
    requires Durable(w) && w.server.healthy && id in w.server.table.leases
    ensures SurvivesCrash(w, id, w.server.table.leases[id].port)
  {
  }

  /** A host that was told its port keeps it through a crash for the grace time. */
  lemma RegisteredSurvives(w: World, id: TokenId, recovery: Option<TokenId>, ip: IpAddr, now: u64,
                           connection: Option<Connection>, binds: Binds, outcome: SaveOutcome)
    requires Durable(w) && w.clock <= now
    requires RegisterEffect(w.server, w.disk, id, recovery, ip, now, connection, binds, outcome).reply.Ok?
    ensures var effect := RegisterEffect(w.server, w.disk, id, recovery, ip, now, connection, binds, outcome);
            var after := After(w, effect, now);
            && Durable(after) && effect.reply.value.tokenId == id
            && SurvivesCrash(after, id, effect.reply.value.port)
            && ExpiryOf(after.server.table.leases[id], after.savedAt) == SaturatingAdd(now, GRACE_MS)
  {
    RegisterIsDurable(w, id, recovery, ip, now, connection, binds, outcome);
    var port := RegisterCases(w.server, w.disk, id, recovery, ip, now, connection, binds, outcome);
    HealthySurvives(After(w, RegisterEffect(w.server, w.disk, id, recovery, ip, now, connection, binds, outcome), now), id);
  }

  /** A rotation answered with a port, even one that wrote nothing because the claim had moved
      before, leaves the claim with the new identity and the old one retired, crash or not. */
  lemma RotatedSurvives(w: World, former: TokenId, next: TokenId, now: u64, outcome: SaveOutcome)
    requires Durable(w) && w.clock <= now
    requires RotateEffect(w.server, w.disk, former, next, now, outcome).reply.Ok?
    requires RotateEffect(w.server, w.disk, former, next, now, outcome).reply.value.Some?
    ensures var effect := RotateEffect(w.server, w.disk, former, next, now, outcome);
            var after := After(w, effect, now);
            && Durable(after) && SurvivesCrash(after, next, effect.reply.value.value)
            && former in after.server.table.leases[next].retired
  {
    RotateIsDurable(w, former, next, now, outcome);
    HealthySurvives(After(w, RotateEffect(w.server, w.disk, former, next, now, outcome), now), next);
  }

  /** The claim a recovery is answered with. */
  lemma RecoveredClaim(s: Server, disk: Disk, key: TokenId, next: TokenId, ip: IpAddr, now: u64, outcome: SaveOutcome)
    requires RecoverEffect(s, disk, key, next, ip, now, outcome).reply.Ok?
    ensures var effect := RecoverEffect(s, disk, key, next, ip, now, outcome);
            && effect.server.healthy && next in effect.server.table.leases
            && effect.server.table.leases[next].port == effect.reply.value.0
            && effect.server.table.leases[next].recoveryId == Some(key)
  {
  }

  /** The same for a recovery, including one whose claim already belonged to the new identity. */
  lemma RecoveredSurvives(w: World, key: TokenId, next: TokenId, ip: IpAddr, now: u64, outcome: SaveOutcome)
    requires Durable(w) && w.clock <= now
    requires RecoverEffect(w.server, w.disk, key, next, ip, now, outcome).reply.Ok?
    ensures var after := Step(w, Recovering(key, next, ip, now, outcome));
            && Durable(after)
            && SurvivesCrash(after, next, RecoverEffect(w.server, w.disk, key, next, ip, now, outcome).reply.value.0)
            && after.server.table.leases[next].recoveryId == Some(key)
  {
    StepIsDurable(w, Recovering(key, next, ip, now, outcome));
    RecoveredClaim(w.server, w.disk, key, next, ip, now, outcome);
    HealthySurvives(Step(w, Recovering(key, next, ip, now, outcome)), next);
  }

  /** The crash window. With no saturation, an Active claim is restored at `late` exactly if that
      is less than 300 s after the last good save; so a relay that saves every 30 s and crashes
      at `w.clock` leaves every active host at least 270 s to return to its port. */
  lemma CrashWindow(w: World, id: TokenId, late: u64)
    requires Durable(w) && w.server.healthy && w.clock <= late
    requires id in w.server.table.leases && w.server.table.leases[id].status.Active?
    requires w.savedAt + GRACE_MS <= U64_MAX
    ensures id in StartTable(w.disk, late).leases <==> late < w.savedAt + GRACE_MS
    ensures id in StartTable(w.disk, late).leases ==>
              StartTable(w.disk, late).leases[id].port == w.server.table.leases[id].port
    ensures w.clock <= w.savedAt + 30_000 && late < w.clock + 270_000 ==> id in StartTable(w.disk, late).leases
  {
    assert StartTable(w.disk, late).leases == Demoted(w.server.table.leases, w.savedAt, late);
  }

  // ---- Storage trouble ----

  /** After a failed save the relay takes on nothing until a refresh or a restart: sessions may end,
      but no claim is added, moved or dropped, and no session is numbered. */
  lemma {:induction false} TroubleLatches(w: World, events: seq<Event>)
    requires !w.server.healthy && forall e | e in events :: !e.Refreshing? && !e.Restarting?
    ensures var t := Run(w, events).server.table;
            && !Run(w, events).server.healthy
            && t.nextSession == w.server.table.nextSession
            && t.leases.Keys == w.server.table.leases.Keys
            && forall k | k in t.leases ::
                 t.leases[k] == w.server.table.leases[k].(status := t.leases[k].status)
                 && (t.leases[k].status.Active? ==> t.leases[k] == w.server.table.leases[k])
  {
    if events != [] {
      var n := |events| - 1;
      TroubleLatches(w, events[..n]);
      TroubleStep(Run(w, events[..n]), events[n]);
    }
  }

  lemma TroubleStep(w: World, e: Event)
    requires !w.server.healthy && !e.Refreshing? && !e.Restarting?
    ensures !Step(w, e).server.healthy
    ensures Step(w, e).server.table ==
              if e.Ending? then Ended(w.server.table, e.id, e.session, e.now).0 else w.server.table
  {
  }

  /** A refresh decides the health of the storage: it is healthy again exactly if its save works. */
  lemma RefreshDecidesHealth(w: World, now: u64, outcome: SaveOutcome)
    requires Durable(w) && w.clock <= now
    ensures Step(w, Refreshing(now, outcome)).server.healthy <==> outcome.Written?
    ensures Durable(Step(w, Refreshing(now, outcome)))
  {
    StepIsDurable(w, Refreshing(now, outcome));
  }

  /** The same event with a save that works. */
  function Succeeding(e: Event): Event
    requires !e.Restarting?
  {
    e.(outcome := Written)
  }

  lemma FailedSaveDisk(w: World, e: Event)
    requires !e.Restarting? && !Step(w, e).server.healthy && w.server.healthy
    ensures e.outcome.FailedBeforeRename? ==> Step(w, e).disk == w.disk
    ensures e.outcome.FailedAfterRename? ==> Step(w, e).disk == Step(w, Succeeding(e)).disk
    ensures !e.outcome.Written? && Step(w, Succeeding(e)).server.healthy && Step(w, Succeeding(e)).savedAt == e.now
  {
    match e
    case Registering(id, recovery, ip, connection, binds, now, outcome) =>
      var port := RegisterCases(w.server, w.disk, id, recovery, ip, now, connection, binds, outcome);
    case Recovering(key, next, ip, now, outcome) => FailedRecoveryDisk(w, key, next, ip, now, outcome);
    case _ =>
  }

  lemma FailedRecoveryDisk(w: World, key: TokenId, next: TokenId, ip: IpAddr, now: u64, outcome: SaveOutcome)
    requires w.server.healthy && !RecoverEffect(w.server, w.disk, key, next, ip, now, outcome).server.healthy
    ensures var failed := RecoverEffect(w.server, w.disk, key, next, ip, now, outcome);
            var done := RecoverEffect(w.server, w.disk, key, next, ip, now, Written);
            && !outcome.Written? && done.server.healthy && done.saved
            && failed.disk == if outcome.FailedBeforeRename? then w.disk else done.disk
  {
  }

  /** A save that fails is atomic across the crash that follows: a restart then gives exactly the
      claims from before the operation, or exactly those the operation was to leave. */
  lemma FailedSaveIsAtomic(w: World, e: Event)
    requires Durable(w) && w.server.healthy && w.clock <= e.now
    requires !e.Restarting? && !Step(w, e).server.healthy
    ensures var done := Step(w, Succeeding(e)); var disk := Step(w, e).disk;
            && Startable(disk)
            && (|| (forall late: u64 | e.now <= late ::
                      StartTable(disk, late).leases == Demoted(w.server.table.leases, w.savedAt, late))
                || (forall late: u64 | e.now <= late ::
                      StartTable(disk, late).leases == Demoted(done.server.table.leases, e.now, late)))
  {
    FailedSaveDisk(w, e);
    StepIsDurable(w, e);
    StepIsDurable(w, Succeeding(e));
  }

  // ---- The port a registration gets ----

  lemma {:induction false} ScanTakesFirst(ports: seq<u16>, binds: Binds) returns (n: nat)
    ensures n <= |ports| && forall i :: 0 <= i < n ==> binds(ports[i]) == InUse
    ensures ScanPorts(ports, binds) == ScanFailed(NoFreePort) <==> n == |ports|
    ensures n < |ports| ==> binds(ports[n]) != InUse
    ensures n < |ports| && binds(ports[n]) == Bound ==> ScanPorts(ports, binds) == Took(ports[n])
    ensures n < |ports| && binds(ports[n]) == BindFailed ==> ScanPorts(ports, binds) == ScanFailed(CannotBind)
    ensures n < |ports| && binds(ports[n]) == Cancelled ==> ScanPorts(ports, binds) == ScanFailed(CallerGone)
    ensures ScanPorts(ports, binds).Took? ==> n < |ports| && binds(ports[n]) == Bound
  {
    if ports == [] {
      n := 0;
    } else if binds(ports[0]) != InUse {
      n := 0;
    } else {
      var m := ScanTakesFirst(ports[1..], binds);
      n := m + 1;
      forall i | 0 <= i < n ensures binds(ports[i]) == InUse {
        if i > 0 { assert ports[i] == ports[1..][i - 1]; }
      }
    }
  }

  /** Once a candidate port is bound, activation cannot refuse it: only the recovery key or the
      session counter can still stop the registration. */
  lemma BoundPortIsAccepted(s: Server, disk: Disk, id: TokenId, recovery: Option<TokenId>, ip: IpAddr, now: u64,
                            connection: Option<Connection>, binds: Binds, outcome: SaveOutcome)
    requires s.healthy && CandidatesIn(Reap(s.table.leases, now), id, ip).Ok?
    requires ScanPorts(CandidatesIn(Reap(s.table.leases, now), id, ip).value, binds).Took?
    ensures var effect := RegisterEffect(s, disk, id, recovery, ip, now, connection, binds, outcome);
            var port := ScanPorts(CandidatesIn(Reap(s.table.leases, now), id, ip).value, binds).port;
            match effect.reply
            case Ok(registration) => registration.port == port
            case Err(error) =>
              error == SaveFailed || error == Refused(RecoveryKeyInUse) || error == Refused(RecoveryKeyMismatch)
              || error == Refused(SessionIdsExhausted)
  {
    var ports := CandidatesIn(Reap(s.table.leases, now), id, ip).value;
    var n := ScanTakesFirst(ports, binds);
    assert ports[n] in ports;
    assert Reap(Reap(s.table.leases, now), now) == Reap(s.table.leases, now);
  }

  // ---- The quota, over whole runs ----

  ghost predicate QuotaWorld(w: World) {
    && QuotaOk(w.server.table.leases)
    && Startable(w.disk)
    && forall late: u64 :: QuotaOk(StartTable(w.disk, late).leases)
  }

  lemma CommitKeepsQuota<T>(w: World, before: Server, staged: Table, now: u64, outcome: SaveOutcome, after: Server, reply: T)
    requires QuotaWorld(w) && ValidTable(staged) && QuotaOk(staged.leases) && after.table == staged
    requires QuotaOk(before.table.leases)
    ensures QuotaWorld(After(w, Committed(before, w.disk, staged, now, outcome, after, reply), now))
  {
    SavedMirrors(staged, now);
    var image := Some(ImageOf(staged.leases, now));
    forall late: u64 ensures QuotaOk(StartTable(image, late).leases) {
      DemotedQuota(staged.leases, now, late);
    }
  }

  lemma RegisterKeepsQuota(w: World, id: TokenId, recovery: Option<TokenId>, ip: IpAddr, now: u64,
                           connection: Option<Connection>, binds: Binds, outcome: SaveOutcome)
    requires Durable(w) && QuotaWorld(w)
    ensures QuotaWorld(After(w, RegisterEffect(w.server, w.disk, id, recovery, ip, now, connection, binds, outcome), now))
  {
    var port := RegisterCases(w.server, w.disk, id, recovery, ip, now, connection, binds, outcome);
    ReapedKeeps(w.server.table, now);
    SubClaimsQuota(Reap(w.server.table.leases, now), w.server.table.leases);
    if port.Some? {
      var s := w.server.(table := Reaped(w.server.table, now));
      ActivatedKeepsClaims(s.table, id, recovery, ip, port.value, now);
      ActivatedKeepsSessions(s.table, id, recovery, ip, port.value, now);
      ActivatedKeepsQuota(s.table, id, recovery, ip, port.value, now);
      var (staged, session) := Activated(s.table, id, recovery, ip, port.value, now);
      if session.Ok? {
        var connections := if connection.Some? then s.connections[id := (session.value, connection.value)]
                           else s.connections;
        CommitKeepsQuota(w, s, staged, now, outcome, Server(staged, true, connections),
                         Registration(port.value, id, session.value));
      }
    }
  }

  lemma TransferKeepsQuota(w: World, e: Event)
    requires Durable(w) && QuotaWorld(w) && (e.Rotating? || e.Recovering?)
    ensures QuotaWorld(Step(w, e))
  {
    match e {
      case Rotating(former, next, now, outcome) =>
        RotatedKeeps(w.server.table, former, next, now);
        RotatedKeepsQuota(w.server.table, former, next, now);
        var (staged, result) := Rotated(w.server.table, former, next, now);
        if w.server.healthy && result.Ok? && result.value.Transferred? {
          CommitKeepsQuota(w, w.server, staged, now, outcome, w.server.(table := staged), Some(result.value.port));
        }
      case Recovering(key, next, ip, now, outcome) =>
        RecoveredKeeps(w.server.table, key, next, ip, now);
        RecoveredKeepsQuota(w.server.table, key, next, ip, now);
        var (staged, result) := Recovered(w.server.table, key, next, ip, now);
        if w.server.healthy && result.Ok? && result.value.changed {
          var (connections, closed) := Displaced(w.server.connections, result.value.displaced);
          CommitKeepsQuota(w, w.server, staged, now, outcome, w.server.(table := staged, connections := connections),
                           (result.value.port, closed));
        }
    }
  }

  lemma StepKeepsQuota(w: World, e: Event)
    requires Durable(w) && QuotaWorld(w)
    ensures QuotaWorld(Step(w, e))
  {
    match e {
      case Registering(id, recovery, ip, connection, binds, now, outcome) =>
        RegisterKeepsQuota(w, id, recovery, ip, now, connection, binds, outcome);
      case Ending(id, session, now, outcome) =>
        EndedKeeps(w.server.table, id, session, now);
        EndedKeepsQuota(w.server.table, id, session, now);
        var (table, ended) := Ended(w.server.table, id, session, now);
        if ended {
          var s := w.server.(table := table, connections := WithoutSession(w.server.connections, id, session));
          CommitKeepsQuota(w, s, table, now, outcome, s, true);
        }
      case Refreshing(now, outcome) =>
        ReapedKeeps(w.server.table, now);
        SubClaimsQuota(Reap(w.server.table.leases, now), w.server.table.leases);
        var s := w.server.(table := Reaped(w.server.table, now));
        CommitKeepsQuota(w, s, s.table, now, outcome, s.(healthy := true), ());
      case Restarting(now) =>
      case _ => TransferKeepsQuota(w, e);
    }
  }

  /** In every run from an empty or self-saved state, across reconnects from other addresses,
      recoveries, failed saves and restarts, no source holds more than two claims. */
  lemma {:induction false} RunKeepsQuota(w: World, events: seq<Event>)
    requires Durable(w) && QuotaWorld(w) && Timely(w.clock, events)
    ensures QuotaWorld(Run(w, events))
  {
    if events != [] {
      var n := |events| - 1;
      TimelyPrefix(w.clock, events);
      RunKeepsQuota(w, events[..n]);
      RunIsDurable(w, events[..n]);
      StepKeepsQuota(Run(w, events[..n]), events[n]);
    }
  }

  lemma FreshStartHasQuota(now: u64)
    ensures QuotaWorld(Start(None, now)) && Durable(Start(None, now))
  {
    StartIsDurable(None, now);
    forall source ensures ChargedKeys(map[], source) == {} {}
  }

  // ---- The connection map ----

  /** Exactly the Active claims have a connection, and it is the one of their session. */
  ghost predicate ConnectionsAgree(s: Server) {
    && (forall k | k in s.table.leases && s.table.leases[k].status.Active? ::
          k in s.connections && s.connections[k].0 == s.table.leases[k].status.session)
    && (forall k | k in s.connections :: ActiveAt(s.table.leases, k, s.connections[k].0))
  }

  lemma StepKeepsConnections(w: World, e: Event)
    requires Startable(w.disk) && ConnectionsAgree(w.server) && (e.Registering? ==> e.connection.Some?)
    ensures ConnectionsAgree(Step(w, e).server)
  {
    match e {
      case Registering(id, recovery, ip, connection, binds, now, outcome) =>
        RegisterKeepsConnections(w, id, recovery, ip, now, connection, binds, outcome);
      case Rotating(former, next, now, outcome) => RotateKeepsConnections(w, former, next, now, outcome);
      case Recovering(key, next, ip, now, outcome) => RecoverKeepsConnections(w, key, next, ip, now, outcome);
      case Restarting(now) => RestartHasNoSession(w.disk, now);
      case _ =>
    }
  }

  lemma RegisterKeepsConnections(w: World, id: TokenId, recovery: Option<TokenId>, ip: IpAddr, now: u64,
                                 connection: Option<Connection>, binds: Binds, outcome: SaveOutcome)
    requires ConnectionsAgree(w.server) && connection.Some?
    ensures ConnectionsAgree(RegisterEffect(w.server, w.disk, id, recovery, ip, now, connection, binds, outcome).server)
  {
    var port := RegisterCases(w.server, w.disk, id, recovery, ip, now, connection, binds, outcome);
  }

  lemma RotateKeepsConnections(w: World, former: TokenId, next: TokenId, now: u64, outcome: SaveOutcome)
    requires ConnectionsAgree(w.server)
    ensures ConnectionsAgree(RotateEffect(w.server, w.disk, former, next, now, outcome).server)
  {
  }

  lemma RecoverKeepsConnections(w: World, key: TokenId, next: TokenId, ip: IpAddr, now: u64, outcome: SaveOutcome)
    requires ConnectionsAgree(w.server)
    ensures ConnectionsAgree(RecoverEffect(w.server, w.disk, key, next, ip, now, outcome).server)
  {
  }

  lemma RestartHasNoSession(disk: Disk, now: u64)
    requires Startable(disk)
    ensures forall k | k in StartTable(disk, now).leases :: StartTable(disk, now).leases[k].status.Grace?
  {
    if disk.Some? {
      var rs := IntoRecords(disk.value.leases);
      AcceptableTokens(rs);
      RestoredAre(rs, now);
      forall k | k in RestoredLeases(rs, now) ensures RestoredLeases(rs, now)[k].status.Grace? {
        assert k in TokensOf(rs);
      }
    }
  }

  /** When every registration brings a connection, the map agrees with the table in every
      reachable state, across failed saves and restarts. */
  lemma {:induction false} RunKeepsConnections(w: World, events: seq<Event>)
    requires Durable(w) && ConnectionsAgree(w.server) && Timely(w.clock, events)
    requires forall e | e in events :: e.Registering? ==> e.connection.Some?
    ensures ConnectionsAgree(Run(w, events).server)
  {
    if events != [] {
      var n := |events| - 1;
      TimelyPrefix(w.clock, events);
      RunKeepsConnections(w, events[..n]);
      RunIsDurable(w, events[..n]);
      StepKeepsConnections(Run(w, events[..n]), events[n]);
    }
  }

  /** What a recovery displaces: the session of the claim it moves, if that is Active. */
  lemma RecoveryDisplaces(t: Table, key: TokenId, next: TokenId, ip: IpAddr, now: u64, former: TokenId)
    requires RecoveryOk(t.leases) && former != next && Recovered(t, key, next, ip, now).1.Ok?
    requires former in Reap(t.leases, now) && t.leases[former].recoveryId == Some(key)
    ensures Recovered(t, key, next, ip, now).1.value ==
              RecoveryResult(t.leases[former].port,
                             if t.leases[former].status.Active? then Some((former, t.leases[former].status.session)) else None,
                             true)
  {
    KeyHolderIsUnique(Reap(t.leases, now), key, former);
  }

  /** So a recovery of an Active claim closes exactly that session's connection, a recovery of a
      Grace claim closes none, and the branch that puts a connection back is never taken. */
  lemma RecoveryClosesTheDisplaced(s: Server, disk: Disk, key: TokenId, next: TokenId, ip: IpAddr, now: u64,
                                   outcome: SaveOutcome, former: TokenId)
    requires RecoveryOk(s.table.leases) && ConnectionsAgree(s)
    requires former in Reap(s.table.leases, now) && s.table.leases[former].recoveryId == Some(key) && former != next
    requires RecoverEffect(s, disk, key, next, ip, now, outcome).reply.Ok?
    ensures var effect := RecoverEffect(s, disk, key, next, ip, now, outcome);
            && effect.server.connections == s.connections - {former}
            && effect.reply.value.0 == s.table.leases[former].port
            && effect.reply.value.1 == if s.table.leases[former].status.Active? then Some(s.connections[former].1) else None
    ensures var displaced := Recovered(s.table, key, next, ip, now).1.value.displaced;
            displaced.Some? ==> displaced.value.0 in s.connections && s.connections[displaced.value.0].0 == displaced.value.1
  {
    RecoveryDisplaces(s.table, key, next, ip, now, former);
    if s.table.leases[former].status.Grace? {
      assert former !in s.connections;
      assert s.connections - {former} == s.connections;
    }
  }
}

/** The claim of one host among those of all the others: which keys may hold it after each event of
    the relay, in memory and after any restart (crates/server/src/lease.rs,
    crates/server/src/state.rs). */
module HostClaims {
  import opened Common
  import opened HostAdmission
  import opened Leases
  import opened LeaseInvariants
  import opened LeaseRecords
  import opened ServerStates
  import opened Durability
  import History = ClaimHistory
  import LeaseStores

  /** What is fixed about the host: the fingerprint function, the fingerprint of its recovery key,
      and the fingerprints only its own random tokens can have. */
  datatype Party = Party(fingerprint: Token -> TokenId, key: TokenId, ours: iset<TokenId>)

  ghost predicate CollisionFree(pt: Party) {
    forall a: Token, b: Token :: pt.fingerprint(a) == pt.fingerprint(b) ==> a == b
  }

  // ---- Claims that fit the host's files ----

  /** The host's claim is the one enrolled with its key; its owner is one of `allowed`; a former
      key of the host is one it has `used`, never the `barred` one, and one of its own claim. */
  ghost predicate ClaimsFit(pt: Party, m: Claims, allowed: set<TokenId>, used: set<TokenId>, barred: Option<TokenId>) {
    forall k | k in m ::
      && (k in pt.ours <==> m[k].recoveryId == Some(pt.key))
      && (k in pt.ours ==> k in allowed)
      && (forall x | x in m[k].retired && x in pt.ours :: k in pt.ours && x in used && Some(x) != barred)
  }

  /** The claims that have not lapsed. */
  function Live(w: World): Claims {
    Reap(w.server.table.leases, w.clock)
  }

  /** The claims fit, those in memory and those any restart would bring back. */
  ghost predicate Fits(pt: Party, w: World, allowed: set<TokenId>, used: set<TokenId>, barred: Option<TokenId>) {
    && Startable(w.disk)
    && ClaimsFit(pt, Live(w), allowed, used, barred)
    && forall late: u64 | w.clock <= late :: ClaimsFit(pt, StartTable(w.disk, late).leases, allowed, used, barred)
  }

  ghost predicate Restricts(small: Claims, m: Claims) {
    forall k | k in small :: k in m && History.SameKeys(m[k], small[k])
  }

  lemma RestrictionFits(pt: Party, small: Claims, m: Claims, allowed: set<TokenId>, used: set<TokenId>,
                        barred: Option<TokenId>)
    requires Restricts(small, m) && ClaimsFit(pt, m, allowed, used, barred)
    ensures ClaimsFit(pt, small, allowed, used, barred)
  {
  }

  /** As time passes fewer claims are live, in memory and on disk. */
  lemma WaitingFits(pt: Party, w: World, now: u64, allowed: set<TokenId>, used: set<TokenId>, barred: Option<TokenId>)
    requires Fits(pt, w, allowed, used, barred) && w.clock <= now
    ensures Fits(pt, w.(clock := now), allowed, used, barred)
  {
    RestrictionFits(pt, Live(w.(clock := now)), Live(w), allowed, used, barred);
  }

  lemma CommitFits<T>(pt: Party, w: World, before: Server, staged: Table, now: u64, outcome: SaveOutcome, after: Server,
                      reply: T, allowed: set<TokenId>, used: set<TokenId>, barred: Option<TokenId>)
    requires Fits(pt, World(before, w.disk, now, w.savedAt), allowed, used, barred)
    requires ValidTable(staged) && after.table == staged
    requires ClaimsFit(pt, Reap(staged.leases, now), allowed, used, barred)
    ensures Fits(pt, After(w, Committed(before, w.disk, staged, now, outcome, after, reply), now), allowed, used, barred)
  {
    ImageFits(pt, staged, now, allowed, used, barred);
  }

  lemma ImageFits(pt: Party, staged: Table, now: u64, allowed: set<TokenId>, used: set<TokenId>, barred: Option<TokenId>)
    requires ValidTable(staged) && ClaimsFit(pt, Reap(staged.leases, now), allowed, used, barred)
    ensures var image := Some(LeaseStores.ImageOf(staged.leases, now));
            Startable(image) && forall late: u64 | now <= late ::
              ClaimsFit(pt, StartTable(image, late).leases, allowed, used, barred)
  {
    SavedMirrors(staged, now);
    forall late: u64 | now <= late
      ensures ClaimsFit(pt, Demoted(staged.leases, now, late), allowed, used, barred)
    {
      DemotedRestricts(staged.leases, now, now, late);
      RestrictionFits(pt, Demoted(staged.leases, now, late), Reap(staged.leases, now), allowed, used, barred);
    }
  }

  // ---- Events that fit ----

  /** An event of another party, or one this host may cause while `allowed` are its file tokens. */
  ghost predicate Permitted(pt: Party, e: Event, allowed: set<TokenId>, barred: Option<TokenId>) {
    match e
    case Registering(id, recovery, _, _, _, _, _) =>
      (id in pt.ours <==> recovery == Some(pt.key)) && (id in pt.ours ==> id in allowed)
    case Rotating(former, next, _, _) =>
      && (former in pt.ours <==> next in pt.ours)
      && (next in pt.ours ==> former in allowed && next in allowed && Some(former) != barred)
    case Recovering(key, next, _, _, _) =>
      && (key == pt.key <==> next in pt.ours)
      && (next in pt.ours ==> next in allowed && forall k | k in allowed && k != next :: Some(k) != barred)
    case _ => true
  }

  /** An event in which this host has no part, except that its sessions may end. */
  ghost predicate Foreign(pt: Party, e: Event) {
    match e
    case Registering(id, recovery, _, _, _, _, _) => id !in pt.ours && recovery != Some(pt.key)
    case Rotating(former, next, _, _) => former !in pt.ours && next !in pt.ours
    case Recovering(key, next, _, _, _) => key != pt.key && next !in pt.ours
    case _ => true
  }

  lemma ActivationFits(pt: Party, t: Table, op: History.Op, allowed: set<TokenId>, used: set<TokenId>,
                       barred: Option<TokenId>)
    requires op.Activating? && (op.id in pt.ours <==> op.recovery == Some(pt.key)) && (op.id in pt.ours ==> op.id in allowed)
    requires ClaimsFit(pt, Reap(t.leases, op.now), allowed, used, barred)
    ensures ClaimsFit(pt, History.Apply(t, op).leases, allowed, used, barred)
  {
  }

  lemma TransferFits(pt: Party, t: Table, op: History.Op, allowed: set<TokenId>, used: set<TokenId>, barred: Option<TokenId>)
    requires History.Transfer(t, op).Some? && allowed <= used
    requires ClaimsFit(pt, Reap(t.leases, op.now), allowed, used, barred)
    requires var (former, next) := History.Transfer(t, op).value;
             && (former in pt.ours <==> next in pt.ours)
             && (next in pt.ours ==> next in allowed && Some(former) != barred)
    ensures ClaimsFit(pt, History.Apply(t, op).leases, allowed, used, barred)
  {
    History.TransferShape(t, op);
    var (former, next) := History.Transfer(t, op).value;
    var m, m' := Reap(t.leases, op.now), History.Apply(t, op).leases;
    forall x | x in m'[next].retired ensures x == former || x in m[former].retired {}
  }

  /** The host has at most one live claim, so a claim moved to `next` is its only one. */
  lemma OnlyClaim(pt: Party, m: Claims, next: TokenId, allowed: set<TokenId>, used: set<TokenId>, barred: Option<TokenId>)
    requires RecoveryOk(m) && ClaimsFit(pt, m, allowed, used, barred) && next in m && next in pt.ours
    ensures ClaimsFit(pt, m, {next}, used, barred)
  {
  }

  lemma RegisterFits(pt: Party, w: World, e: Event, allowed: set<TokenId>, used: set<TokenId>, barred: Option<TokenId>)
    requires Durable(w) && w.clock <= e.now && e.Registering? && Permitted(pt, e, allowed, barred)
    requires Fits(pt, w, allowed, used, barred)
    ensures Fits(pt, Step(w, e), allowed, used, barred)
  {
    match e {
      case Registering(id, recovery, ip, connection, binds, now, outcome) =>
        WaitingFits(pt, w, now, allowed, used, barred);
        ReapedKeeps(w.server.table, now);
        var s := w.server.(table := Reaped(w.server.table, now));
        var port := RegisterCases(w.server, w.disk, id, recovery, ip, now, connection, binds, outcome);
        assert Reap(s.table.leases, now) == s.table.leases;
        if port.Some? && Activated(s.table, id, recovery, ip, port.value, now).1.Ok? {
          var op := History.Activating(id, recovery, ip, port.value, now);
          ActivationFits(pt, s.table, op, allowed, used, barred);
          History.ApplyKeepsValid(s.table, op);
          StagedFits(pt, w, s, id, recovery, ip, port.value, now, connection, outcome, allowed, used, barred);
        }
    }
  }

  lemma StagedFits(pt: Party, w: World, s: Server, id: TokenId, recovery: Option<TokenId>, ip: IpAddr, port: u16,
                   now: u64, connection: Option<Connection>, outcome: SaveOutcome, allowed: set<TokenId>,
                   used: set<TokenId>, barred: Option<TokenId>)
    requires Activated(s.table, id, recovery, ip, port, now).1.Ok?
    requires Fits(pt, World(s, w.disk, now, w.savedAt), allowed, used, barred)
    requires ValidTable(Activated(s.table, id, recovery, ip, port, now).0)
    requires ClaimsFit(pt, Activated(s.table, id, recovery, ip, port, now).0.leases, allowed, used, barred)
    ensures Fits(pt, After(w, StageEffect(s, w.disk, id, recovery, ip, port, now, connection, outcome), now), allowed,
                 used, barred)
  {
    var (staged, session) := Activated(s.table, id, recovery, ip, port, now);
    RestrictionFits(pt, Reap(staged.leases, now), staged.leases, allowed, used, barred);
    var connections := if connection.Some? then s.connections[id := (session.value, connection.value)]
                       else s.connections;
    CommitFits(pt, w, s, staged, now, outcome, Server(staged, true, connections), Registration(port, id, session.value),
               allowed, used, barred);
  }

  lemma EndedRestricts(t: Table, id: TokenId, session: u64, now: u64)
    ensures Restricts(Reap(Ended(t, id, session, now).0.leases, now), Reap(t.leases, now))
  {
  }

  lemma EndFits(pt: Party, w: World, e: Event, allowed: set<TokenId>, used: set<TokenId>, barred: Option<TokenId>)
    requires Durable(w) && w.clock <= e.now && e.Ending?
    requires Fits(pt, w, allowed, used, barred)
    ensures Fits(pt, Step(w, e), allowed, used, barred)
  {
    match e {
      case Ending(id, session, now, outcome) =>
        WaitingFits(pt, w, now, allowed, used, barred);
        EndedKeeps(w.server.table, id, session, now);
        var (table, ended) := Ended(w.server.table, id, session, now);
        if ended {
          EndedRestricts(w.server.table, id, session, now);
          RestrictionFits(pt, Reap(table.leases, now), Reap(w.server.table.leases, now), allowed, used, barred);
          var s := w.server.(table := table, connections := WithoutSession(w.server.connections, id, session));
          CommitFits(pt, w, s, table, now, outcome, s, true, allowed, used, barred);
        }
    }
  }

  /** Reaping in memory disturbs nothing. */
  lemma ReapFits(pt: Party, w: World, now: u64, allowed: set<TokenId>, used: set<TokenId>, barred: Option<TokenId>)
    requires w.clock <= now && Fits(pt, w, allowed, used, barred)
    ensures var s := w.server.(table := Reaped(w.server.table, now));
            Fits(pt, World(s, w.disk, now, w.savedAt), allowed, used, barred)
  {
    WaitingFits(pt, w, now, allowed, used, barred);
    assert Reap(Reap(w.server.table.leases, now), now) == Reap(w.server.table.leases, now);
  }

  lemma RefreshFits(pt: Party, w: World, e: Event, allowed: set<TokenId>, used: set<TokenId>, barred: Option<TokenId>)
    requires Durable(w) && w.clock <= e.now && e.Refreshing?
    requires Fits(pt, w, allowed, used, barred)
    ensures Fits(pt, Step(w, e), allowed, used, barred)
  {
    ReapFits(pt, w, e.now, allowed, used, barred);
    ReapedKeeps(w.server.table, e.now);
    var s := w.server.(table := Reaped(w.server.table, e.now));
    CommitFits(pt, w, s, s.table, e.now, e.outcome, s.(healthy := true), (), allowed, used, barred);
  }

  lemma RestartFits(pt: Party, w: World, now: u64, allowed: set<TokenId>, used: set<TokenId>, barred: Option<TokenId>)
    requires w.clock <= now && Fits(pt, w, allowed, used, barred)
    ensures Fits(pt, Step(w, Restarting(now)), allowed, used, barred)
  {
    var w' := Step(w, Restarting(now));
    RestrictionFits(pt, Live(w'), StartTable(w.disk, now).leases, allowed, used, barred);
  }

  lemma RotateFits(pt: Party, w: World, e: Event, allowed: set<TokenId>, used: set<TokenId>, barred: Option<TokenId>)
    requires Durable(w) && w.clock <= e.now && e.Rotating? && Permitted(pt, e, allowed, barred) && allowed <= used
    requires Fits(pt, w, allowed, used, barred)
    ensures Fits(pt, Step(w, e), allowed, used, barred)
  {
    WaitingFits(pt, w, e.now, allowed, used, barred);
    var result := Rotated(w.server.table, e.former, e.next, e.now).1;
    if result.Ok? && result.value.Transferred? {
      RotatedKeeps(w.server.table, e.former, e.next, e.now);
      TransferFits(pt, w.server.table, History.Moving(e.former, e.next, e.now), allowed, used, barred);
      RotationCommitFits(pt, w, e.former, e.next, e.now, e.outcome, allowed, used, barred);
    } else {
      RotationRefused(w, e);
    }
  }

  lemma RotationRefused(w: World, e: Event)
    requires e.Rotating?
    requires var result := Rotated(w.server.table, e.former, e.next, e.now).1; result.Ok? ==> result.value.Unchanged?
    ensures Step(w, e) == w.(clock := e.now)
  {
  }

  lemma RotationCommitFits(pt: Party, w: World, former: TokenId, next: TokenId, now: u64, outcome: SaveOutcome,
                           allowed: set<TokenId>, used: set<TokenId>, barred: Option<TokenId>)
    requires var result := Rotated(w.server.table, former, next, now).1; result.Ok? && result.value.Transferred?
    requires Fits(pt, w.(clock := now), allowed, used, barred)
    requires ValidTable(Rotated(w.server.table, former, next, now).0)
    requires ClaimsFit(pt, Rotated(w.server.table, former, next, now).0.leases, allowed, used, barred)
    ensures Fits(pt, After(w, RotateEffect(w.server, w.disk, former, next, now, outcome), now), allowed, used, barred)
  {
    var (staged, result) := Rotated(w.server.table, former, next, now);
    RestrictionFits(pt, Reap(staged.leases, now), staged.leases, allowed, used, barred);
    if w.server.healthy {
      CommitFits(pt, w, w.server, staged, now, outcome, w.server.(table := staged), Some(result.value.port), allowed,
                 used, barred);
    }
  }

  lemma RecoverFits(pt: Party, w: World, e: Event, allowed: set<TokenId>, used: set<TokenId>, barred: Option<TokenId>)
    requires Durable(w) && w.clock <= e.now && e.Recovering? && Permitted(pt, e, allowed, barred) && allowed <= used
    requires Fits(pt, w, allowed, used, barred)
    ensures Fits(pt, Step(w, e), allowed, used, barred)
  {
    WaitingFits(pt, w, e.now, allowed, used, barred);
    var result := Recovered(w.server.table, e.key, e.next, e.ip, e.now).1;
    if result.Ok? && result.value.changed {
      RecoveredKeeps(w.server.table, e.key, e.next, e.ip, e.now);
      RecoveredTableFits(pt, w.server.table, History.Recovering(e.key, e.next, e.ip, e.now), allowed, used, barred);
      RecoveryCommitFits(pt, w, e.key, e.next, e.ip, e.now, e.outcome, allowed, used, barred);
    } else {
      RecoveryRefused(w, e);
    }
  }

  lemma RecoveryRefused(w: World, e: Event)
    requires e.Recovering?
    requires var result := Recovered(w.server.table, e.key, e.next, e.ip, e.now).1; result.Ok? ==> !result.value.changed
    ensures Step(w, e) == w.(clock := e.now)
  {
  }

  lemma RecoveredTableFits(pt: Party, t: Table, op: History.Op, allowed: set<TokenId>, used: set<TokenId>,
                           barred: Option<TokenId>)
    requires op.Recovering? && History.Transfer(t, op).Some? && allowed <= used
    requires (op.key == pt.key <==> op.next in pt.ours)
    requires op.next in pt.ours ==> op.next in allowed && forall k | k in allowed && k != op.next :: Some(k) != barred
    requires ClaimsFit(pt, Reap(t.leases, op.now), allowed, used, barred)
    ensures ClaimsFit(pt, History.Apply(t, op).leases, allowed, used, barred)
  {
    History.TransferShape(t, op);
    TransferFits(pt, t, op, allowed, used, barred);
  }

  lemma RecoveryCommitFits(pt: Party, w: World, key: TokenId, next: TokenId, ip: IpAddr, now: u64, outcome: SaveOutcome,
                           allowed: set<TokenId>, used: set<TokenId>, barred: Option<TokenId>)
    requires var result := Recovered(w.server.table, key, next, ip, now).1; result.Ok? && result.value.changed
    requires Fits(pt, w.(clock := now), allowed, used, barred)
    requires ValidTable(Recovered(w.server.table, key, next, ip, now).0)
    requires ClaimsFit(pt, Recovered(w.server.table, key, next, ip, now).0.leases, allowed, used, barred)
    ensures Fits(pt, After(w, RecoverEffect(w.server, w.disk, key, next, ip, now, outcome), now), allowed, used, barred)
  {
    var (staged, result) := Recovered(w.server.table, key, next, ip, now);
    RestrictionFits(pt, Reap(staged.leases, now), staged.leases, allowed, used, barred);
    if w.server.healthy {
      var (connections, closed) := Displaced(w.server.connections, result.value.displaced);
      CommitFits(pt, w, w.server, staged, now, outcome, w.server.(table := staged, connections := connections),
                 (result.value.port, closed), allowed, used, barred);
    }
  }

  lemma StepFits(pt: Party, w: World, e: Event, allowed: set<TokenId>, used: set<TokenId>, barred: Option<TokenId>)
    requires Durable(w) && w.clock <= e.now && Permitted(pt, e, allowed, barred) && allowed <= used
    requires Fits(pt, w, allowed, used, barred)
    ensures Fits(pt, Step(w, e), allowed, used, barred)
  {
    match e
    case Registering(_, _, _, _, _, _, _) => RegisterFits(pt, w, e, allowed, used, barred);
    case Ending(_, _, _, _) => EndFits(pt, w, e, allowed, used, barred);
    case Rotating(_, _, _, _) => RotateFits(pt, w, e, allowed, used, barred);
    case Recovering(_, _, _, _, _) => RecoverFits(pt, w, e, allowed, used, barred);
    case Refreshing(_, _) => RefreshFits(pt, w, e, allowed, used, barred);
    case Restarting(now) => RestartFits(pt, w, now, allowed, used, barred);
  }

  /** Through every run of permitted events the claims fit. */
  lemma {:induction false} RunFits(pt: Party, w: World, allowed: set<TokenId>, used: set<TokenId>, barred: Option<TokenId>,
                                   events: seq<Event>)
    requires Durable(w) && Timely(w.clock, events) && allowed <= used
    requires forall e | e in events :: Permitted(pt, e, allowed, barred)
    requires Fits(pt, w, allowed, used, barred)
    ensures Fits(pt, Run(w, events), allowed, used, barred)
  {
    if events != [] {
      var n := |events| - 1;
      TimelyPrefix(w.clock, events);
      RunFits(pt, w, allowed, used, barred, events[..n]);
      ClockBeforeLast(w, events);
      assert events[n] in events;
      StepFits(pt, Run(w, events[..n]), events[n], allowed, used, barred);
    }
  }

  // ---- What an accepted request of this host establishes ----

  /** What a later restart would bring back of claims is live now. */
  lemma DemotedRestricts(m: Claims, savedAt: u64, now: u64, late: u64)
    requires now <= late
    ensures Restricts(Demoted(m, savedAt, late), Reap(m, now))
  {
  }

  /** When storage is healthy the disk has no claim that is not live in memory. */
  lemma HealthyFits(pt: Party, w: World, allowed: set<TokenId>, used: set<TokenId>, barred: Option<TokenId>)
    requires Durable(w) && w.server.healthy && ClaimsFit(pt, Live(w), allowed, used, barred)
    ensures Fits(pt, w, allowed, used, barred)
  {
    forall late: u64 | w.clock <= late ensures ClaimsFit(pt, StartTable(w.disk, late).leases, allowed, used, barred) {
      var restarted := StartTable(w.disk, late).leases;
      assert restarted == Demoted(w.server.table.leases, w.savedAt, late);
      DemotedRestricts(w.server.table.leases, w.savedAt, w.clock, late);
      RestrictionFits(pt, restarted, Live(w), allowed, used, barred);
    }
  }

  /** A rotation that is answered, even with "no claim", leaves no claim with the old identity. */
  lemma AcceptedRotation(pt: Party, w: World, former: TokenId, next: TokenId, now: u64, outcome: SaveOutcome,
                         used: set<TokenId>)
    requires Durable(w) && w.clock <= now && {former, next} <= used && former != next
    requires former in pt.ours && next in pt.ours && Fits(pt, w, {former, next}, used, Some(next))
    requires RotateEffect(w.server, w.disk, former, next, now, outcome).reply.Ok?
    ensures Fits(pt, Step(w, Rotating(former, next, now, outcome)), {next}, used, Some(next))
  {
    var e := Rotating(former, next, now, outcome);
    var w' := Step(w, e);
    StepIsDurable(w, e);
    StepFits(pt, w, e, {former, next}, used, Some(next));
    if next in Live(w') {
      ReapedKeeps(w'.server.table, now);
      OnlyClaim(pt, Live(w'), next, {former, next}, used, Some(next));
    } else {
      RotatedAway(w, former, next, now, outcome);
    }
    HealthyFits(pt, w', {next}, used, Some(next));
  }

  lemma RotatedAway(w: World, former: TokenId, next: TokenId, now: u64, outcome: SaveOutcome)
    requires former != next && RotateEffect(w.server, w.disk, former, next, now, outcome).reply.Ok?
    requires next !in Live(Step(w, Rotating(former, next, now, outcome)))
    ensures former !in Live(Step(w, Rotating(former, next, now, outcome)))
  {
  }

  /** A recovery that is answered leaves the claim with its key to the new identity, healthy. */
  lemma RecoveredHolder(w: World, key: TokenId, next: TokenId, ip: IpAddr, now: u64, outcome: SaveOutcome)
    requires RecoverEffect(w.server, w.disk, key, next, ip, now, outcome).reply.Ok?
    ensures var s := Step(w, Recovering(key, next, ip, now, outcome)).server;
            s.healthy && next in s.table.leases && s.table.leases[next].recoveryId == Some(key)
  {
  }

  /** So nobody else has the host's claim, in memory or after any restart. */
  lemma AcceptedRecoveryFits(pt: Party, w: World, allowed: set<TokenId>, next: TokenId, ip: IpAddr, now: u64,
                             outcome: SaveOutcome, used: set<TokenId>)
    requires Durable(w) && w.clock <= now && next in pt.ours && next in allowed && allowed <= used
    requires Fits(pt, w, allowed, used, Some(next))
    requires RecoverEffect(w.server, w.disk, pt.key, next, ip, now, outcome).reply.Ok?
    ensures Fits(pt, Step(w, Recovering(pt.key, next, ip, now, outcome)), {next}, used, Some(next))
  {
    var e := Recovering(pt.key, next, ip, now, outcome);
    var w' := Step(w, e);
    StepIsDurable(w, e);
    StepFits(pt, w, e, allowed, used, Some(next));
    RecoveredHolder(w, pt.key, next, ip, now, outcome);
    OnlyHolder(pt, w'.server.table.leases, Live(w'), next, allowed, used, Some(next));
    HealthyFits(pt, w', {next}, used, Some(next));
  }

  lemma OnlyHolder(pt: Party, all: Claims, m: Claims, next: TokenId, allowed: set<TokenId>, used: set<TokenId>,
                   barred: Option<TokenId>)
    requires RecoveryOk(all) && SubClaims(m, all) && ClaimsFit(pt, m, allowed, used, barred)
    requires next in all && all[next].recoveryId == Some(pt.key)
    ensures ClaimsFit(pt, m, {next}, used, barred)
  {
  }

  /** And the claim is alive (at the end of time its grace is over at once). */
  lemma AcceptedRecovery(pt: Party, w: World, allowed: set<TokenId>, next: TokenId, ip: IpAddr, now: u64,
                         outcome: SaveOutcome, used: set<TokenId>)
    requires Durable(w) && w.clock <= now && next in pt.ours && next in allowed && allowed <= used
    requires Fits(pt, w, allowed, used, Some(next))
    requires RecoverEffect(w.server, w.disk, pt.key, next, ip, now, outcome).reply.Ok?
    ensures var w' := Step(w, Recovering(pt.key, next, ip, now, outcome));
            && Fits(pt, w', {next}, used, Some(next))
            && (now < U64_MAX ==>
                  && next in Live(w') && Live(w')[next].recoveryId == Some(pt.key)
                  && Live(w')[next].port == RecoverEffect(w.server, w.disk, pt.key, next, ip, now, outcome).reply.value.0)
  {
    AcceptedRecoveryFits(pt, w, allowed, next, ip, now, outcome, used);
    if now < U64_MAX {
      RecoveredIsLive(w, pt.key, next, ip, now, outcome);
    }
  }

  lemma RecoveredIsLive(w: World, key: TokenId, next: TokenId, ip: IpAddr, now: u64, outcome: SaveOutcome)
    requires now < U64_MAX
    requires RecoverEffect(w.server, w.disk, key, next, ip, now, outcome).reply.Ok?
    ensures var w' := Step(w, Recovering(key, next, ip, now, outcome));
            && w'.server.healthy && next in Live(w') && Live(w')[next].recoveryId == Some(key)
            && Live(w')[next].port == RecoverEffect(w.server, w.disk, key, next, ip, now, outcome).reply.value.0
  {
  }

  /** The pending identity is never refused as taken or retired: a recovery of this host fails only
      for lack of a live claim, of quota, or of working storage. */
  lemma RecoveryRefusals(pt: Party, w: World, allowed: set<TokenId>, next: TokenId, ip: IpAddr, now: u64,
                         outcome: SaveOutcome, used: set<TokenId>)
    requires Durable(w) && w.clock <= now && next in pt.ours && Fits(pt, w, allowed, used, Some(next))
    ensures var reply := RecoverEffect(w.server, w.disk, pt.key, next, ip, now, outcome).reply;
            reply.Err? ==> reply.error in {StorageUnavailable, SaveFailed, Refused(NoMatchingClaim), Refused(TooManyTunnels)}
  {
    WaitingFits(pt, w, now, allowed, used, Some(next));
    ReapedKeeps(w.server.table, now);
    KeyRefusals(pt, w.server.table, allowed, next, ip, now, used);
  }

  lemma KeyRefusals(pt: Party, t: Table, allowed: set<TokenId>, next: TokenId, ip: IpAddr, now: u64, used: set<TokenId>)
    requires RecoveryOk(Reap(t.leases, now)) && next in pt.ours
    requires ClaimsFit(pt, Reap(t.leases, now), allowed, used, Some(next))
    ensures var result := Recovered(t, pt.key, next, ip, now).1;
            result.Err? ==> result.error == NoMatchingClaim || result.error == TooManyTunnels
  {
    var m := Reap(t.leases, now);
    assert !IsRetired(m, next);
    if next in m {
      KeyHolderIsUnique(m, pt.key, next);
    }
  }

  // ---- Nobody else ----

  /** No other key holds the host's claim, in memory or after any restart. */
  ghost predicate SoleOwner(pt: Party, w: World, owner: TokenId) {
    && Startable(w.disk)
    && (forall k | k in Live(w) && Live(w)[k].recoveryId == Some(pt.key) :: k == owner)
    && (forall late: u64 | w.clock <= late ::
          forall k | k in StartTable(w.disk, late).leases && StartTable(w.disk, late).leases[k].recoveryId == Some(pt.key) ::
            k == owner)
  }

  lemma FitsSoleOwner(pt: Party, w: World, owner: TokenId, used: set<TokenId>, barred: Option<TokenId>)
    requires Fits(pt, w, {owner}, used, barred)
    ensures SoleOwner(pt, w, owner)
  {
  }
}

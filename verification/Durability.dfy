/** Whole runs of the relay with failing saves and crashes: what the disk always holds
    (crates/server/src/state.rs, crates/server/src/lease.rs). */
module Durability {
  import opened Common
  import opened HostAdmission
  import opened Leases
  import opened LeaseInvariants
  import opened LeaseRecords
  import opened LeaseStores
  import opened ServerStates

  /** The relay, its disk, the last time seen, and when the disk was last written by a save that
      succeeded. */
  datatype World = World(server: Server, disk: Disk, clock: u64, savedAt: u64)

  datatype Event =
    | Registering(id: TokenId, recovery: Option<TokenId>, ip: IpAddr, connection: Option<Connection>, binds: Binds,
                  now: u64, outcome: SaveOutcome)
    | Ending(id: TokenId, session: u64, now: u64, outcome: SaveOutcome)
    | Rotating(former: TokenId, next: TokenId, now: u64, outcome: SaveOutcome)
    | Recovering(key: TokenId, next: TokenId, ip: IpAddr, now: u64, outcome: SaveOutcome)
    | Refreshing(now: u64, outcome: SaveOutcome)
    | Restarting(now: u64)

  ghost predicate Startable(disk: Disk) {
    disk.Some? ==> Loadable(disk.value)
  }

  /** The table a start-up at `now` builds. */
  ghost function StartTable(disk: Disk, now: u64): Table
    requires Startable(disk)
  {
    if disk.Some? then Loaded(disk.value, now) else EMPTY_TABLE
  }

  ghost function Start(disk: Disk, now: u64): World
    requires Startable(disk)
  {
    World(Server(StartTable(disk, now), true, map[]), disk, now, now)
  }

  ghost function After<T>(w: World, effect: Effect<T>, now: u64): World {
    World(effect.server, effect.disk, now, if effect.saved then now else w.savedAt)
  }

  /** One event. A restart that the disk does not allow leaves the relay down; `Durable` worlds
      always allow it. */
  ghost function Step(w: World, e: Event): World {
    match e
    case Registering(id, recovery, ip, connection, binds, now, outcome) =>
      After(w, RegisterEffect(w.server, w.disk, id, recovery, ip, now, connection, binds, outcome), now)
    case Ending(id, session, now, outcome) => After(w, EndEffect(w.server, w.disk, id, session, now, outcome), now)
    case Rotating(former, next, now, outcome) =>
      After(w, RotateEffect(w.server, w.disk, former, next, now, outcome), now)
    case Recovering(key, next, ip, now, outcome) =>
      After(w, RecoverEffect(w.server, w.disk, key, next, ip, now, outcome), now)
    case Refreshing(now, outcome) => After(w, RefreshEffect(w.server, w.disk, now, outcome), now)
    case Restarting(now) => if Startable(w.disk) then Start(w.disk, now) else w
  }

  ghost function Run(w: World, events: seq<Event>): World {
    if events == [] then w else Step(Run(w, events[..|events| - 1]), events[|events| - 1])
  }

  /** The clock never goes back. */
  ghost predicate Timely(clock: u64, events: seq<Event>) {
    && (events != [] ==> clock <= events[0].now)
    && (forall i, j :: 0 <= i < j < |events| ==> events[i].now <= events[j].now)
  }

  // ---- Crash refinement ----

  /** A restart now or later gives exactly the claims in memory: same tokens, ports, addresses,
      retired lists and recovery keys, Active demoted to Grace, only lapsed claims dropped. */
  ghost predicate Mirrors(w: World)
    requires Startable(w.disk)
  {
    forall late: u64 | w.clock <= late ::
      StartTable(w.disk, late).leases == Demoted(w.server.table.leases, w.savedAt, late)
  }

  ghost predicate Durable(w: World) {
    && ValidTable(w.server.table)
    && Startable(w.disk)
    && w.savedAt <= w.clock
    && (w.server.healthy ==> Mirrors(w))
  }

  lemma StartIsDurable(disk: Disk, now: u64)
    requires Startable(disk)
    ensures Durable(Start(disk, now))
  {
    var w := Start(disk, now);
    if disk.Some? {
      LoadedIsValid(disk.value, now);
      forall late: u64 | now <= late
        ensures StartTable(disk, late).leases == Demoted(w.server.table.leases, w.savedAt, late)
      {
        LoadedLater(disk.value, now, w.savedAt, late);
      }
    }
  }

  /** A save that succeeds makes the disk the mirror of what it saved. */
  lemma SavedMirrors(t: Table, now: u64)
    requires ValidTable(t)
    ensures Startable(Some(ImageOf(t.leases, now)))
    ensures forall late: u64 :: StartTable(Some(ImageOf(t.leases, now)), late).leases == Demoted(t.leases, now, late)
  {
    LoadSaved(t, now, now);
    forall late: u64
      ensures StartTable(Some(ImageOf(t.leases, now)), late).leases == Demoted(t.leases, now, late)
    {
      LoadSaved(t, now, late);
    }
  }

  /** Committing a valid table: durable if the save worked, and startable however it failed. */
  lemma CommitIsDurable<T>(w: World, before: Server, staged: Table, now: u64, outcome: SaveOutcome, after: Server, reply: T)
    requires Startable(w.disk) && w.savedAt <= w.clock <= now
    requires ValidTable(before.table) && ValidTable(staged) && after.table == staged
    ensures var w' := After(w, Committed(before, w.disk, staged, now, outcome, after, reply), now);
            && Durable(w')
            && w'.server == (if outcome.Written? then after else before.(healthy := false))
            && (w'.savedAt == if outcome.Written? then now else w.savedAt)
  {
    SavedMirrors(staged, now);
  }

  /** Reaping in memory without saving keeps the mirror. */
  lemma ReapIsDurable(w: World, now: u64)
    requires Durable(w) && w.clock <= now
    ensures Durable(World(w.server.(table := Reaped(w.server.table, now)), w.disk, now, w.savedAt))
  {
    ReapedKeeps(w.server.table, now);
    if w.server.healthy {
      forall late: u64 | now <= late
        ensures StartTable(w.disk, late).leases == Demoted(Reap(w.server.table.leases, now), w.savedAt, late)
      {
        ReapInvisible(w.server.table.leases, w.savedAt, now, late);
      }
    }
  }

  lemma WaitingIsDurable(w: World, now: u64)
    requires Durable(w) && w.clock <= now
    ensures Durable(w.(clock := now))
  {
  }

  /** A registration goes as far as staging a bound port, or it changes nothing but the reaping. */
  lemma RegisterCases(s: Server, disk: Disk, id: TokenId, recovery: Option<TokenId>, ip: IpAddr, now: u64,
                      connection: Option<Connection>, binds: Binds, outcome: SaveOutcome)
    returns (port: Option<u16>)
    ensures var effect := RegisterEffect(s, disk, id, recovery, ip, now, connection, binds, outcome);
            var s' := s.(table := Reaped(s.table, now));
            match port
            case None => (effect.server == s || effect.server == s') && effect.disk == disk && !effect.saved && effect.reply.Err?
            case Some(p) => s.healthy && effect == StageEffect(s', disk, id, recovery, ip, p, now, connection, outcome)
  {
    port := None;
    if s.healthy {
      var candidates := CandidatesIn(Reap(s.table.leases, now), id, ip);
      if candidates.Ok? && ScanPorts(candidates.value, binds).Took? {
        port := Some(ScanPorts(candidates.value, binds).port);
      }
    }
  }

  lemma StageIsDurable(w: World, s: Server, id: TokenId, recovery: Option<TokenId>, ip: IpAddr, port: u16, now: u64,
                       connection: Option<Connection>, outcome: SaveOutcome)
    requires Durable(World(s, w.disk, now, w.savedAt)) && w.savedAt <= w.clock <= now
    ensures Durable(After(w, StageEffect(s, w.disk, id, recovery, ip, port, now, connection, outcome), now))
  {
    ActivatedKeepsClaims(s.table, id, recovery, ip, port, now);
    ActivatedKeepsSessions(s.table, id, recovery, ip, port, now);
    var (staged, session) := Activated(s.table, id, recovery, ip, port, now);
    if session.Ok? {
      var connections := if connection.Some? then s.connections[id := (session.value, connection.value)]
                         else s.connections;
      CommitIsDurable(w, s, staged, now, outcome, Server(staged, true, connections),
                      Registration(port, id, session.value));
    }
  }

  lemma RegisterIsDurable(w: World, id: TokenId, recovery: Option<TokenId>, ip: IpAddr, now: u64,
                          connection: Option<Connection>, binds: Binds, outcome: SaveOutcome)
    requires Durable(w) && w.clock <= now
    ensures Durable(After(w, RegisterEffect(w.server, w.disk, id, recovery, ip, now, connection, binds, outcome), now))
  {
    WaitingIsDurable(w, now);
    ReapIsDurable(w, now);
    var port := RegisterCases(w.server, w.disk, id, recovery, ip, now, connection, binds, outcome);
    if port.Some? {
      StageIsDurable(w, w.server.(table := Reaped(w.server.table, now)), id, recovery, ip, port.value, now,
                     connection, outcome);
    }
  }

  lemma EndIsDurable(w: World, id: TokenId, session: u64, now: u64, outcome: SaveOutcome)
    requires Durable(w) && w.clock <= now
    ensures Durable(After(w, EndEffect(w.server, w.disk, id, session, now, outcome), now))
  {
    WaitingIsDurable(w, now);
    EndedKeeps(w.server.table, id, session, now);
    var (table, ended) := Ended(w.server.table, id, session, now);
    if ended {
      var s' := w.server.(table := table, connections := WithoutSession(w.server.connections, id, session));
      CommitIsDurable(w, s', table, now, outcome, s', true);
    }
  }

  lemma RotateIsDurable(w: World, former: TokenId, next: TokenId, now: u64, outcome: SaveOutcome)
    requires Durable(w) && w.clock <= now
    ensures Durable(After(w, RotateEffect(w.server, w.disk, former, next, now, outcome), now))
  {
    WaitingIsDurable(w, now);
    RotatedKeeps(w.server.table, former, next, now);
    var (staged, result) := Rotated(w.server.table, former, next, now);
    if w.server.healthy && result.Ok? && result.value.Transferred? {
      CommitIsDurable(w, w.server, staged, now, outcome, w.server.(table := staged), Some(result.value.port));
    }
  }

  lemma RecoverIsDurable(w: World, key: TokenId, next: TokenId, ip: IpAddr, now: u64, outcome: SaveOutcome)
    requires Durable(w) && w.clock <= now
    ensures Durable(After(w, RecoverEffect(w.server, w.disk, key, next, ip, now, outcome), now))
  {
    WaitingIsDurable(w, now);
    RecoveredKeeps(w.server.table, key, next, ip, now);
    var (staged, result) := Recovered(w.server.table, key, next, ip, now);
    if w.server.healthy && result.Ok? && result.value.changed {
      var (connections, closed) := Displaced(w.server.connections, result.value.displaced);
      CommitIsDurable(w, w.server, staged, now, outcome, w.server.(table := staged, connections := connections),
                      (result.value.port, closed));
    }
  }

  lemma RefreshIsDurable(w: World, now: u64, outcome: SaveOutcome)
    requires Durable(w) && w.clock <= now
    ensures Durable(After(w, RefreshEffect(w.server, w.disk, now, outcome), now))
  {
    ReapedKeeps(w.server.table, now);
    var s' := w.server.(table := Reaped(w.server.table, now));
    CommitIsDurable(w, s', s'.table, now, outcome, s'.(healthy := true), ());
  }

  lemma StepIsDurable(w: World, e: Event)
    requires Durable(w) && w.clock <= e.now
    ensures Durable(Step(w, e)) && Step(w, e).clock == e.now
  {
    match e
    case Registering(id, recovery, ip, connection, binds, now, outcome) =>
      RegisterIsDurable(w, id, recovery, ip, now, connection, binds, outcome);
    case Ending(id, session, now, outcome) => EndIsDurable(w, id, session, now, outcome);
    case Rotating(former, next, now, outcome) => RotateIsDurable(w, former, next, now, outcome);
    case Recovering(key, next, ip, now, outcome) => RecoverIsDurable(w, key, next, ip, now, outcome);
    case Refreshing(now, outcome) => RefreshIsDurable(w, now, outcome);
    case Restarting(now) => StartIsDurable(w.disk, now);
  }

  lemma TimelyPrefix(clock: u64, events: seq<Event>)
    requires Timely(clock, events) && events != []
    ensures Timely(clock, events[..|events| - 1])
  {
  }

  /** Crash refinement over whole runs, with saves that fail before or after writing and with
      restarts anywhere: the disk can always be started from, and whenever the relay thinks its
      storage is healthy, a restart gives exactly the claims in memory. */
  lemma {:induction false} RunIsDurable(w: World, events: seq<Event>)
    requires Durable(w) && Timely(w.clock, events)
    ensures Durable(Run(w, events))
    ensures Run(w, events).clock == if events == [] then w.clock else events[|events| - 1].now
  {
    if events != [] {
      var n := |events| - 1;
      TimelyPrefix(w.clock, events);
      RunIsDurable(w, events[..n]);
      assert n > 0 ==> events[..n][n - 1] == events[n - 1];
      StepIsDurable(Run(w, events[..n]), events[n]);
    }
  }

  lemma ClockBeforeLast(w: World, events: seq<Event>)
    requires Durable(w) && Timely(w.clock, events) && events != []
    ensures var n := |events| - 1; Durable(Run(w, events[..n])) && Run(w, events[..n]).clock <= events[n].now
  {
    var n := |events| - 1;
    TimelyPrefix(w.clock, events);
    RunIsDurable(w, events[..n]);
    assert n > 0 ==> events[..n][n - 1] == events[n - 1];
  }
}

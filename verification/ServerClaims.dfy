/** Claims through whole runs of the relay, with failing saves and restarts at any time, also while
    storage is in trouble (crates/server/src/state.rs, crates/server/src/lease.rs). Each event of
    the relay is at most one operation on the table in memory; what the disk holds is followed
    beside it, since a failed save may leave the disk one operation behind memory or ahead of it. */
module ServerClaims {
  import opened Common
  import opened HostAdmission
  import opened Leases
  import opened LeaseInvariants
  import opened LeaseRecords
  import opened LeaseStores
  import opened ServerStates
  import opened Durability
  import opened RunProperties
  import opened ClaimHistory

  // ---- What an event does to the table ----

  /** The operation that `e` is on the table in memory, if it touches it. */
  ghost function OpOf(w: World, e: Event): Option<Op>
    requires !e.Restarting?
  {
    match e
    case Registering(id, recovery, ip, connection, binds, now, outcome) =>
      var reply := RegisterEffect(w.server, w.disk, id, recovery, ip, now, connection, binds, outcome).reply;
      if !w.server.healthy then None
      else if reply.Ok? then Some(Activating(id, recovery, ip, reply.value.port, now))
      else Some(Offering(id, ip, now))
    case Ending(id, session, now, outcome) => Some(Stopping(id, session, now))
    case Rotating(former, next, now, outcome) =>
      if RotateEffect(w.server, w.disk, former, next, now, outcome).saved then Some(Moving(former, next, now)) else None
    case Recovering(key, next, ip, now, outcome) =>
      if RecoverEffect(w.server, w.disk, key, next, ip, now, outcome).saved then Some(Op.Recovering(key, next, ip, now))
      else None
    case Refreshing(now, outcome) => Some(Reaping(now))
  }

  /** Whether `e` gets as far as saving. */
  ghost predicate Saves(w: World, e: Event)
    requires !e.Restarting?
  {
    match e
    case Registering(id, recovery, ip, connection, binds, now, _) =>
      RegisterEffect(w.server, w.disk, id, recovery, ip, now, connection, binds, Written).saved
    case Ending(id, session, now, _) => EndEffect(w.server, w.disk, id, session, now, Written).saved
    case Rotating(former, next, now, _) => RotateEffect(w.server, w.disk, former, next, now, Written).saved
    case Recovering(key, next, ip, now, _) => RecoverEffect(w.server, w.disk, key, next, ip, now, Written).saved
    case Refreshing(_, _) => true
  }

  ghost function ApplyOp(t: Table, op: Option<Op>): Table {
    if op.Some? then Apply(t, op.value) else t
  }

  lemma EventIsOp(w: World, e: Event)
    requires !e.Restarting?
    ensures Step(w, e).server.table == ApplyOp(w.server.table, OpOf(w, e))
  {
    match e
    case Registering(id, recovery, ip, connection, binds, now, outcome) =>
      RegistrationIsOp(w, id, recovery, ip, now, connection, binds, outcome);
    case Recovering(key, next, ip, now, outcome) => RecoveryIsOp(w, key, next, ip, now, outcome);
    case _ =>
  }

  lemma ReapingTwice(t: Table, id: TokenId, recovery: Option<TokenId>, ip: IpAddr, port: u16, now: u64)
    ensures Activated(Reaped(t, now), id, recovery, ip, port, now) == Activated(t, id, recovery, ip, port, now)
  {
    assert Reap(Reap(t.leases, now), now) == Reap(t.leases, now);
    assert Reaped(Reaped(t, now), now) == Reaped(t, now);
  }

  lemma StageIsOp(s: Server, disk: Disk, id: TokenId, recovery: Option<TokenId>, ip: IpAddr, port: u16, now: u64,
                  connection: Option<Connection>, outcome: SaveOutcome)
    ensures var effect := StageEffect(s, disk, id, recovery, ip, port, now, connection, outcome);
            && effect.server.table == (if effect.reply.Err? then s.table else Activated(s.table, id, recovery, ip, port, now).0)
            && (effect.reply.Ok? ==> effect.reply.value.port == port)
  {
  }

  /** A registration reaps the table, and no more unless it is answered with a port. */
  lemma RegistrationIsOp(w: World, id: TokenId, recovery: Option<TokenId>, ip: IpAddr, now: u64,
                         connection: Option<Connection>, binds: Binds, outcome: SaveOutcome)
    ensures var effect := RegisterEffect(w.server, w.disk, id, recovery, ip, now, connection, binds, outcome);
            effect.server.table ==
              if !w.server.healthy then w.server.table
              else if effect.reply.Err? then Reaped(w.server.table, now)
              else Activated(w.server.table, id, recovery, ip, effect.reply.value.port, now).0
  {
    var s := w.server.(table := Reaped(w.server.table, now));
    var port := RegisterCases(w.server, w.disk, id, recovery, ip, now, connection, binds, outcome);
    if port.Some? {
      StageIsOp(s, w.disk, id, recovery, ip, port.value, now, connection, outcome);
      ReapingTwice(w.server.table, id, recovery, ip, port.value, now);
    }
  }

  lemma RecoveryIsOp(w: World, key: TokenId, next: TokenId, ip: IpAddr, now: u64, outcome: SaveOutcome)
    ensures var effect := RecoverEffect(w.server, w.disk, key, next, ip, now, outcome);
            effect.server.table ==
              if effect.saved then Recovered(w.server.table, key, next, ip, now).0 else w.server.table
  {
  }

  /** The disk changes only by a save that reaches its rename, and then to what the event was to
      leave in memory. */
  lemma EventDisk(w: World, e: Event)
    requires !e.Restarting?
    ensures Step(w, e).disk ==
              if Saves(w, e) && !e.outcome.FailedBeforeRename?
              then Some(ImageOf(Step(w, Succeeding(e)).server.table.leases, e.now))
              else w.disk
  {
    match e
    case Registering(id, recovery, ip, connection, binds, now, outcome) =>
      var port := RegisterCases(w.server, w.disk, id, recovery, ip, now, connection, binds, outcome);
    case Recovering(key, next, ip, now, outcome) => RecoveryDisk(w, key, next, ip, now, outcome);
    case _ =>
  }

  lemma RecoveryDisk(w: World, key: TokenId, next: TokenId, ip: IpAddr, now: u64, outcome: SaveOutcome)
    ensures var done := RecoverEffect(w.server, w.disk, key, next, ip, now, Written);
            RecoverEffect(w.server, w.disk, key, next, ip, now, outcome).disk ==
              if done.saved && !outcome.FailedBeforeRename? then Some(ImageOf(done.server.table.leases, now)) else w.disk
  {
  }

  // ---- What a run does to the table ----

  /** The operations that made the table in memory and the one on disk, and when that was written. */
  datatype Trace = Trace(memory: seq<Op>, disk: seq<Op>, writtenAt: u64)

  ghost function Extended(ops: seq<Op>, op: Option<Op>): seq<Op> {
    if op.Some? then ops + [op.value] else ops
  }

  ghost function TraceStep(w: World, e: Event, r: Trace): Trace {
    if e.Restarting? then r.(memory := r.disk + [Restoring(r.writtenAt, e.now)])
    else
      var memory := Extended(r.memory, OpOf(w, e));
      if Saves(w, e) && !e.outcome.FailedBeforeRename? then
        Trace(memory, Extended(r.memory, OpOf(w, Succeeding(e))), e.now)
      else r.(memory := memory)
  }

  ghost function TraceOf(w: World, events: seq<Event>): Trace {
    if events == [] then Trace([], [], w.savedAt)
    else
      var n := |events| - 1;
      TraceStep(Run(w, events[..n]), events[n], TraceOf(w, events[..n]))
  }

  /** A restart at `clock` or later brings back the claims `m`, as they were written. */
  ghost predicate BringsBack(disk: Disk, clock: u64, m: Claims, writtenAt: u64) {
    && Startable(disk)
    && forall late: u64 | clock <= late :: StartTable(disk, late).leases == Demoted(m, writtenAt, late)
  }

  /** The trace gives the table in memory, and whatever a restart now or later would make of the disk. */
  ghost predicate Explains(t: Table, w: World, r: Trace) {
    ApplyAll(t, r.memory) == w.server.table && BringsBack(w.disk, w.clock, ApplyAll(t, r.disk).leases, r.writtenAt)
  }

  lemma ExtendedApplies(t: Table, ops: seq<Op>, op: Option<Op>)
    ensures ApplyAll(t, Extended(ops, op)) == ApplyOp(ApplyAll(t, ops), op)
  {
    if op.Some? {
      assert (ops + [op.value])[..|ops|] == ops;
    }
  }

  lemma StartNumbersFromZero(disk: Disk, now: u64)
    requires Startable(disk)
    ensures StartTable(disk, now) == Table(StartTable(disk, now).leases, 0)
  {
  }

  lemma RestoringApplies(t: Table, ops: seq<Op>, savedAt: u64, now: u64)
    ensures ApplyAll(t, ops + [Restoring(savedAt, now)]) == Table(Demoted(ApplyAll(t, ops).leases, savedAt, now), 0)
  {
    ExtendedApplies(t, ops, Some(Restoring(savedAt, now)));
  }

  lemma BringsBackLater(disk: Disk, clock: u64, m: Claims, writtenAt: u64, now: u64)
    requires BringsBack(disk, clock, m, writtenAt) && clock <= now
    ensures BringsBack(disk, now, m, writtenAt)
    ensures StartTable(disk, now) == Table(Demoted(m, writtenAt, now), 0)
  {
    StartNumbersFromZero(disk, now);
  }

  lemma RestartWorld(w: World, now: u64)
    requires Startable(w.disk)
    ensures var w' := Step(w, Restarting(now)); w'.server.table == StartTable(w.disk, now) && w'.disk == w.disk && w'.clock == now
  {
  }

  lemma RestartIsExplained(t: Table, w: World, now: u64, r: Trace)
    requires w.clock <= now && Explains(t, w, r)
    ensures Explains(t, Step(w, Restarting(now)), r.(memory := r.disk + [Restoring(r.writtenAt, now)]))
  {
    var m := ApplyAll(t, r.disk).leases;
    RestoringApplies(t, r.disk, r.writtenAt, now);
    BringsBackLater(w.disk, w.clock, m, r.writtenAt, now);
    RestartWorld(w, now);
  }

  lemma SaveIsExplained(t: Table, w: World, e: Event, r: Trace)
    requires Durable(w) && w.clock <= e.now && Explains(t, w, r) && !e.Restarting?
    requires Saves(w, e) && !e.outcome.FailedBeforeRename?
    ensures BringsBack(Step(w, e).disk, e.now, ApplyAll(t, TraceStep(w, e, r).disk).leases, e.now)
  {
    var done := Step(w, Succeeding(e));
    StepIsDurable(w, Succeeding(e));
    EventIsOp(w, Succeeding(e));
    ExtendedApplies(t, r.memory, OpOf(w, Succeeding(e)));
    EventDisk(w, e);
    SavedMirrors(done.server.table, e.now);
  }

  lemma StepIsExplained(t: Table, w: World, e: Event, r: Trace)
    requires Durable(w) && w.clock <= e.now && Explains(t, w, r)
    ensures Explains(t, Step(w, e), TraceStep(w, e, r))
  {
    if e.Restarting? {
      RestartIsExplained(t, w, e.now, r);
    } else {
      StepIsDurable(w, e);
      EventIsOp(w, e);
      ExtendedApplies(t, r.memory, OpOf(w, e));
      EventDisk(w, e);
      if Saves(w, e) && !e.outcome.FailedBeforeRename? {
        SaveIsExplained(t, w, e, r);
      }
    }
  }

  /** Crash refinement without regard to health: after every run the table in memory is what the
      trace makes of the first one, and so is everything a restart would bring back. */
  lemma {:induction false} RunIsExplained(w: World, events: seq<Event>)
    requires Durable(w) && w.server.healthy && Timely(w.clock, events)
    ensures Explains(w.server.table, Run(w, events), TraceOf(w, events))
  {
    if events != [] {
      var n := |events| - 1;
      TimelyPrefix(w.clock, events);
      RunIsExplained(w, events[..n]);
      ClockBeforeLast(w, events);
      StepIsExplained(w.server.table, Run(w, events[..n]), events[n], TraceOf(w, events[..n]));
    }
  }

  lemma OneMoreEvent(w: World, events: seq<Event>, e: Event)
    ensures Run(w, events + [e]) == Step(Run(w, events), e)
    ensures TraceOf(w, events + [e]) == TraceStep(Run(w, events), e, TraceOf(w, events))
  {
    assert (events + [e])[..|events|] == events;
  }

  lemma TimelySoFar(clock: u64, events: seq<Event>, e: Event)
    requires Timely(clock, events + [e])
    ensures Timely(clock, events)
  {
    assert (events + [e])[..|events|] == events;
    TimelyPrefix(clock, events + [e]);
  }

  // ---- Following a claim through a run ----

  /** The key that holds, after the run, the claim that `k` held before it. */
  ghost function Holder(w: World, events: seq<Event>, k: TokenId): Option<TokenId>
    requires Durable(w) && k in w.server.table.leases
  {
    FollowAll(w.server.table, TraceOf(w, events).memory, k)
  }

  /** The key that the disk has for it. */
  ghost function DiskHolder(w: World, events: seq<Event>, k: TokenId): Option<TokenId>
    requires Durable(w) && k in w.server.table.leases
  {
    FollowAll(w.server.table, TraceOf(w, events).disk, k)
  }

  /** `e` asks for the claim of `former` to move, and may: the holder itself rotates a claim in
      grace that never changed keys, or the enrolled key is presented. */
  ghost predicate MayMove(t: Table, e: Event, former: TokenId)
    requires former in t.leases
  {
    || (e.Rotating? && e.former == former && t.leases[former].status.Grace? && t.leases[former].retired == [])
    || (e.Recovering? && t.leases[former].recoveryId == Some(e.key))
  }

  /** `e` moves the claim of `former` to `e.next`: it is a rotation of `former`, or a recovery with
      the key of its claim, and it was saved. */
  ghost predicate Moves(w: World, e: Event, former: TokenId)
    requires former in w.server.table.leases
  {
    match e
    case Rotating(holder, next, now, outcome) =>
      holder == former && RotateEffect(w.server, w.disk, holder, next, now, outcome).saved
    case Recovering(key, next, ip, now, outcome) =>
      w.server.table.leases[former].recoveryId == Some(key)
      && RecoverEffect(w.server, w.disk, key, next, ip, now, outcome).saved
    case _ => false
  }

  /** The operation `op`, done for `e`, moves the claim of `former` exactly if `moves`. */
  ghost predicate Serves(t: Table, op: Op, e: Event, former: TokenId, moves: bool)
    requires former in t.leases
  {
    && op.now == e.now && !op.Restoring? && (op.Stopping? ==> !moves)
    && (!Expired(t.leases[former], e.now) ==>
          (moves <==> Transfer(t, op).Some? && Transfer(t, op).value.0 == former))
    && (Transfer(t, op).Some? ==> (e.Rotating? || e.Recovering?) && Transfer(t, op).value.1 == e.next)
    && (moves ==> MayMove(t, e, former))
  }

  lemma RotationServes(w: World, e: Event, former: TokenId)
    requires e.Rotating? && former in w.server.table.leases
    ensures var op := OpOf(w, e);
            if op.Some? then Serves(w.server.table, op.value, e, former, Moves(w, e, former)) else !Moves(w, e, former)
  {
  }

  lemma RecoveryServes(w: World, e: Event, former: TokenId)
    requires e.Recovering? && former in w.server.table.leases && RecoveryOk(w.server.table.leases)
    ensures var op := OpOf(w, e);
            if op.Some? then Serves(w.server.table, op.value, e, former, Moves(w, e, former)) else !Moves(w, e, former)
  {
    var m := Reap(w.server.table.leases, e.now);
    if former in m && m[former].recoveryId == Some(e.key) {
      KeyHolderIsUnique(m, e.key, former);
    }
  }

  lemma OpServes(w: World, e: Event, former: TokenId)
    requires !e.Restarting? && former in w.server.table.leases && RecoveryOk(w.server.table.leases)
    ensures var op := OpOf(w, e);
            if op.Some? then Serves(w.server.table, op.value, e, former, Moves(w, e, former)) else !Moves(w, e, former)
  {
    match e
    case Rotating(_, _, _, _) => RotationServes(w, e, former);
    case Recovering(_, _, _, _, _) => RecoveryServes(w, e, former);
    case _ =>
  }

  lemma FollowExtended(t: Table, ops: seq<Op>, op: Op, k: TokenId)
    requires ValidTable(t) && k in t.leases
    ensures FollowAll(t, ops + [op], k) ==
              if FollowAll(t, ops, k).None? then None else Follow(ApplyAll(t, ops), op, FollowAll(t, ops, k).value)
  {
    assert (ops + [op])[..|ops|] == ops;
  }

  lemma MemoryOfRun(w: World, events: seq<Event>)
    requires Durable(w) && w.server.healthy && Timely(w.clock, events)
    ensures ApplyAll(w.server.table, TraceOf(w, events).memory) == Run(w, events).server.table
  {
    RunIsExplained(w, events);
  }

  /** What one more event adds to the operations on the table in memory. */
  lemma MemoryAcross(w: World, events: seq<Event>, e: Event) returns (op: Option<Op>)
    requires Durable(w) && w.server.healthy && Timely(w.clock, events + [e]) && !e.Restarting?
    ensures TraceOf(w, events + [e]).memory == Extended(TraceOf(w, events).memory, op)
    ensures ApplyAll(w.server.table, TraceOf(w, events).memory) == Run(w, events).server.table
    ensures forall k | k in Run(w, events).server.table.leases ::
              var t, moves := Run(w, events).server.table, Moves(Run(w, events), e, k);
              if op.Some? then Serves(t, op.value, e, k, moves) else !moves
  {
    TimelySoFar(w.clock, events, e);
    OneMoreEvent(w, events, e);
    MemoryOfRun(w, events);
    RunIsDurable(w, events);
    var m := Run(w, events);
    op := OpOf(m, e);
    forall k | k in m.server.table.leases
      ensures if op.Some? then Serves(m.server.table, op.value, e, k, Moves(m, e, k)) else !Moves(m, e, k)
    {
      OpServes(m, e, k);
    }
  }

  lemma FollowServed(t: Table, ops: seq<Op>, op: Op, e: Event, k: TokenId, moves: bool)
    requires ValidTable(t) && k in t.leases && FollowAll(t, ops, k).Some?
    requires Serves(ApplyAll(t, ops), op, e, FollowAll(t, ops, k).value, moves)
    ensures var m, former, next := ApplyAll(t, ops), FollowAll(t, ops, k).value, FollowAll(t, ops + [op], k);
            && (next.None? ==> Expired(m.leases[former], e.now))
            && (next.Some? ==> next == Some(if moves then e.next else former))
  {
    FollowExtended(t, ops, op, k);
  }

  /** One event that is no restart: the claim is lost only if its grace has run out; otherwise it
      keeps its holder, or goes where this very event moves it, which only a rotation from its
      holder, in grace and never moved before, or a recovery with its enrolled key can do. */
  lemma HolderAcross(w: World, events: seq<Event>, e: Event, k: TokenId)
    requires Durable(w) && w.server.healthy && k in w.server.table.leases
    requires Timely(w.clock, events + [e]) && !e.Restarting? && Holder(w, events, k).Some?
    ensures var m, former, next := Run(w, events), Holder(w, events, k).value, Holder(w, events + [e], k);
            && former in m.server.table.leases
            && (next.None? ==> Expired(m.server.table.leases[former], e.now))
            && (Moves(m, e, former) ==> MayMove(m.server.table, e, former))
            && (next.Some? ==> next == Some(if Moves(m, e, former) then e.next else former))
  {
    var op := MemoryAcross(w, events, e);
    if op.Some? {
      FollowServed(w.server.table, TraceOf(w, events).memory, op.value, e, k,
                   Moves(Run(w, events), e, Holder(w, events, k).value));
    }
  }

  /** A claim that is lost stays lost until a restart. */
  lemma LostStaysLost(w: World, events: seq<Event>, e: Event, k: TokenId)
    requires Durable(w) && w.server.healthy && k in w.server.table.leases
    requires Timely(w.clock, events + [e]) && !e.Restarting? && Holder(w, events, k).None?
    ensures Holder(w, events + [e], k).None?
  {
    var op := MemoryAcross(w, events, e);
    if op.Some? {
      FollowExtended(w.server.table, TraceOf(w, events).memory, op.value, k);
    }
  }

  lemma StepDisk(w: World, e: Event, r: Trace)
    requires !e.Restarting?
    ensures TraceStep(w, e, r).disk ==
              if Saves(w, e) && !e.outcome.FailedBeforeRename? then TraceStep(w, Succeeding(e), r).memory else r.disk
  {
  }

  lemma DiskAcross(w: World, events: seq<Event>, e: Event)
    requires !e.Restarting?
    ensures TraceOf(w, events + [e]).disk ==
              if Saves(Run(w, events), e) && !e.outcome.FailedBeforeRename? then TraceOf(w, events + [Succeeding(e)]).memory
              else TraceOf(w, events).disk
  {
    OneMoreEvent(w, events, e);
    OneMoreEvent(w, events, Succeeding(e));
    StepDisk(Run(w, events), e, TraceOf(w, events));
  }

  /** The same event on disk: it changes nothing there, or leaves there the holder it was to leave
      in memory. */
  lemma DiskHolderAcross(w: World, events: seq<Event>, e: Event, k: TokenId)
    requires Durable(w) && k in w.server.table.leases && !e.Restarting?
    ensures DiskHolder(w, events + [e], k) ==
              if Saves(Run(w, events), e) && !e.outcome.FailedBeforeRename? then Holder(w, events + [Succeeding(e)], k)
              else DiskHolder(w, events, k)
  {
    DiskAcross(w, events, e);
  }

  lemma RestoringKeeps(t: Table, savedAt: u64, now: u64, k: TokenId)
    requires k in t.leases
    ensures Follow(t, Restoring(savedAt, now), k) == if k in Demoted(t.leases, savedAt, now) then Some(k) else None
  {
  }

  lemma FollowRestoring(t: Table, ops: seq<Op>, savedAt: u64, now: u64, k: TokenId)
    requires ValidTable(t) && k in t.leases
    ensures var holder := FollowAll(t, ops, k);
            FollowAll(t, ops + [Restoring(savedAt, now)], k) ==
              if holder.Some? && holder.value in Demoted(ApplyAll(t, ops).leases, savedAt, now) then holder else None
  {
    FollowExtended(t, ops, Restoring(savedAt, now), k);
    if FollowAll(t, ops, k).Some? {
      RestoringKeeps(ApplyAll(t, ops), savedAt, now, FollowAll(t, ops, k).value);
    }
  }

  lemma RestartAcross(w: World, events: seq<Event>, now: u64)
    ensures var r, r' := TraceOf(w, events), TraceOf(w, events + [Restarting(now)]);
            r'.memory == r.disk + [Restoring(r.writtenAt, now)] && r'.disk == r.disk
  {
    OneMoreEvent(w, events, Restarting(now));
  }

  lemma RestartBrings(w: World, events: seq<Event>, late: u64)
    requires Durable(w) && w.server.healthy && Timely(w.clock, events) && Run(w, events).clock <= late
    ensures var r := TraceOf(w, events);
            && Startable(Run(w, events).disk)
            && StartTable(Run(w, events).disk, late).leases ==
               Demoted(ApplyAll(w.server.table, r.disk).leases, r.writtenAt, late)
  {
    RunIsExplained(w, events);
  }

  /** A restart: the claim goes to whoever the disk has, and is lost exactly if the disk has lost it
      or its time there has run out. The disk stays. */
  lemma HolderAcrossRestart(w: World, events: seq<Event>, now: u64, k: TokenId)
    requires Durable(w) && w.server.healthy && k in w.server.table.leases
    requires Timely(w.clock, events) && Run(w, events).clock <= now
    ensures var holder := DiskHolder(w, events, k); var m := Run(w, events);
            && Startable(m.disk)
            && Holder(w, events + [Restarting(now)], k) ==
                 (if holder.Some? && holder.value in StartTable(m.disk, now).leases then holder else None)
            && DiskHolder(w, events + [Restarting(now)], k) == holder
  {
    RestartBrings(w, events, now);
    RestartAcross(w, events, now);
    FollowRestoring(w.server.table, TraceOf(w, events).disk, TraceOf(w, events).writtenAt, now, k);
  }

  /** `k` holds a claim on the port of `claim` with the recovery key of `claim`, and nobody else is
      on that port. */
  ghost predicate KeepsClaim(m: Claims, k: TokenId, claim: Lease) {
    k in m && SameClaim(claim, m[k]) && forall other | other in m && other != k :: m[other].port != claim.port
  }

  lemma FollowKeeps(t: Table, ops: seq<Op>, k: TokenId)
    requires ValidTable(t) && k in t.leases && FollowAll(t, ops, k).Some?
    ensures KeepsClaim(ApplyAll(t, ops).leases, FollowAll(t, ops, k).value, t.leases[k])
  {
    ApplyAllKeepsValid(t, ops);
  }

  /** Port exclusivity and recovery-key stability over whole runs of the relay, whatever saves fail
      and whenever it restarts: as long as the claim is followed it is in memory, on its port, with
      its recovery key, and every other claim is on another port. */
  lemma ServerRunKeepsClaims(w: World, events: seq<Event>, k: TokenId)
    requires Durable(w) && w.server.healthy && Timely(w.clock, events) && k in w.server.table.leases
    requires Holder(w, events, k).Some?
    ensures KeepsClaim(Run(w, events).server.table.leases, Holder(w, events, k).value, w.server.table.leases[k])
  {
    MemoryOfRun(w, events);
    FollowKeeps(w.server.table, TraceOf(w, events).memory, k);
  }

  /** And so is the claim that the disk has, in every later restart that brings it back. */
  lemma ServerRunKeepsClaimsOnDisk(w: World, events: seq<Event>, k: TokenId, late: u64)
    requires Durable(w) && w.server.healthy && Timely(w.clock, events) && k in w.server.table.leases
    requires Run(w, events).clock <= late && DiskHolder(w, events, k).Some?
    ensures Startable(Run(w, events).disk)
    ensures var restarted := StartTable(Run(w, events).disk, late).leases;
            DiskHolder(w, events, k).value in restarted ==>
              KeepsClaim(restarted, DiskHolder(w, events, k).value, w.server.table.leases[k])
  {
    RestartBrings(w, events, late);
    FollowKeeps(w.server.table, TraceOf(w, events).disk, k);
  }

  /** The next event does not find the claim lapsed: neither its grace in memory, nor, at a restart,
      its time on disk has run out. */
  ghost predicate NotLapsed(w: World, events: seq<Event>, e: Event, k: TokenId)
    requires Durable(w) && k in w.server.table.leases
  {
    var m := Run(w, events);
    if e.Restarting? then
      var holder := DiskHolder(w, events, k);
      Startable(m.disk) && holder.Some? && holder.value in StartTable(m.disk, e.now).leases
    else
      var holder := Holder(w, events, k);
      holder.Some? && holder.value in m.server.table.leases ==> !Expired(m.server.table.leases[holder.value], e.now)
  }

  ghost predicate NeverLapses(w: World, events: seq<Event>, k: TokenId)
    requires Durable(w) && k in w.server.table.leases
  {
    events != [] ==>
      var n := |events| - 1;
      NotLapsed(w, events[..n], events[n], k) && NeverLapses(w, events[..n], k)
  }

  lemma OneMoreHeld(w: World, events: seq<Event>, e: Event, k: TokenId)
    requires Durable(w) && w.server.healthy && k in w.server.table.leases && Timely(w.clock, events + [e])
    requires NotLapsed(w, events, e, k) && Holder(w, events, k).Some?
    ensures Holder(w, events + [e], k).Some?
  {
    if e.Restarting? {
      assert (events + [e])[..|events|] == events;
      TimelySoFar(w.clock, events, e);
      ClockBeforeLast(w, events + [e]);
      HolderAcrossRestart(w, events, e.now, k);
    } else {
      HolderAcross(w, events, e, k);
    }
  }

  lemma LastHeld(w: World, events: seq<Event>, k: TokenId)
    requires Durable(w) && w.server.healthy && k in w.server.table.leases && Timely(w.clock, events) && events != []
    requires var n := |events| - 1; NotLapsed(w, events[..n], events[n], k) && Holder(w, events[..n], k).Some?
    ensures Holder(w, events, k).Some?
  {
    var n := |events| - 1;
    assert events[..n] + [events[n]] == events;
    OneMoreHeld(w, events[..n], events[n], k);
  }

  lemma {:induction false} FollowedThroughRun(w: World, events: seq<Event>, k: TokenId)
    requires Durable(w) && w.server.healthy && Timely(w.clock, events) && k in w.server.table.leases
    requires NeverLapses(w, events, k)
    ensures Holder(w, events, k).Some?
  {
    if events != [] {
      TimelyPrefix(w.clock, events);
      FollowedThroughRun(w, events[..|events| - 1], k);
      LastHeld(w, events, k);
    }
  }

  /** In particular a claim that no event finds lapsed is held, alone on its port, at the end. */
  lemma HeldThroughRun(w: World, events: seq<Event>, k: TokenId)
    requires Durable(w) && w.server.healthy && Timely(w.clock, events) && k in w.server.table.leases
    requires NeverLapses(w, events, k)
    ensures Holder(w, events, k).Some?
    ensures KeepsClaim(Run(w, events).server.table.leases, Holder(w, events, k).value, w.server.table.leases[k])
  {
    FollowedThroughRun(w, events, k);
    ServerRunKeepsClaims(w, events, k);
  }

  // ---- Former keys through a run ----

  /** All former keys of each claim after the run, given those before it. */
  ghost function FormerKeys(w: World, h: History, events: seq<Event>): History
    requires h.Keys == w.server.table.leases.Keys
  {
    RecordedAll(w.server.table, h, TraceOf(w, events).memory)
  }

  ghost function DiskFormerKeys(w: World, h: History, events: seq<Event>): History
    requires h.Keys == w.server.table.leases.Keys
  {
    RecordedAll(w.server.table, h, TraceOf(w, events).disk)
  }

  /** The retirement window over whole runs of the relay: the retired list of every claim is exactly
      its last eight former keys, in order. */
  lemma ServerRunRemembers(w: World, h: History, events: seq<Event>)
    requires Durable(w) && w.server.healthy && Timely(w.clock, events) && Remembers(w.server.table, h)
    ensures Remembers(Run(w, events).server.table, FormerKeys(w, h, events))
  {
    MemoryOfRun(w, events);
    RunRemembers(w.server.table, h, TraceOf(w, events).memory);
  }

  lemma DemotedRemembers(t: Table, h: History, savedAt: u64, late: u64)
    requires Remembers(t, h)
    ensures forall k | k in Demoted(t.leases, savedAt, late) ::
              k in h && Demoted(t.leases, savedAt, late)[k].retired == LastEight(h[k])
  {
  }

  /** And so it is after every later restart, with the former keys that the disk has. */
  lemma ServerRunRemembersOnDisk(w: World, h: History, events: seq<Event>, late: u64)
    requires Durable(w) && w.server.healthy && Timely(w.clock, events) && Remembers(w.server.table, h)
    requires Run(w, events).clock <= late
    ensures Startable(Run(w, events).disk)
    ensures var restarted, keys := StartTable(Run(w, events).disk, late).leases, DiskFormerKeys(w, h, events);
            forall k | k in restarted :: k in keys && restarted[k].retired == LastEight(keys[k])
  {
    var r := TraceOf(w, events);
    RestartBrings(w, events, late);
    RunRemembers(w.server.table, h, r.disk);
    DemotedRemembers(ApplyAll(w.server.table, r.disk), DiskFormerKeys(w, h, events), r.writtenAt, late);
  }

  lemma RecordedExtended(t: Table, h: History, ops: seq<Op>, op: Op)
    requires h.Keys == t.leases.Keys
    ensures RecordedAll(t, h, ops + [op]) == Recorded(ApplyAll(t, ops), RecordedAll(t, h, ops), op)
  {
    assert (ops + [op])[..|ops|] == ops;
  }

  /** And those former keys are what the events say: a claim that keeps its holder keeps them, one
      that changes hands adds the holder it left, one that starts has none. */
  lemma FormerKeysAcross(w: World, h: History, events: seq<Event>, e: Event, k: TokenId)
    requires Durable(w) && w.server.healthy && h.Keys == w.server.table.leases.Keys && k in h
    requires Timely(w.clock, events + [e]) && !e.Restarting?
    requires Holder(w, events, k).Some? && Holder(w, events + [e], k).Some?
    ensures var former, next := Holder(w, events, k).value, Holder(w, events + [e], k).value;
            var keys := FormerKeys(w, h, events);
            && former in keys && next in FormerKeys(w, h, events + [e])
            && FormerKeys(w, h, events + [e])[next] == if next == former then keys[former] else keys[former] + [former]
  {
    var op := MemoryAcross(w, events, e);
    if op.Some? {
      RecordedFollows(w.server.table, h, TraceOf(w, events).memory, op.value, k);
    }
  }

  lemma RecordedFollows(t: Table, h: History, ops: seq<Op>, op: Op, k: TokenId)
    requires ValidTable(t) && h.Keys == t.leases.Keys && k in h && FollowAll(t, ops + [op], k).Some?
    ensures var former, next := FollowAll(t, ops, k), FollowAll(t, ops + [op], k).value;
            var keys, keys' := RecordedAll(t, h, ops), RecordedAll(t, h, ops + [op]);
            && former.Some? && former.value in keys && next in keys'
            && keys'[next] == if next == former.value then keys[former.value] else keys[former.value] + [former.value]
  {
    FollowExtended(t, ops, op, k);
    RecordedExtended(t, h, ops, op);
    RecordedStep(ApplyAll(t, ops), RecordedAll(t, h, ops), op, FollowAll(t, ops, k).value);
  }
}

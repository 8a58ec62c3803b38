/** Who must end each session: the registration guard, the tunnel or a queued cleanup
    (crates/server/src/tunnel.rs, crates/server/src/relay.rs). The awaits of a registration are
    steps; it can be cancelled at every one of them. */
module Ownership {
  import opened Common
  import opened HostAdmission
  import opened Leases
  import opened ServerStates
  import opened Durability
  import opened RunProperties

  /** An armed `PendingRegistration`, a running `Tunnel`, or a task that will call `end`. */
  datatype Phase = Armed | Serving | Queued

  datatype Owner = Owner(id: TokenId, session: u64, phase: Phase)

  /** The relay with the owners alive in this process and every session it has handed out. */
  datatype Relay = Relay(world: World, owners: seq<Owner>, issued: seq<u64>)

  datatype RelayStep =
    | Register(event: Event)          // a registration runs to its answer under the state lock
    | Cancel(at: nat, time: u64)      // timeout, or `TunnelReady` could not be sent: the guard drops armed
    | Announce(at: nat, time: u64)    // `TunnelReady` is sent: the guard is disarmed, the tunnel runs
    | HangUp(at: nat, time: u64)      // `run` returns
    | CleanUp(at: nat, time: u64, outcome: SaveOutcome)   // the queued `end` gets the lock
    | Serve(event: Event)             // rotation, recovery or refresh
    | Crash(time: u64)                // the process dies and is started again

  ghost function Reply(w: World, e: Event): Result<Registration, ServerError>
    requires e.Registering?
  {
    RegisterEffect(w.server, w.disk, e.id, e.recovery, e.ip, e.now, e.connection, e.binds, e.outcome).reply
  }

  ghost predicate Enabled(r: Relay, s: RelayStep) {
    match s
    case Register(event) => event.Registering? && r.world.clock <= event.now
    case Serve(event) => (event.Rotating? || event.Recovering? || event.Refreshing?) && r.world.clock <= event.now
    case Cancel(at, time) => at < |r.owners| && r.owners[at].phase.Armed? && r.world.clock <= time
    case Announce(at, time) => at < |r.owners| && r.owners[at].phase.Armed? && r.world.clock <= time
    case HangUp(at, time) => at < |r.owners| && r.owners[at].phase.Serving? && r.world.clock <= time
    case CleanUp(at, time, _) => at < |r.owners| && r.owners[at].phase.Queued? && r.world.clock <= time
    case Crash(time) => r.world.clock <= time
  }

  ghost function WithPhase(r: Relay, at: nat, phase: Phase): Relay
    requires at < |r.owners|
  {
    r.(owners := r.owners[at := r.owners[at].(phase := phase)])
  }

  ghost function Next(r: Relay, s: RelayStep): Relay
    requires Enabled(r, s)
  {
    match s
    case Register(event) =>
      var r' := r.(world := Step(r.world, event));
      var reply := Reply(r.world, event);
      if reply.Err? then r'
      else r'.(owners := r.owners + [Owner(reply.value.tokenId, reply.value.session, Armed)],
               issued := r.issued + [reply.value.session])
    case Serve(event) => r.(world := Step(r.world, event))
    case Cancel(at, _) => WithPhase(r, at, Queued)
    case Announce(at, _) => WithPhase(r, at, Serving)
    case HangUp(at, _) => WithPhase(r, at, Queued)
    case CleanUp(at, time, outcome) =>
      Relay(Step(r.world, Ending(r.owners[at].id, r.owners[at].session, time, outcome)),
            r.owners[..at] + r.owners[at + 1..], r.issued)
    case Crash(time) => Relay(Step(r.world, Restarting(time)), [], [])
  }

  // ---- Sessions in the table ----

  /** A step starts no session but the one a registration returns, numbered next. */
  lemma SessionsAcrossStep(w: World, e: Event)
    requires !e.Restarting?
    ensures var t, t' := w.server.table, Step(w, e).server.table;
            var started := e.Registering? && Reply(w, e).Ok?;
            && (started ==> t.nextSession < U64_MAX
                            && Reply(w, e).value == Registration(Reply(w, e).value.port, e.id, t.nextSession + 1)
                            && ActiveAt(t'.leases, e.id, t.nextSession + 1))
            && t'.nextSession == t.nextSession + (if started then 1 else 0)
            && forall k, s | ActiveAt(t'.leases, k, s) ::
                 ActiveAt(t.leases, k, s) || (started && k == e.id && s == t.nextSession + 1)
  {
    match e
    case Registering(id, recovery, ip, connection, binds, now, outcome) =>
      var port := RegisterCases(w.server, w.disk, id, recovery, ip, now, connection, binds, outcome);
    case Ending(id, session, now, outcome) =>
    case Rotating(former, next, now, outcome) => RotateStartsNone(w, former, next, now, outcome);
    case Recovering(key, next, ip, now, outcome) => RecoverStartsNone(w, key, next, ip, now, outcome);
    case Refreshing(now, outcome) =>
  }

  lemma RotateStartsNone(w: World, former: TokenId, next: TokenId, now: u64, outcome: SaveOutcome)
    ensures var t, t' := w.server.table, RotateEffect(w.server, w.disk, former, next, now, outcome).server.table;
            t'.nextSession == t.nextSession && forall k, s | ActiveAt(t'.leases, k, s) :: ActiveAt(t.leases, k, s)
  {
  }

  lemma RecoverStartsNone(w: World, key: TokenId, next: TokenId, ip: IpAddr, now: u64, outcome: SaveOutcome)
    ensures var t, t' := w.server.table, RecoverEffect(w.server, w.disk, key, next, ip, now, outcome).server.table;
            t'.nextSession == t.nextSession && forall k, s | ActiveAt(t'.leases, k, s) :: ActiveAt(t.leases, k, s)
  {
  }

  lemma EndEndsIt(w: World, id: TokenId, session: u64, now: u64, outcome: SaveOutcome)
    ensures !ActiveAt(Step(w, Ending(id, session, now, outcome)).server.table.leases, id, session)
  {
  }

  // ---- The invariant ----

  ghost predicate Owns(o: Owner, id: TokenId, session: u64) {
    o.id == id && o.session == session
  }

  /** Every session handed out in this process has a number of its own. */
  ghost predicate IssuedOnce(r: Relay) {
    && (forall i, j :: 0 <= i < j < |r.issued| ==> r.issued[i] < r.issued[j])
    && (forall s | s in r.issued :: s <= r.world.server.table.nextSession)
  }

  ghost predicate OwnersOk(r: Relay) {
    && (forall i, j :: 0 <= i < j < |r.owners| ==> r.owners[i].session != r.owners[j].session)
    && (forall o | o in r.owners :: o.session in r.issued)
  }

  /** Every Active session has an owner, under the token that activated it. */
  ghost predicate ActiveOwned(r: Relay) {
    forall id, session | ActiveAt(r.world.server.table.leases, id, session) ::
      exists i :: 0 <= i < |r.owners| && Owns(r.owners[i], id, session)
  }

  ghost predicate Owned(r: Relay) {
    Durable(r.world) && IssuedOnce(r) && OwnersOk(r) && ActiveOwned(r)
  }

  /** The owner of an Active session is unique, and no other token can have that session Active. */
  lemma OneOwner(r: Relay, id: TokenId, session: u64)
    requires Owned(r) && ActiveAt(r.world.server.table.leases, id, session)
    ensures exists i :: 0 <= i < |r.owners| && Owns(r.owners[i], id, session)
                        && forall j :: 0 <= j < |r.owners| && r.owners[j].session == session ==> j == i
    ensures forall other | ActiveAt(r.world.server.table.leases, other, session) :: other == id
  {
    var i :| 0 <= i < |r.owners| && Owns(r.owners[i], id, session);
    forall other | ActiveAt(r.world.server.table.leases, other, session) ensures other == id {
      var j :| 0 <= j < |r.owners| && Owns(r.owners[j], other, session);
    }
  }

  lemma RegisterKeepsActiveOwned(r: Relay, e: Event)
    requires ActiveOwned(r) && Enabled(r, Register(e))
    ensures ActiveOwned(Next(r, Register(e)))
  {
    var r' := Next(r, Register(e));
    SessionsAcrossStep(r.world, e);
    forall id, session | ActiveAt(r'.world.server.table.leases, id, session)
      ensures exists i :: 0 <= i < |r'.owners| && Owns(r'.owners[i], id, session)
    {
      if ActiveAt(r.world.server.table.leases, id, session) {
        var i :| 0 <= i < |r.owners| && Owns(r.owners[i], id, session);
        assert Owns(r'.owners[i], id, session);
      } else {
        assert Owns(r'.owners[|r.owners|], id, session);
      }
    }
  }

  /** A session with a number above all others joins them. */
  lemma NextNumberIsNew(issued: seq<u64>, owners: seq<Owner>, top: u64, o: Owner)
    requires forall i, j :: 0 <= i < j < |issued| ==> issued[i] < issued[j]
    requires forall s | s in issued :: s <= top
    requires forall i, j :: 0 <= i < j < |owners| ==> owners[i].session != owners[j].session
    requires forall p | p in owners :: p.session in issued
    requires top < o.session
    ensures var issued', owners' := issued + [o.session], owners + [o];
            && (forall i, j :: 0 <= i < j < |issued'| ==> issued'[i] < issued'[j])
            && (forall s | s in issued' :: s <= o.session)
            && (forall i, j :: 0 <= i < j < |owners'| ==> owners'[i].session != owners'[j].session)
            && (forall p | p in owners' :: p.session in issued')
  {
    forall i | 0 <= i < |issued| ensures issued[i] <= top { assert issued[i] in issued; }
    forall i | 0 <= i < |owners| ensures owners[i].session <= top { assert owners[i] in owners; }
  }

  lemma RegisterKeepsOwned(r: Relay, e: Event)
    requires Owned(r) && Enabled(r, Register(e))
    ensures Owned(Next(r, Register(e)))
  {
    StepIsDurable(r.world, e);
    SessionsAcrossStep(r.world, e);
    RegisterKeepsActiveOwned(r, e);
    if Reply(r.world, e).Ok? {
      var registration := Reply(r.world, e).value;
      NextNumberIsNew(r.issued, r.owners, r.world.server.table.nextSession,
                      Owner(registration.tokenId, registration.session, Armed));
    }
  }

  lemma ServeKeepsOwned(r: Relay, e: Event)
    requires Owned(r) && Enabled(r, Serve(e))
    ensures Owned(Next(r, Serve(e)))
  {
    StepIsDurable(r.world, e);
    SessionsAcrossStep(r.world, e);
  }

  lemma PhaseKeepsOwned(r: Relay, at: nat, phase: Phase)
    requires Owned(r) && at < |r.owners|
    ensures Owned(WithPhase(r, at, phase))
  {
    var r' := WithPhase(r, at, phase);
    forall o | o in r'.owners ensures o.session in r.issued {
      var i :| 0 <= i < |r'.owners| && r'.owners[i] == o;
      assert r.owners[i] in r.owners;
    }
    forall id, session | ActiveAt(r.world.server.table.leases, id, session)
      ensures exists i :: 0 <= i < |r'.owners| && Owns(r'.owners[i], id, session)
    {
      var i :| 0 <= i < |r.owners| && Owns(r.owners[i], id, session);
      assert Owns(r'.owners[i], id, session);
    }
  }

  lemma CleanUpKeepsActiveOwned(r: Relay, at: nat, time: u64, outcome: SaveOutcome)
    requires ActiveOwned(r) && Enabled(r, CleanUp(at, time, outcome))
    ensures ActiveOwned(Next(r, CleanUp(at, time, outcome)))
  {
    var r' := Next(r, CleanUp(at, time, outcome));
    var o := r.owners[at];
    SessionsAcrossStep(r.world, Ending(o.id, o.session, time, outcome));
    EndEndsIt(r.world, o.id, o.session, time, outcome);
    forall id, session | ActiveAt(r'.world.server.table.leases, id, session)
      ensures exists i :: 0 <= i < |r'.owners| && Owns(r'.owners[i], id, session)
    {
      var i :| 0 <= i < |r.owners| && Owns(r.owners[i], id, session);
      assert i != at;
      assert Owns(r'.owners[if i < at then i else i - 1], id, session);
    }
  }

  lemma RemovedOwnersOk(owners: seq<Owner>, at: nat, issued: seq<u64>)
    requires at < |owners|
    requires forall i, j :: 0 <= i < j < |owners| ==> owners[i].session != owners[j].session
    requires forall o | o in owners :: o.session in issued
    ensures var rest := owners[..at] + owners[at + 1..];
            && (forall i, j :: 0 <= i < j < |rest| ==> rest[i].session != rest[j].session)
            && (forall o | o in rest :: o.session in issued)
  {
  }

  lemma CleanUpKeepsOwned(r: Relay, at: nat, time: u64, outcome: SaveOutcome)
    requires Owned(r) && Enabled(r, CleanUp(at, time, outcome))
    ensures Owned(Next(r, CleanUp(at, time, outcome)))
  {
    var e := Ending(r.owners[at].id, r.owners[at].session, time, outcome);
    StepIsDurable(r.world, e);
    SessionsAcrossStep(r.world, e);
    CleanUpKeepsActiveOwned(r, at, time, outcome);
    RemovedOwnersOk(r.owners, at, r.issued);
  }

  lemma NextKeepsOwned(r: Relay, s: RelayStep)
    requires Owned(r) && Enabled(r, s)
    ensures Owned(Next(r, s))
  {
    match s
    case Register(e) => RegisterKeepsOwned(r, e);
    case Serve(e) => ServeKeepsOwned(r, e);
    case Cancel(at, _) => PhaseKeepsOwned(r, at, Queued);
    case Announce(at, _) => PhaseKeepsOwned(r, at, Serving);
    case HangUp(at, _) => PhaseKeepsOwned(r, at, Queued);
    case CleanUp(at, time, outcome) => CleanUpKeepsOwned(r, at, time, outcome);
    case Crash(time) =>
      StepIsDurable(r.world, Restarting(time));
      RestartHasNoSession(r.world.disk, time);
  }

  // ---- Whole runs ----

  ghost predicate Runs(r: Relay, steps: seq<RelayStep>)
    decreases |steps|
  {
    steps != [] ==> Enabled(r, steps[0]) && Runs(Next(r, steps[0]), steps[1..])
  }

  ghost function RunRelay(r: Relay, steps: seq<RelayStep>): Relay
    requires Runs(r, steps)
    decreases |steps|
  {
    if steps == [] then r else RunRelay(Next(r, steps[0]), steps[1..])
  }

  /** No registration leaks a session: however often it is cancelled, whatever saves fail, every
      Active session has exactly one owner, and no session number is handed out twice. */
  lemma {:induction false} RunKeepsOwned(r: Relay, steps: seq<RelayStep>)
    requires Owned(r) && Runs(r, steps)
    ensures Owned(RunRelay(r, steps))
    decreases |steps|
  {
    if steps != [] {
      NextKeepsOwned(r, steps[0]);
      RunKeepsOwned(Next(r, steps[0]), steps[1..]);
    }
  }

  ghost predicate Over(r: Relay, session: u64) {
    && session <= r.world.server.table.nextSession
    && forall id :: !ActiveAt(r.world.server.table.leases, id, session)
  }

  /** A session that was ended or displaced is never Active again in this process. */
  lemma {:induction false} OverStaysOver(r: Relay, steps: seq<RelayStep>, session: u64)
    requires Owned(r) && Runs(r, steps) && Over(r, session) && forall s | s in steps :: !s.Crash?
    ensures Over(RunRelay(r, steps), session)
    decreases |steps|
  {
    if steps != [] {
      NextKeepsOwned(r, steps[0]);
      assert steps[0] in steps;
      match steps[0] {
        case Register(e) => SessionsAcrossStep(r.world, e);
        case Serve(e) => SessionsAcrossStep(r.world, e);
        case CleanUp(at, time, outcome) =>
          SessionsAcrossStep(r.world, Ending(r.owners[at].id, r.owners[at].session, time, outcome));
        case _ =>
      }
      OverStaysOver(Next(r, steps[0]), steps[1..], session);
    }
  }

  /** So a late `end` for it changes nothing, in memory or on disk. */
  lemma LateEndIsNoOp(r: Relay, steps: seq<RelayStep>, id: TokenId, session: u64, now: u64, outcome: SaveOutcome)
    requires Owned(r) && Runs(r, steps) && Over(r, session) && forall s | s in steps :: !s.Crash?
    ensures var w := RunRelay(r, steps).world;
            EndEffect(w.server, w.disk, id, session, now, outcome) == Effect(w.server, w.disk, false, Ok(false))
  {
    OverStaysOver(r, steps, session);
  }

  // ---- Every owner finishes ----

  function Weight(o: Owner): nat {
    match o.phase
    case Armed => 3
    case Serving => 2
    case Queued => 1
  }

  function StepsLeft(owners: seq<Owner>): nat {
    if owners == [] then 0 else Weight(owners[0]) + StepsLeft(owners[1..])
  }

  lemma {:induction false} StepsLeftChanged(owners: seq<Owner>, at: nat, o: Owner)
    requires at < |owners|
    ensures StepsLeft(owners[at := o]) == StepsLeft(owners) - Weight(owners[at]) + Weight(o)
  {
    if at > 0 {
      StepsLeftChanged(owners[1..], at - 1, o);
      assert owners[at := o][1..] == owners[1..][at - 1 := o];
    }
  }

  lemma {:induction false} StepsLeftRemoved(owners: seq<Owner>, at: nat)
    requires at < |owners|
    ensures StepsLeft(owners[..at] + owners[at + 1..]) == StepsLeft(owners) - Weight(owners[at])
  {
    if at > 0 {
      StepsLeftRemoved(owners[1..], at - 1);
      assert (owners[..at] + owners[at + 1..])[1..] == owners[1..][..at - 1] + owners[1..][at..];
    } else {
      assert owners[..0] + owners[1..] == owners[1..];
    }
  }

  /** Each step an owner takes brings the end nearer; only registrations add to what is left. */
  lemma OwnersProgress(r: Relay, s: RelayStep)
    requires Enabled(r, s)
    ensures s.Cancel? || s.Announce? || s.HangUp? || s.CleanUp? ==> StepsLeft(Next(r, s).owners) < StepsLeft(r.owners)
    ensures !s.Register? ==> StepsLeft(Next(r, s).owners) <= StepsLeft(r.owners)
  {
    match s
    case Cancel(at, _) => StepsLeftChanged(r.owners, at, r.owners[at].(phase := Queued));
    case Announce(at, _) => StepsLeftChanged(r.owners, at, r.owners[at].(phase := Serving));
    case HangUp(at, _) => StepsLeftChanged(r.owners, at, r.owners[at].(phase := Queued));
    case CleanUp(at, _, _) => StepsLeftRemoved(r.owners, at);
    case _ =>
  }

  /** Without owners nothing is Active. */
  lemma NoOwnersNoSessions(r: Relay)
    requires Owned(r) && r.owners == []
    ensures forall k | k in r.world.server.table.leases :: r.world.server.table.leases[k].status.Grace?
  {
    forall k | k in r.world.server.table.leases ensures r.world.server.table.leases[k].status.Grace? {
      var lease := r.world.server.table.leases[k];
      assert lease.status.Active? ==> ActiveAt(r.world.server.table.leases, k, lease.status.session);
    }
  }

  /** When the owners are gone, so is every Active lease; and there is always a way there. */
  lemma {:induction false} OwnersDrain(r: Relay) returns (steps: seq<RelayStep>)
    requires Owned(r)
    ensures Runs(r, steps) && |steps| <= StepsLeft(r.owners) && RunRelay(r, steps).owners == []
    ensures forall k | k in RunRelay(r, steps).world.server.table.leases ::
              RunRelay(r, steps).world.server.table.leases[k].status.Grace?
    decreases StepsLeft(r.owners)
  {
    if r.owners == [] {
      steps := [];
      NoOwnersNoSessions(r);
    } else {
      var now := r.world.clock;
      var step := match r.owners[0].phase
                  case Armed => Cancel(0, now)
                  case Serving => HangUp(0, now)
                  case Queued => CleanUp(0, now, Written);
      OwnersProgress(r, step);
      NextKeepsOwned(r, step);
      var rest := OwnersDrain(Next(r, step));
      steps := [step] + rest;
      assert steps[1..] == rest;
    }
  }
}

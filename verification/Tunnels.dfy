/** One host connection on the relay: its first message, the registration guard and its flag, the
    live tunnel with its players, and the cleanup (crates/server/src/tunnel.rs,
    crates/server/src/relay.rs). */
module Tunnels {
  import opened Common
  import opened HostAdmission
  import opened Leases
  import opened ServerStates
  import opened Durability
  import opened Ownership
  import Messages

  const MAX_CONCURRENT_PLAYERS: nat := 50

  /** What happens to an answer; the registration can be cancelled while it is being sent. */
  datatype Sending = Sent | SendFailed | CancelledSending

  /** What the relay tries to answer. The text of an error is not modelled. */
  datatype Answer = Said(message: Messages.ControlMessage) | SaidError

  datatype TunnelError = NotARequest | Unsupported | Rejected(error: ServerError) | AnswerLost | AcceptError

  /** The tasks that were spawned and have not run: each will call `end` for one session. */
  class Runtime {
    var queued: seq<Owner>

    constructor ()
      ensures queued == []
    {
      queued := [];
    }

    /** One queued task gets the lock. */
    method RunFirst(state: ServerState, now: u64, outcome: SaveOutcome) returns (r: Result<bool, ServerError>)
      requires state.Valid() && queued != []
      modifies this, state, state.leases, state.store
      ensures state.Valid() && state.leases == old(state.leases) && queued == old(queued[1..])
      ensures var task := old(queued[0]);
              state.Became(EndEffect(old(state.Model()), old(state.store.file), task.id, task.session, now, outcome), r)
    {
      var task := queued[0];
      queued := queued[1..];
      r := state.End(task.id, task.session, now, outcome);
    }
  }

  /** The guard of a registration: dropped while armed, it queues the end of the session. */
  class PendingRegistration {
    const id: TokenId
    const session: u64
    var armed: bool

    constructor (id: TokenId, session: u64)
      ensures armed && this.id == id && this.session == session
    {
      this.id, this.session, armed := id, session, true;
    }

    method Disarm()
      modifies this
      ensures !armed
    {
      armed := false;
    }

    /** Whom the guard leaves the session to when it is dropped. */
    ghost function Left(): seq<Owner>
      reads this
    {
      if armed then [Owner(id, session, Queued)] else []
    }

    method Drop(runtime: Runtime)
      modifies runtime
      ensures runtime.queued == old(runtime.queued) + Left()
    {
      if !armed {
        return;
      }
      runtime.queued := runtime.queued + [Owner(id, session, Queued)];
    }
  }

  // ---- The live tunnel ----

  /** What the accept loop of a tunnel meets: a player, with or without room in the whole relay and
      with or without a working control stream; a player that leaves; its end; and in between other
      tunnels that take permits of the relay, if there are enough, or return them. */
  datatype PlayerEvent = Arrives(announced: bool) | Leaves | AcceptFails | HostCloses | Elsewhere(taken: int)

  class Slots {
    var free: nat

    constructor (free: nat)
      ensures this.free == free
    {
      this.free := free;
    }
  }

  /** The stream numbers announced after `counter`: they count up, and stay at the largest. */
  function StreamIds(counter: u64, n: nat): seq<u64> {
    seq(n, i requires 0 <= i < n => if counter + i + 1 <= U64_MAX then counter + i + 1 else U64_MAX)
  }

  /** `streams` are the numbers announced so far, and `counter` is the last of them. */
  predicate Numbered(streams: seq<u64>, counter: u64) {
    && streams == StreamIds(0, |streams|)
    && counter == if streams == [] then 0 else streams[|streams| - 1]
  }

  lemma NextStreamId(streams: seq<u64>, counter: u64)
    requires Numbered(streams, counter)
    ensures Numbered(streams + [SaturatingAdd(counter, 1)], SaturatingAdd(counter, 1))
  {
  }

  /** The players of one tunnel, and the permits of the relay that it has or could get. */
  datatype Load = Load(players: nat, room: nat)

  /** The load after one event, unless it ends the tunnel. */
  function LoadAfter(load: Load, e: PlayerEvent): Option<Load> {
    match e
    case HostCloses => None
    case AcceptFails => None
    case Leaves => Some(load.(players := if load.players > 0 then load.players - 1 else 0))
    case Arrives(announced) =>
      if load.players >= MAX_CONCURRENT_PLAYERS || load.players >= load.room then Some(load)
      else if announced then Some(load.(players := load.players + 1))
      else None
    case Elsewhere(taken) => Some(if load.players <= load.room - taken then load.(room := load.room - taken) else load)
  }

  function Loads(load: Load, events: seq<PlayerEvent>): seq<Load>
    decreases |events|
  {
    if events == [] then []
    else
      match LoadAfter(load, events[0])
      case None => []
      case Some(next) => [next] + Loads(next, events[1..])
  }

  lemma MoreLoads(soFar: seq<Load>, load: Load, next: Load, events: seq<PlayerEvent>, all: seq<Load>)
    requires events != [] && LoadAfter(load, events[0]) == Some(next) && soFar + Loads(load, events) == all
    ensures (soFar + [next]) + Loads(next, events[1..]) == all
  {
    assert soFar + ([next] + Loads(next, events[1..])) == (soFar + [next]) + Loads(next, events[1..]);
  }

  /** Never more than 50 at once, nor more than the relay has room for. */
  lemma {:induction false} PlayersBounded(load: Load, events: seq<PlayerEvent>)
    requires load.players <= MAX_CONCURRENT_PLAYERS && load.players <= load.room
    ensures forall l | l in Loads(load, events) :: l.players <= MAX_CONCURRENT_PLAYERS && l.players <= l.room
    decreases |events|
  {
    if events != [] && LoadAfter(load, events[0]).Some? {
      PlayersBounded(LoadAfter(load, events[0]).value, events[1..]);
    }
  }

  /** How the loop ends: with the event after the last load, or with the last event. */
  function EndOf(loads: seq<Load>, events: seq<PlayerEvent>): Result<(), TunnelError> {
    if |loads| >= |events| || events[|loads|].HostCloses? then Ok(())
    else if events[|loads|].AcceptFails? then Err(AcceptError)
    else Err(AnswerLost)
  }

  /** How many of the players that arrived were let in. */
  function LetIn(loads: seq<Load>, events: seq<PlayerEvent>): nat
    requires |loads| <= |events|
  {
    if loads == [] then 0
    else
      var n := |loads| - 1;
      LetIn(loads[..n], events)
      + (if events[n].Arrives? && loads[n].players > PlayersIn(loads[..n]) then 1 else 0)
  }

  function PlayersIn(loads: seq<Load>): nat {
    if loads == [] then 0 else loads[|loads| - 1].players
  }

  lemma OneMoreIn(loads: seq<Load>, load: Load, events: seq<PlayerEvent>)
    requires |loads| < |events|
    ensures LetIn(loads + [load], events)
         == LetIn(loads, events) + if events[|loads|].Arrives? && load.players > PlayersIn(loads) then 1 else 0
  {
    assert (loads + [load])[..|loads|] == loads;
  }

  /** The permits of the relay that the others leave in the end. */
  function RoomLeft(room: nat, loads: seq<Load>): nat {
    if loads == [] then room else loads[|loads| - 1].room
  }

  /** If no other tunnel takes or returns a permit, that is what there was. */
  lemma {:induction false} RoomStays(load: Load, events: seq<PlayerEvent>)
    requires forall e | e in events :: !e.Elsewhere?
    ensures RoomLeft(load.room, Loads(load, events)) == load.room
    decreases |events|
  {
    if events != [] && LoadAfter(load, events[0]).Some? {
      assert events[0] in events;
      var next := LoadAfter(load, events[0]).value;
      RoomStays(next, events[1..]);
      LastRoom(load.room, next, Loads(next, events[1..]));
    }
  }

  lemma LastRoom(room: nat, next: Load, rest: seq<Load>)
    ensures RoomLeft(room, [next] + rest) == RoomLeft(next.room, rest)
  {
  }

  class Tunnel {
    const connection: Connection
    const id: TokenId
    const session: u64
    const publicPort: u16
    var listener: Option<u16>
    var streamCounter: u64
    var slots: nat
    var players: nat

    constructor (connection: Connection, registration: Registration)
      ensures Fresh(registration) && this.connection == connection
    {
      this.connection := connection;
      id, session, publicPort := registration.tokenId, registration.session, registration.port;
      listener, streamCounter, slots, players := Some(registration.port), 0, MAX_CONCURRENT_PLAYERS, 0;
    }

    ghost predicate Fresh(registration: Registration)
      reads this
    {
      && Registration(publicPort, id, session) == registration
      && listener == Some(publicPort) && streamCounter == 0 && slots == MAX_CONCURRENT_PLAYERS && players == 0
    }

    /** Every permit of the tunnel is free or with a player. */
    ghost predicate Balanced()
      reads this
    {
      slots + players == MAX_CONCURRENT_PLAYERS
    }

    /** One new player. It is served, and its permits are kept, only if there is room here and in
        the relay and its stream number was announced; there are never more than 50. */
    method AcceptPlayer(relayPlayers: Slots, announced: bool) returns (stream: Option<u64>, ok: bool)
      requires Balanced()
      modifies this`streamCounter, this`slots, this`players, relayPlayers
      ensures Balanced() && players <= MAX_CONCURRENT_PLAYERS
      ensures var room := old(players) < MAX_CONCURRENT_PLAYERS && old(relayPlayers.free) > 0;
              && streamCounter == (if room then SaturatingAdd(old(streamCounter), 1) else old(streamCounter))
              && stream == (if room && announced then Some(streamCounter) else None)
              && ok == (!room || announced)
              && players == old(players) + (if stream.Some? then 1 else 0)
              && relayPlayers.free + players == old(relayPlayers.free) + old(players)
    {
      if slots == 0 {
        return None, true;
      }
      slots := slots - 1;
      if relayPlayers.free == 0 {
        slots := slots + 1;
        return None, true;
      }
      relayPlayers.free := relayPlayers.free - 1;
      streamCounter := SaturatingAdd(streamCounter, 1);
      if !announced {
        slots, relayPlayers.free := slots + 1, relayPlayers.free + 1;
        return None, false;
      }
      players := players + 1;
      return Some(streamCounter), true;
    }

    /** A player leaves or is aborted: its permits go back. */
    method ReleasePlayer(relayPlayers: Slots)
      requires Balanced() && players > 0
      modifies this`slots, this`players, relayPlayers
      ensures Balanced() && players == old(players) - 1 && relayPlayers.free == old(relayPlayers.free) + 1
    {
      players, slots := players - 1, slots + 1;
      relayPlayers.free := relayPlayers.free + 1;
    }

    /** The accept loop. `loads` says how many players there were after each event it got to. */
    method AcceptPlayers(relayPlayers: Slots, events: seq<PlayerEvent>)
      returns (streams: seq<u64>, r: Result<(), TunnelError>, ghost loads: seq<Load>)
      requires Balanced() && players == 0 && streamCounter == 0
      modifies this`streamCounter, this`slots, this`players, relayPlayers
      ensures Balanced() && loads == Loads(Load(0, old(relayPlayers.free)), events)
      ensures relayPlayers.free + players == RoomLeft(old(relayPlayers.free), loads)
      ensures |loads| <= |events| && r == EndOf(loads, events)
      ensures streams == StreamIds(0, LetIn(loads, events))
    {
      ghost var start := Load(0, relayPlayers.free);
      ghost var load := start;
      streams, r, loads := [], Ok(()), [];
      assert events[0..] == events;
      for n := 0 to |events|
        invariant Balanced() && load == Load(players, relayPlayers.free + players)
        invariant load.room == RoomLeft(start.room, loads)
        invariant Numbered(streams, streamCounter)
        invariant |loads| == n && |streams| == LetIn(loads, events)
        invariant players == PlayersIn(loads)
        invariant loads + Loads(load, events[n..]) == Loads(start, events)
      {
        assert events[n..][0] == events[n] && events[n..][1..] == events[n + 1..];
        ghost var before := load;
        match events[n] {
          case HostCloses =>
            break;
          case AcceptFails =>
            r := Err(AcceptError);
            break;
          case Leaves =>
            if players > 0 {
              ReleasePlayer(relayPlayers);
            }
          case Arrives(announced) =>
            NextStreamId(streams, streamCounter);
            var stream, ok := AcceptPlayer(relayPlayers, announced);
            if !ok {
              r := Err(AnswerLost);
              break;
            }
            if stream.Some? {
              streams := streams + [stream.value];
            }
          case Elsewhere(taken) =>
            if taken <= relayPlayers.free {
              relayPlayers.free := relayPlayers.free - taken;
            }
        }
        load := Load(players, relayPlayers.free + players);
        assert LoadAfter(before, events[n]) == Some(load);
        MoreLoads(loads, before, load, events[n..], Loads(start, events));
        OneMoreIn(loads, load, events);
        loads := loads + [load];
      }
    }

    /** Serves players until the host hangs up or something fails: never more than 50 at once, under
        the stream numbers 1, 2, 3, …, while other tunnels take and return permits. In the end the
        port is closed and every permit is back, here and in the whole relay. */
    method Run(relayPlayers: Slots, events: seq<PlayerEvent>)
      returns (streams: seq<u64>, r: Result<(), TunnelError>, ghost loads: seq<Load>)
      requires listener.Some? && Balanced() && players == 0 && streamCounter == 0
      modifies this, relayPlayers
      ensures listener == None && Balanced() && players == 0
      ensures loads == Loads(Load(0, old(relayPlayers.free)), events)
      ensures relayPlayers.free == RoomLeft(old(relayPlayers.free), loads)
      ensures forall l | l in loads :: l.players <= 50
      ensures |loads| <= |events| && r == EndOf(loads, events)
      ensures streams == StreamIds(0, LetIn(loads, events))
    {
      PlayersBounded(Load(0, relayPlayers.free), events);
      streams, r, loads := AcceptPlayers(relayPlayers, events);
      listener := None;
      while players > 0
        invariant Balanced() && listener == None
        invariant relayPlayers.free + players == RoomLeft(old(relayPlayers.free), loads)
      {
        ReleasePlayer(relayPlayers);
      }
    }

    method Cleanup(state: ServerState, now: u64, outcome: SaveOutcome) returns (r: Result<bool, ServerError>)
      requires state.Valid()
      modifies state, state.leases, state.store
      ensures state.Valid() && state.leases == old(state.leases)
      ensures forall k: TokenId, s: u64 | ActiveAt(state.leases.leases, k, s) ::
                old(ActiveAt(state.leases.leases, k, s)) && (k, s) != (id, session)
      ensures state.Became(EndEffect(old(state.Model()), old(state.store.file), id, session, now, outcome), r)
    {
      r := state.End(id, session, now, outcome);
    }
  }

  // ---- The first message ----

  predicate IsSupported(protocol: Messages.Protocol, localPort: u16) {
    protocol.Tcp? && localPort != 0
  }

  /** `from_quic`. `first` is nothing if no message arrives. A registration that is answered leaves
      its session to exactly one owner: the tunnel that is returned, or a queued `end`. */
  method FromQuic(connection: Connection, state: ServerState, runtime: Runtime, ip: IpAddr,
                  first: Option<Messages.ControlMessage>, now: u64, binds: Binds, outcome: SaveOutcome, sending: Sending)
    returns (r: Result<Option<Tunnel>, TunnelError>, answer: Option<Answer>, closed: Option<Connection>)
    requires state.Valid()
    modifies state, state.leases, state.store, runtime
    ensures state.Valid() && (state.leases == old(state.leases) || fresh(state.leases))
    ensures r.Ok? && r.value.Some? ==> fresh(r.value.value)
    ensures
      match first
      case Some(RotateIdentity(former, next)) =>
        var effect := RotateEffect(old(state.Model()), old(state.store.file), state.fingerprint(former),
                                   state.fingerprint(next), now, outcome);
        && state.Became(effect, effect.reply) && runtime.queued == old(runtime.queued)
        && answer == Some(if effect.reply.Ok? then Said(Messages.IdentityRotated(effect.reply.value)) else SaidError)
        && r == (if sending.Sent? then Ok(None) else Err(AnswerLost)) && closed == None
      case Some(RecoverIdentity(secret, next)) =>
        var effect := RecoverEffect(old(state.Model()), old(state.store.file), state.fingerprint(secret),
                                    state.fingerprint(next), ip, now, outcome);
        && state.Became(effect, effect.reply) && runtime.queued == old(runtime.queued)
        && answer == Some(if effect.reply.Ok? then Said(Messages.IdentityRecovered(effect.reply.value.0)) else SaidError)
        && r == (if sending.Sent? then Ok(None) else Err(AnswerLost))
        && closed == (if effect.reply.Ok? then effect.reply.value.1 else None)
      case Some(Register(protocol, localPort, token, key)) =>
        if IsSupported(protocol, localPort) then
          var effect := RegisterEffect(old(state.Model()), old(state.store.file), state.fingerprint(token),
                                       Some(TokenId(key)), ip, now, Some(connection), binds, outcome);
          && state.Became(effect, effect.reply) && closed == None
          && match effect.reply
             case Err(error) =>
               r == Err(Rejected(error)) && answer == Some(SaidError) && runtime.queued == old(runtime.queued)
             case Ok(registration) =>
               && answer == Some(Said(Messages.TunnelReady(registration.port)))
               && if sending.Sent? then
                    && r.Ok? && r.value.Some? && r.value.value.Fresh(registration)
                    && r.value.value.connection == connection && runtime.queued == old(runtime.queued)
                  else
                    && r == Err(AnswerLost)
                    && runtime.queued == old(runtime.queued) + [Owner(registration.tokenId, registration.session, Queued)]
        else
          && r == Err(Unsupported) && answer == Some(SaidError) && closed == None
          && state.Model() == old(state.Model()) && state.store.file == old(state.store.file)
          && runtime.queued == old(runtime.queued)
      case _ =>
        && r == Err(NotARequest) && answer == None && closed == None
        && state.Model() == old(state.Model()) && state.store.file == old(state.store.file)
        && runtime.queued == old(runtime.queued)
  {
    answer, closed := None, None;
    match first {
      case Some(RotateIdentity(former, next)) =>
        var rotation := state.Rotate(former, next, now, outcome);
        answer := Some(if rotation.Ok? then Said(Messages.IdentityRotated(rotation.value)) else SaidError);
        r := if sending.Sent? then Ok(None) else Err(AnswerLost);
      case Some(RecoverIdentity(secret, next)) =>
        var recovery := state.Recover(secret, next, ip, now, outcome);
        if recovery.Ok? {
          closed := recovery.value.1;
        }
        answer := Some(if recovery.Ok? then Said(Messages.IdentityRecovered(recovery.value.0)) else SaidError);
        r := if sending.Sent? then Ok(None) else Err(AnswerLost);
      case Some(Register(protocol, localPort, token, key)) =>
        if !protocol.Tcp? || localPort == 0 {
          answer := Some(SaidError);
          return Err(Unsupported), answer, closed;
        }
        var registration :=
          state.RegisterWithRecovery(token, Some(TokenId(key)), ip, now, Some(connection), binds, outcome);
        if registration.Err? {
          answer := Some(SaidError);
          return Err(Rejected(registration.error)), answer, closed;
        }
        var guard := new PendingRegistration(registration.value.tokenId, registration.value.session);
        answer := Some(Said(Messages.TunnelReady(registration.value.port)));
        if !sending.Sent? {
          guard.Drop(runtime);
          return Err(AnswerLost), answer, closed;
        }
        guard.Disarm();
        var tunnel := new Tunnel(connection, registration.value);
        guard.Drop(runtime);
        r := Ok(Some(tunnel));
      case _ =>
        r := Err(NotARequest);
    }
  }

  /** The flag of the guard does what the steps of `Ownership` say. Of a registration that was
      granted, dropping the guard while armed is the step `Cancel`, and the owner it leaves is the
      one it queues; once disarmed, the registration took the step `Announce`, and its tunnel is the
      owner. */
  lemma GuardSteps(r: Relay, e: Event, guard: PendingRegistration)
    requires Enabled(r, RelayStep.Register(e)) && Reply(r.world, e).Ok?
    requires guard.id == Reply(r.world, e).value.tokenId && guard.session == Reply(r.world, e).value.session
    ensures var r' := Next(r, RelayStep.Register(e));
            var step := if guard.armed then Cancel(|r.owners|, e.now) else Announce(|r.owners|, e.now);
            && r'.owners == r.owners + [Owner(guard.id, guard.session, Armed)]
            && Enabled(r', step)
            && Next(r', step) ==
               r'.(owners := r.owners + (if guard.armed then guard.Left() else [Owner(guard.id, guard.session, Serving)]))
  {
    var armed := Owner(guard.id, guard.session, Armed);
    var phase := if guard.armed then Queued else Serving;
    assert (r.owners + [armed])[|r.owners| := armed.(phase := phase)] == r.owners + [armed.(phase := phase)];
  }

  // ---- One connection from start to end ----

  /** Every session that is Active was Active before, or has an owner: a queued task, or one of the
      tunnels `live`. */
  ghost predicate NothingLeaked(before: Claims, after: Claims, queued: seq<Owner>, live: set<(TokenId, u64)>) {
    forall id: TokenId, session: u64 | ActiveAt(after, id, session) ::
      ActiveAt(before, id, session) || Owner(id, session, Queued) in queued || (id, session) in live
  }

  /** A message can start no session but that of a registration, under the number it is answered. */
  lemma MessageStarts(s: Server, disk: Disk, fingerprint: Token -> TokenId, ip: IpAddr, first: Option<Messages.ControlMessage>,
                      connection: Connection, now: u64, binds: Binds, outcome: SaveOutcome)
    ensures
      match first
      case Some(RotateIdentity(former, next)) =>
        var after := RotateEffect(s, disk, fingerprint(former), fingerprint(next), now, outcome).server;
        forall id, session | ActiveAt(after.table.leases, id, session) :: ActiveAt(s.table.leases, id, session)
      case Some(RecoverIdentity(secret, next)) =>
        var after := RecoverEffect(s, disk, fingerprint(secret), fingerprint(next), ip, now, outcome).server;
        forall id, session | ActiveAt(after.table.leases, id, session) :: ActiveAt(s.table.leases, id, session)
      case Some(Register(_, _, token, key)) =>
        var effect := RegisterEffect(s, disk, fingerprint(token), Some(TokenId(key)), ip, now, Some(connection), binds, outcome);
        forall id, session | ActiveAt(effect.server.table.leases, id, session) ::
          || ActiveAt(s.table.leases, id, session)
          || (effect.reply.Ok? && id == effect.reply.value.tokenId && session == effect.reply.value.session)
      case _ => true
  {
    var w := World(s, disk, now, now);
    match first {
      case Some(RotateIdentity(former, next)) =>
        RotateStartsNone(w, fingerprint(former), fingerprint(next), now, outcome);
      case Some(RecoverIdentity(secret, next)) =>
        RecoverStartsNone(w, fingerprint(secret), fingerprint(next), ip, now, outcome);
      case Some(Register(_, _, token, key)) =>
        SessionsAcrossStep(w, Registering(fingerprint(token), Some(TokenId(key)), ip, Some(connection), binds, now, outcome));
      case _ =>
    }
  }

  /** The session of a tunnel, if there is one. */
  ghost function SessionOf(tunnel: Option<Tunnel>): set<(TokenId, u64)> {
    if tunnel.Some? then {(tunnel.value.id, tunnel.value.session)} else {}
  }

  /** `from_quic`: whatever it starts has an owner. */
  method Greet(connection: Connection, state: ServerState, runtime: Runtime, ip: IpAddr,
               first: Option<Messages.ControlMessage>, now: u64, binds: Binds, outcome: SaveOutcome, sending: Sending)
    returns (tunnel: Option<Tunnel>)
    requires state.Valid()
    modifies state, state.leases, state.store, runtime
    ensures state.Valid() && (state.leases == old(state.leases) || fresh(state.leases))
    ensures old(runtime.queued) <= runtime.queued
    ensures tunnel.Some? ==> fresh(tunnel.value)
                             && tunnel.value.Fresh(Registration(tunnel.value.publicPort, tunnel.value.id, tunnel.value.session))
    ensures NothingLeaked(old(state.leases.leases), state.leases.leases, runtime.queued, SessionOf(tunnel))
  {
    MessageStarts(state.Model(), state.store.file, state.fingerprint, ip, first, connection, now, binds, outcome);
    var registration, answer, closed :=
      FromQuic(connection, state, runtime, ip, first, now, binds, outcome, sending);
    assert state.leases.leases == state.Model().table.leases;
    tunnel := if registration.Ok? then registration.value else None;
  }

  /** `from_quic` and, on every way out of it, the return of the permit for the source and of the
      one for the whole relay. */
  method RegisterHost(connection: Connection, state: ServerState, runtime: Runtime, slots: Slots, pending: PendingByIp,
                      permit: HostSource, ip: IpAddr, first: Option<Messages.ControlMessage>, now: u64, binds: Binds,
                      outcome: SaveOutcome, sending: Sending)
    returns (tunnel: Option<Tunnel>)
    requires state.Valid() && Released(pending.counts, permit).Some?
    modifies state, state.leases, state.store, runtime, slots, pending
    ensures state.Valid() && (state.leases == old(state.leases) || fresh(state.leases))
    ensures Some(pending.counts) == Released(old(pending.counts), permit) && slots.free == old(slots.free) + 1
    ensures old(runtime.queued) <= runtime.queued
    ensures tunnel.Some? ==> fresh(tunnel.value)
                             && tunnel.value.Fresh(Registration(tunnel.value.publicPort, tunnel.value.id, tunnel.value.session))
    ensures NothingLeaked(old(state.leases.leases), state.leases.leases, runtime.queued, SessionOf(tunnel))
  {
    tunnel := Greet(connection, state, runtime, ip, first, now, binds, outcome, sending);
    slots.free := slots.free + 1;
    pending.DropPermit(permit);
  }

  // ---- What the other connections do meanwhile ----

  /** Another host's first message, a queued task that gets the lock, the periodic refresh, or the
      end of another host's tunnel. */
  datatype Visit =
    | FirstMessage(connection: Connection, ip: IpAddr, first: Option<Messages.ControlMessage>, now: u64, binds: Binds,
                   outcome: SaveOutcome, sending: Sending)
    | QueuedEnd(now: u64, outcome: SaveOutcome)
    | Refresh(now: u64, outcome: SaveOutcome)
    | OtherCleanup(id: TokenId, session: u64, now: u64, outcome: SaveOutcome)

  /** A session that is Active after an end was Active before, and is not the one that ended. */
  lemma EndLeaves(s: Server, disk: Disk, id: TokenId, session: u64, now: u64, outcome: SaveOutcome)
    ensures forall k: TokenId, n: u64 | ActiveAt(EndEffect(s, disk, id, session, now, outcome).server.table.leases, k, n) ::
              ActiveAt(s.table.leases, k, n) && (k, n) != (id, session)
  {
  }

  /** One of these visits: whatever is Active still has an owner. */
  method Receive(state: ServerState, runtime: Runtime, visit: Visit, ghost before: Claims, ghost live: set<(TokenId, u64)>)
    returns (ghost now: set<(TokenId, u64)>)
    requires state.Valid() && NothingLeaked(before, state.leases.leases, runtime.queued, live)
    modifies state, state.leases, state.store, runtime
    ensures state.Valid() && (state.leases == old(state.leases) || fresh(state.leases))
    ensures live <= now && |now| <= |live| + 1 && NothingLeaked(before, state.leases.leases, runtime.queued, now)
  {
    now := live;
    match visit {
      case FirstMessage(connection, ip, first, time, binds, outcome, sending) =>
        var tunnel := Greet(connection, state, runtime, ip, first, time, binds, outcome, sending);
        now := live + SessionOf(tunnel);
      case QueuedEnd(time, outcome) =>
        if runtime.queued != [] {
          var task := runtime.queued[0];
          EndLeaves(state.Model(), state.store.file, task.id, task.session, time, outcome);
          var ended := runtime.RunFirst(state, time, outcome);
          assert state.leases.leases == state.Model().table.leases;
          assert forall o | o in old(runtime.queued) :: o == task || o in runtime.queued;
        }
      case Refresh(time, outcome) =>
        var refreshed := state.RefreshAndSave(time, outcome);
        assert state.leases.leases == state.Model().table.leases;
      case OtherCleanup(id, session, time, outcome) =>
        EndLeaves(state.Model(), state.store.file, id, session, time, outcome);
        var ended := state.End(id, session, time, outcome);
        assert state.leases.leases == state.Model().table.leases;
    }
  }

  method Meanwhile(state: ServerState, runtime: Runtime, visits: seq<Visit>, ghost before: Claims,
                   ghost live: set<(TokenId, u64)>)
    returns (ghost now: set<(TokenId, u64)>)
    requires state.Valid() && NothingLeaked(before, state.leases.leases, runtime.queued, live)
    modifies state, state.leases, state.store, runtime
    ensures state.Valid() && (state.leases == old(state.leases) || fresh(state.leases))
    ensures live <= now && |now| <= |live| + |visits| && NothingLeaked(before, state.leases.leases, runtime.queued, now)
  {
    now := live;
    for i := 0 to |visits|
      invariant state.Valid() && (state.leases == old(state.leases) || fresh(state.leases))
      invariant live <= now && |now| <= |live| + i && NothingLeaked(before, state.leases.leases, runtime.queued, now)
    {
      now := Receive(state, runtime, visits[i], before, now);
    }
  }

  /** A live tunnel to its end, with any visits of others while it runs. */
  method ServeTunnel(tunnel: Tunnel, state: ServerState, runtime: Runtime, relayPlayers: Slots, events: seq<PlayerEvent>,
                     visits: seq<Visit>, now: u64, outcome: SaveOutcome, ghost before: Claims)
    returns (ghost others: set<(TokenId, u64)>)
    requires state.Valid() && tunnel.Fresh(Registration(tunnel.publicPort, tunnel.id, tunnel.session))
    requires NothingLeaked(before, state.leases.leases, runtime.queued, {(tunnel.id, tunnel.session)})
    modifies tunnel, state, state.leases, state.store, runtime, relayPlayers
    ensures state.Valid()
    ensures relayPlayers.free == RoomLeft(old(relayPlayers.free), Loads(Load(0, old(relayPlayers.free)), events))
    ensures |others| <= |visits| && NothingLeaked(before, state.leases.leases, runtime.queued, others)
    ensures !ActiveAt(state.leases.leases, tunnel.id, tunnel.session)
  {
    var streams, ended, loads := tunnel.Run(relayPlayers, events);
    ghost var own := {(tunnel.id, tunnel.session)};
    ghost var live := Meanwhile(state, runtime, visits, before, own);
    var cleaned := tunnel.Cleanup(state, now, outcome);
    others := live - own;
    assert live == others + own;
  }

  /** What is spawned for a connection, from its first message to its cleanup, with any visits of
      others while its tunnel runs. Both permits are given back once, the players' permits are all
      back, and every session that is Active then was Active before, or belongs to a queued task or
      to the tunnel of a visitor, at most one for each visit: this host leaves none behind. */
  method ServeHost(connection: Connection, state: ServerState, runtime: Runtime, slots: Slots, pending: PendingByIp,
                   permit: HostSource, ip: IpAddr, first: Option<Messages.ControlMessage>, now: u64, binds: Binds,
                   outcome: SaveOutcome, sending: Sending, relayPlayers: Slots, events: seq<PlayerEvent>,
                   visits: seq<Visit>, later: u64, laterOutcome: SaveOutcome)
    returns (ghost others: set<(TokenId, u64)>)
    requires state.Valid() && Released(pending.counts, permit).Some? && slots != relayPlayers
    modifies state, state.leases, state.store, runtime, slots, pending, relayPlayers
    ensures state.Valid()
    ensures Some(pending.counts) == Released(old(pending.counts), permit) && slots.free == old(slots.free) + 1
    ensures relayPlayers.free in {old(relayPlayers.free), RoomLeft(old(relayPlayers.free), Loads(Load(0, old(relayPlayers.free)), events))}
    ensures |others| <= |visits|
    ensures NothingLeaked(old(state.leases.leases), state.leases.leases, runtime.queued, others)
  {
    ghost var before := state.leases.leases;
    var tunnel := RegisterHost(connection, state, runtime, slots, pending, permit, ip, first, now, binds, outcome, sending);
    others := {};
    if tunnel.Some? {
      others := ServeTunnel(tunnel.value, state, runtime, relayPlayers, events, visits, later, laterOutcome, before);
    }
  }
}

/** Every answer of the relay's state: when each operation is answered and how, what it then leaves in
    memory, on disk and in the connection map, and what a refusal leaves
    (crates/server/src/state.rs). */
module ServerAnswers {
  import opened Common
  import opened HostAdmission
  import opened Leases
  import opened LeaseStores
  import opened ServerStates
  import opened Durability
  import opened RunProperties

  // ---- Registering ----

  ghost function Registered(w: World, e: Event): Effect<Registration>
    requires e.Registering?
  {
    RegisterEffect(w.server, w.disk, e.id, e.recovery, e.ip, e.now, e.connection, e.binds, e.outcome)
  }

  ghost function Offer(w: World, e: Event): Result<seq<u16>, LeaseError>
    requires e.Registering?
  {
    Candidates(w.server.table, e.id, e.ip, e.now).1
  }

  ghost predicate MayScan(w: World, e: Event)
    requires e.Registering?
  {
    w.server.healthy && Offer(w, e).Ok?
  }

  lemma AcceptedAfterReaping(w: World, e: Event, port: u16)
    requires e.Registering?
    ensures Activated(Reaped(w.server.table, e.now), e.id, e.recovery, e.ip, port, e.now)
         == Activated(w.server.table, e.id, e.recovery, e.ip, port, e.now)
  {
    var m := w.server.table.leases;
    assert Reap(Reap(m, e.now), e.now) == Reap(m, e.now);
    assert Reaped(Reaped(w.server.table, e.now), e.now) == Reaped(w.server.table, e.now);
  }

  /** What decides the answer, in this order: the storage, the offer, the first offered port that is
      not in use, what binding it does, the activation, the save. */
  lemma RegistrationAnswers(w: World, e: Event) returns (n: nat)
    requires e.Registering?
    ensures var reply := Registered(w, e).reply;
            && (reply == Err(StorageUnavailable) <==> !w.server.healthy)
            && (w.server.healthy && Offer(w, e).Err? ==> reply == Err(Refused(Offer(w, e).error)))
    ensures MayScan(w, e) ==>
              var reply, ports := Registered(w, e).reply, Offer(w, e).value;
              && n <= |ports| && (forall i | 0 <= i < n :: e.binds(ports[i]) == InUse)
              && (n == |ports| ==> reply == Err(NoFreePort))
              && (n < |ports| ==> match e.binds(ports[n])
                                  case InUse => false
                                  case BindFailed => reply == Err(CannotBind)
                                  case Cancelled => reply == Err(CallerGone)
                                  case Bound =>
                                    var session := Activated(w.server.table, e.id, e.recovery, e.ip, ports[n], e.now).1;
                                    reply == if session.Err? then Err(Refused(session.error))
                                             else if !e.outcome.Written? then Err(SaveFailed)
                                             else Ok(Registration(ports[n], e.id, w.server.table.nextSession + 1)))
  {
    if MayScan(w, e) {
      var ports := Offer(w, e).value;
      n := ScanTakesFirst(ports, e.binds);
      if n < |ports| {
        AcceptedAfterReaping(w, e, ports[n]);
      }
    } else {
      n := 0;
    }
  }

  /** A registration answered with a port: the claim is activated, saved, and the connection of its
      session recorded at its key; no other connection changes. */
  lemma RegistrationLeaves(w: World, e: Event)
    requires e.Registering? && Registered(w, e).reply.Ok?
    ensures var effect := Registered(w, e); var r := effect.reply.value;
            var staged := Activated(w.server.table, e.id, e.recovery, e.ip, r.port, e.now);
            && r.tokenId == e.id && staged == (effect.server.table, Ok(r.session))
            && r.session == w.server.table.nextSession + 1
            && w.server.healthy && effect.server.healthy && effect.saved && e.outcome.Written?
            && effect.disk == Some(ImageOf(effect.server.table.leases, e.now))
            && (e.connection.Some? ==>
                  && effect.server.connections.Keys == w.server.connections.Keys + {e.id}
                  && effect.server.connections[e.id] == (r.session, e.connection.value)
                  && forall k | k in w.server.connections && k != e.id ::
                       effect.server.connections[k] == w.server.connections[k])
            && (e.connection.None? ==> effect.server.connections == w.server.connections)
  {
    AcceptedAfterReaping(w, e, Registered(w, e).reply.value.port);
  }

  /** A refused one reaps at most, leaves every connection, and writes only if the save got so far. */
  lemma RefusedRegistration(w: World, e: Event)
    requires e.Registering? && Registered(w, e).reply.Err?
    ensures var effect := Registered(w, e);
            && !effect.saved && effect.server.connections == w.server.connections
            && effect.server.table == (if w.server.healthy then Reaped(w.server.table, e.now) else w.server.table)
            && effect.server.healthy == (w.server.healthy && effect.reply != Err(SaveFailed))
            && (effect.reply != Err(SaveFailed) || e.outcome.FailedBeforeRename? ==> effect.disk == w.disk)
  {
    if MayScan(w, e) {
      var n := ScanTakesFirst(Offer(w, e).value, e.binds);
      if ScanPorts(Offer(w, e).value, e.binds).Took? {
        RefusedStage(w.server.(table := Reaped(w.server.table, e.now)), w.disk, e, Offer(w, e).value[n]);
      }
    }
  }

  lemma RefusedStage(s: Server, disk: Disk, e: Event, port: u16)
    requires e.Registering?
    requires StageEffect(s, disk, e.id, e.recovery, e.ip, port, e.now, e.connection, e.outcome).reply.Err?
    ensures var effect := StageEffect(s, disk, e.id, e.recovery, e.ip, port, e.now, e.connection, e.outcome);
            && !effect.saved && effect.server == s.(healthy := s.healthy && effect.reply != Err(SaveFailed))
            && (effect.reply != Err(SaveFailed) || e.outcome.FailedBeforeRename? ==> effect.disk == disk)
  {
  }

  // ---- Ending ----

  lemma EndingAnswers(w: World, id: TokenId, session: u64, now: u64, outcome: SaveOutcome)
    ensures var effect := EndEffect(w.server, w.disk, id, session, now, outcome);
            var active := id in w.server.table.leases && w.server.table.leases[id].status == Active(session);
            && effect.reply == (if !active then Ok(false) else if outcome.Written? then Ok(true) else Err(SaveFailed))
            && (!active ==> effect.server == w.server && effect.disk == w.disk && !effect.saved)
            && (active ==>
                  && effect.server.table == Ended(w.server.table, id, session, now).0
                  && effect.server.healthy == (w.server.healthy && outcome.Written?)
                  && effect.saved == outcome.Written?
                  && effect.disk == if outcome.FailedBeforeRename? then w.disk
                                    else Some(ImageOf(effect.server.table.leases, now)))
    ensures var connections := EndEffect(w.server, w.disk, id, session, now, outcome).server.connections;
            forall k :: k in connections <==>
              k in w.server.connections
              && !(k == id && w.server.connections[k].0 == session && ActiveAt(w.server.table.leases, id, session))
    ensures var connections := EndEffect(w.server, w.disk, id, session, now, outcome).server.connections;
            forall k | k in connections :: connections[k] == w.server.connections[k]
  {
  }

  // ---- Rotating ----

  lemma RotatingAnswers(w: World, former: TokenId, next: TokenId, now: u64, outcome: SaveOutcome)
    ensures var effect := RotateEffect(w.server, w.disk, former, next, now, outcome);
            var (table, result) := Rotated(w.server.table, former, next, now);
            var moves := w.server.healthy && result.Ok? && result.value.Transferred?;
            && (effect.reply == Err(StorageUnavailable) <==> !w.server.healthy)
            && (w.server.healthy && result.Err? ==> effect.reply == Err(Refused(result.error)))
            && (w.server.healthy && result.Ok? && result.value.Unchanged? ==> effect.reply == Ok(result.value.held))
            && (moves ==> effect.reply == if outcome.Written? then Ok(Some(result.value.port)) else Err(SaveFailed))
            && effect.saved == (moves && outcome.Written?)
            && effect.server == (if effect.saved then w.server.(table := table)
                                 else w.server.(healthy := w.server.healthy && !moves))
            && effect.disk == if moves && !outcome.FailedBeforeRename? then Some(ImageOf(table.leases, now)) else w.disk
  {
  }

  // ---- Recovering ----

  lemma RecoveringAnswers(w: World, key: TokenId, next: TokenId, ip: IpAddr, now: u64, outcome: SaveOutcome)
    ensures var effect := RecoverEffect(w.server, w.disk, key, next, ip, now, outcome);
            var result := Recovered(w.server.table, key, next, ip, now).1;
            var moves := w.server.healthy && result.Ok? && result.value.changed;
            && (effect.reply == Err(StorageUnavailable) <==> !w.server.healthy)
            && (w.server.healthy && result.Err? ==> effect.reply == Err(Refused(result.error)))
            && (w.server.healthy && result.Ok? && !result.value.changed ==> effect.reply == Ok((result.value.port, None)))
            && (moves && !outcome.Written? ==> effect.reply == Err(SaveFailed))
            && (moves && outcome.Written? ==> effect.reply.Ok? && effect.reply.value.0 == result.value.port)
            && effect.saved == (moves && outcome.Written?)
  {
  }

  lemma RecoveringLeaves(w: World, key: TokenId, next: TokenId, ip: IpAddr, now: u64, outcome: SaveOutcome)
    ensures var effect := RecoverEffect(w.server, w.disk, key, next, ip, now, outcome);
            var (table, result) := Recovered(w.server.table, key, next, ip, now);
            var moves := w.server.healthy && result.Ok? && result.value.changed;
            && (!moves ==> effect.server == w.server && effect.disk == w.disk)
            && (moves ==> effect.disk == if outcome.FailedBeforeRename? then w.disk else Some(ImageOf(table.leases, now)))
            && (moves && !outcome.Written? ==> effect.server == w.server.(healthy := false))
            && (effect.saved ==> effect.server.table == table && effect.server.healthy)
  {
  }

  /** The connection a recovery takes out of the map, and answers with, is the one of the session it
      displaced; if it displaced none, or the map has another session there, it takes none. */
  lemma RecoveringTakes(w: World, key: TokenId, next: TokenId, ip: IpAddr, now: u64, outcome: SaveOutcome)
    requires RecoverEffect(w.server, w.disk, key, next, ip, now, outcome).saved
    ensures var effect := RecoverEffect(w.server, w.disk, key, next, ip, now, outcome);
            var displaced := Recovered(w.server.table, key, next, ip, now).1.value.displaced;
            if displaced.Some? && displaced.value.0 in w.server.connections
               && w.server.connections[displaced.value.0].0 == displaced.value.1
            then effect.reply.value.1 == Some(w.server.connections[displaced.value.0].1)
                 && effect.server.connections == w.server.connections - {displaced.value.0}
            else effect.reply.value.1 == None && effect.server.connections == w.server.connections
  {
  }

  // ---- Refreshing ----

  lemma RefreshingAnswers(w: World, now: u64, outcome: SaveOutcome)
    ensures var effect := RefreshEffect(w.server, w.disk, now, outcome);
            && effect.reply == (if outcome.Written? then Ok(()) else Err(SaveFailed))
            && effect.saved == outcome.Written?
            && effect.server == Server(Reaped(w.server.table, now), outcome.Written?, w.server.connections)
            && effect.disk == if outcome.FailedBeforeRename? then w.disk
                              else Some(ImageOf(Reap(w.server.table.leases, now), now))
  {
  }
}

/** Which connection each live session has: the one its registration came with, through every run,
    so that a recovery closes the displaced host's connection and no other
    (crates/server/src/state.rs). */
module Connections {
  import opened Common
  import opened HostAdmission
  import opened Leases
  import opened LeaseInvariants
  import opened ServerStates
  import opened Durability
  import opened RunProperties
  import opened ServerAnswers
  import TableAnswers

  /** A session, the key it was granted to, and the connection its registration came with. */
  datatype Begun = Begun(k: TokenId, session: u64, connection: Connection)

  /** The session that `e` starts: it is a registration with a connection, answered with a port. */
  ghost function StartOf(w: World, e: Event): Option<Begun> {
    if e.Registering? && e.connection.Some? && Registered(w, e).reply.Ok? then
      Some(Begun(e.id, Registered(w, e).reply.value.session, e.connection.value))
    else None
  }

  /** What each event of a run starts. */
  ghost function StartsOf(w: World, events: seq<Event>): (log: seq<Option<Begun>>)
    ensures |log| == |events|
  {
    if events == [] then []
    else
      var n := |events| - 1;
      StartsOf(w, events[..n]) + [StartOf(Run(w, events[..n]), events[n])]
  }

  /** The sessions started in this process, by number. */
  type Brought = map<u64, Begun>

  ghost function Brings(b: Brought, e: Event, start: Option<Begun>): Brought {
    if e.Restarting? then map[] else if start.Some? then b[start.value.session := start.value] else b
  }

  ghost function BroughtBy(b: Brought, events: seq<Event>, log: seq<Option<Begun>>): Brought
    requires |log| == |events|
  {
    if events == [] then b
    else
      var n := |events| - 1;
      Brings(BroughtBy(b, events[..n], log[..n]), events[n], log[n])
  }

  /** The sessions of the Active claims. */
  ghost function Sessions(m: Claims): map<TokenId, u64> {
    map k | k in m && m[k].status.Active? :: m[k].status.session
  }

  /** The connections are exactly those of the sessions, each the one its registration came with. */
  ghost predicate Belong(connections: map<TokenId, (u64, Connection)>, sessions: map<TokenId, u64>, b: Brought) {
    && connections.Keys == sessions.Keys
    && forall k | k in sessions ::
         && sessions[k] in b && b[sessions[k]] == Begun(k, connections[k].0, connections[k].1)
         && connections[k].0 == sessions[k]
  }

  ghost predicate ConnectionsAre(s: Server, b: Brought) {
    Belong(s.connections, Sessions(s.table.leases), b)
  }

  // ---- The sessions after each operation on the table ----

  lemma ActivatedSessions(t: Table, id: TokenId, recovery: Option<TokenId>, ip: IpAddr, port: u16, now: u64)
    requires Activated(t, id, recovery, ip, port, now).1.Ok?
    ensures var after := Sessions(Activated(t, id, recovery, ip, port, now).0.leases);
            after == Sessions(t.leases)[id := t.nextSession + 1]
  {
    TableAnswers.ActivationLeaves(t, id, recovery, ip, port, now);
  }

  lemma RotatedSessions(t: Table, former: TokenId, next: TokenId, now: u64)
    ensures Sessions(Rotated(t, former, next, now).0.leases) == Sessions(t.leases)
  {
  }

  lemma RecoveredSessions(t: Table, key: TokenId, next: TokenId, ip: IpAddr, now: u64, former: TokenId)
    requires RecoveryOk(t.leases) && former in Reap(t.leases, now) && t.leases[former].recoveryId == Some(key)
    requires Recovered(t, key, next, ip, now).1.Ok? && former != next
    ensures Sessions(Recovered(t, key, next, ip, now).0.leases) == Sessions(t.leases) - {former}
  {
    TableAnswers.RecoveryLeaves(t, key, next, ip, now, former);
  }

  lemma EndedSessions(t: Table, id: TokenId, session: u64, now: u64)
    ensures Sessions(Ended(t, id, session, now).0.leases)
         == if ActiveAt(t.leases, id, session) then Sessions(t.leases) - {id} else Sessions(t.leases)
  {
  }

  lemma ReapedSessions(m: Claims, now: u64)
    ensures Sessions(Reap(m, now)) == Sessions(m)
  {
  }

  // ---- The connections after each event ----

  lemma RegistrationConnects(w: World, b: Brought, e: Event)
    requires Durable(w) && ConnectionsAre(w.server, b) && e.Registering? && e.connection.Some?
    ensures ConnectionsAre(Registered(w, e).server, Brings(b, e, StartOf(w, e)))
  {
    if Registered(w, e).reply.Ok? {
      AnsweredConnects(w, b, e, Registered(w, e).reply.value);
    } else {
      RefusedRegistration(w, e);
      ReapedSessions(w.server.table.leases, e.now);
    }
  }

  lemma AnsweredConnects(w: World, b: Brought, e: Event, r: Registration)
    requires SessionsOk(w.server.table) && ConnectionsAre(w.server, b) && e.Registering? && e.connection.Some?
    requires Registered(w, e).reply == Ok(r)
    ensures ConnectionsAre(Registered(w, e).server, b[r.session := Begun(e.id, r.session, e.connection.value)])
  {
    RegistrationLeaves(w, e);
    ActivatedSessions(w.server.table, e.id, e.recovery, e.ip, r.port, e.now);
    SessionStarts(w.server.connections, w.server.table, b, Registered(w, e).server.connections, e.id, r.session,
                  e.connection.value);
  }

  lemma SessionStarts(connections: map<TokenId, (u64, Connection)>, t: Table, b: Brought,
                      connections': map<TokenId, (u64, Connection)>, id: TokenId, session: u64, connection: Connection)
    requires Belong(connections, Sessions(t.leases), b) && SessionsOk(t) && session == t.nextSession + 1
    requires connections'.Keys == connections.Keys + {id} && connections'[id] == (session, connection)
    requires forall k | k in connections && k != id :: connections'[k] == connections[k]
    ensures Belong(connections', Sessions(t.leases)[id := session], b[session := Begun(id, session, connection)])
  {
  }

  lemma EndingConnects(w: World, b: Brought, e: Event)
    requires ConnectionsAre(w.server, b) && e.Ending?
    ensures ConnectionsAre(Step(w, e).server, b)
  {
    EndingAnswers(w, e.id, e.session, e.now, e.outcome);
    EndedSessions(w.server.table, e.id, e.session, e.now);
  }

  lemma RotatingConnects(w: World, b: Brought, e: Event)
    requires ConnectionsAre(w.server, b) && e.Rotating?
    ensures ConnectionsAre(Step(w, e).server, b)
  {
    RotatingAnswers(w, e.former, e.next, e.now, e.outcome);
    RotatedSessions(w.server.table, e.former, e.next, e.now);
  }

  lemma RecoveringConnects(w: World, b: Brought, e: Event)
    requires Durable(w) && ConnectionsAre(w.server, b) && e.Recovering?
    ensures ConnectionsAre(Step(w, e).server, b)
  {
    RecoveringLeaves(w, e.key, e.next, e.ip, e.now, e.outcome);
    if RecoverEffect(w.server, w.disk, e.key, e.next, e.ip, e.now, e.outcome).saved {
      var former := SavedRecoveryConnects(w, e);
    }
  }

  lemma SavedRecoveryConnects(w: World, e: Event) returns (former: TokenId)
    requires Durable(w) && ConnectionsAgree(w.server)
    requires e.Recovering? && RecoverEffect(w.server, w.disk, e.key, e.next, e.ip, e.now, e.outcome).saved
    ensures Step(w, e).server.connections == w.server.connections - {former}
    ensures Sessions(Step(w, e).server.table.leases) == Sessions(w.server.table.leases) - {former}
  {
    former := KeyHolder(Reap(w.server.table.leases, e.now), e.key).value;
    RecoveringLeaves(w, e.key, e.next, e.ip, e.now, e.outcome);
    RecoveryClosesTheDisplaced(w.server, w.disk, e.key, e.next, e.ip, e.now, e.outcome, former);
    RecoveredSessions(w.server.table, e.key, e.next, e.ip, e.now, former);
  }

  lemma StepConnects(w: World, b: Brought, e: Event)
    requires Durable(w) && ConnectionsAre(w.server, b) && (e.Registering? ==> e.connection.Some?)
    ensures ConnectionsAre(Step(w, e).server, Brings(b, e, StartOf(w, e)))
  {
    match e
    case Registering(_, _, _, _, _, _, _) => RegistrationConnects(w, b, e);
    case Ending(_, _, _, _) => EndingConnects(w, b, e);
    case Rotating(_, _, _, _) => RotatingConnects(w, b, e);
    case Recovering(_, _, _, _, _) => RecoveringConnects(w, b, e);
    case Refreshing(now, outcome) =>
      RefreshingAnswers(w, now, outcome);
      ReapedSessions(w.server.table.leases, now);
    case Restarting(now) => RestartHasNoSession(w.disk, now);
  }

  /** In every reachable state, across failed saves and restarts, the map gives each Active claim
      the connection of the registration that started its session. */
  lemma {:induction false} RunConnects(w: World, b: Brought, events: seq<Event>)
    requires Durable(w) && ConnectionsAre(w.server, b) && Timely(w.clock, events)
    requires forall e | e in events :: e.Registering? ==> e.connection.Some?
    ensures ConnectionsAre(Run(w, events).server, BroughtBy(b, events, StartsOf(w, events)))
  {
    if events != [] {
      var n := |events| - 1;
      TimelyPrefix(w.clock, events);
      RunConnects(w, b, events[..n]);
      RunIsDurable(w, events[..n]);
      StepConnects(Run(w, events[..n]), BroughtBy(b, events[..n], StartsOf(w, events[..n])), events[n]);
      assert StartsOf(w, events)[..n] == StartsOf(w, events[..n]);
    }
  }

  /** `start` is what the event at `i` starts, with no restart since. */
  ghost predicate Started(events: seq<Event>, log: seq<Option<Begun>>, i: nat, start: Begun)
    requires |log| == |events|
  {
    i < |events| && log[i] == Some(start) && forall j | i <= j < |events| :: !events[j].Restarting?
  }

  lemma {:induction false} BroughtIsStarted(events: seq<Event>, log: seq<Option<Begun>>, session: u64) returns (i: nat)
    requires |log| == |events| && session in BroughtBy(map[], events, log)
    ensures Started(events, log, i, BroughtBy(map[], events, log)[session])
  {
    var n := |events| - 1;
    if log[n].Some? && log[n].value.session == session {
      i := n;
    } else {
      i := BroughtIsStarted(events[..n], log[..n], session);
    }
  }

  lemma {:induction false} StartsOfPrefix(w: World, events: seq<Event>, n: nat)
    requires n <= |events|
    ensures StartsOf(w, events)[..n] == StartsOf(w, events[..n])
  {
    if n < |events| {
      StartsOfPrefix(w, events[..|events| - 1], n);
      assert events[..|events| - 1][..n] == events[..n];
    } else {
      assert events[..n] == events;
    }
  }

  lemma StartsAt(w: World, events: seq<Event>, i: nat)
    requires i < |events|
    ensures StartsOf(w, events)[i] == StartOf(Run(w, events[..i]), events[i])
  {
    StartsOfPrefix(w, events, i + 1);
    assert events[..i + 1][..i] == events[..i];
    assert StartsOf(w, events)[i] == StartsOf(w, events)[..i + 1][i];
  }

  lemma ActiveIsStarted(w: World, events: seq<Event>, k: TokenId) returns (i: nat)
    requires ConnectionsAre(Run(w, events).server, BroughtBy(map[], events, StartsOf(w, events)))
    requires k in Sessions(Run(w, events).server.table.leases)
    ensures var connections := Run(w, events).server.connections;
            && k in connections && connections[k].0 == Sessions(Run(w, events).server.table.leases)[k]
            && Started(events, StartsOf(w, events), i, Begun(k, connections[k].0, connections[k].1))
  {
    i := BroughtIsStarted(events, StartsOf(w, events), Sessions(Run(w, events).server.table.leases)[k]);
  }

  /** From a start without sessions: a recovery of an Active claim is answered with the connection
      of the very registration that started the session it displaces, and takes that one out of
      the map; a recovery of a claim in grace closes nothing. */
  lemma RecoveryClosesItsHost(w: World, events: seq<Event>, e: Event, former: TokenId) returns (i: nat)
    requires Durable(w) && ConnectionsAre(w.server, map[]) && Timely(w.clock, events)
    requires forall e | e in events :: e.Registering? ==> e.connection.Some?
    requires var t := Run(w, events).server.table;
             && e.Recovering? && former in Reap(t.leases, e.now) && former != e.next
             && t.leases[former].recoveryId == Some(e.key)
    requires RecoverEffect(Run(w, events).server, Run(w, events).disk, e.key, e.next, e.ip, e.now, e.outcome).reply.Ok?
    ensures var s := Run(w, events).server; var claim := s.table.leases[former];
            var effect := RecoverEffect(s, Run(w, events).disk, e.key, e.next, e.ip, e.now, e.outcome);
            && effect.server.connections == s.connections - {former}
            && (claim.status.Grace? ==> effect.reply.value.1 == None)
            && (claim.status.Active? ==>
                  && effect.reply.value.1.Some?
                  && Started(events, StartsOf(w, events), i,
                             Begun(former, claim.status.session, effect.reply.value.1.value)))
  {
    i := 0;
    RunConnects(w, map[], events);
    RunIsDurable(w, events);
    if former in Sessions(Run(w, events).server.table.leases) {
      i := ActiveIsStarted(w, events, former);
    }
    RecoveryCloses(Run(w, events), BroughtBy(map[], events, StartsOf(w, events)), e, former);
  }

  lemma RecoveryCloses(w: World, b: Brought, e: Event, former: TokenId)
    requires Durable(w) && ConnectionsAre(w.server, b)
    requires e.Recovering? && former in Reap(w.server.table.leases, e.now) && former != e.next
    requires w.server.table.leases[former].recoveryId == Some(e.key)
    requires RecoverEffect(w.server, w.disk, e.key, e.next, e.ip, e.now, e.outcome).reply.Ok?
    ensures var claim := w.server.table.leases[former];
            var effect := RecoverEffect(w.server, w.disk, e.key, e.next, e.ip, e.now, e.outcome);
            && effect.server.connections == w.server.connections - {former}
            && (claim.status.Active? ==> former in w.server.connections)
            && effect.reply.value.1 == if claim.status.Active? then Some(w.server.connections[former].1) else None
  {
    RecoveryClosesTheDisplaced(w.server, w.disk, e.key, e.next, e.ip, e.now, e.outcome, former);
  }

  /** Every start-up is one without sessions. */
  lemma StartHasNoConnections(disk: Disk, now: u64)
    requires Startable(disk)
    ensures ConnectionsAre(Start(disk, now).server, map[])
  {
    RestartHasNoSession(disk, now);
  }
}

/** Asking again: a rotation or a recovery that was answered is answered again, the same way and
    without changing anything, as long as its claim lives and stays where it was moved to, through
    failed saves and restarts (crates/server/src/lease.rs, crates/server/src/state.rs). */
module Retries {
  import opened Common
  import opened HostAdmission
  import opened Leases
  import opened LeaseInvariants
  import opened ServerStates
  import opened Durability
  import opened RunProperties
  import opened ClaimHistory
  import opened ServerClaims

  // ---- A claim that stays ----

  /** The claim of `k` is with `k` after every one of `ops`. */
  ghost predicate Stays(t: Table, ops: seq<Op>, k: TokenId)
    requires k in t.leases
  {
    ops != [] ==>
      var n := |ops| - 1;
      Stays(t, ops[..n], k) && StaysAcross(ApplyAll(t, ops[..n]), ops[n], k)
  }

  ghost predicate StaysAcross(t: Table, op: Op, k: TokenId) {
    k in t.leases && Follow(t, op, k) == Some(k)
  }

  lemma StaysStep(t: Table, op: Op, k: TokenId)
    requires StaysAcross(t, op, k)
    ensures var m := Apply(t, op).leases; k in m && SameClaim(t.leases[k], m[k]) && m[k].retired == t.leases[k].retired
  {
    FollowStep(t, op, k);
    if Transfer(t, op).Some? {
      TransferShape(t, op);
    } else if Activates(t, op) {
      ActivateShape(t, op);
    } else {
      QuietShape(t, op);
    }
  }

  /** It then has the port, the recovery key and the former keys it had. */
  lemma {:induction false} StaysAsItWas(t: Table, ops: seq<Op>, k: TokenId)
    requires k in t.leases && Stays(t, ops, k)
    ensures var m := ApplyAll(t, ops).leases; k in m && SameClaim(t.leases[k], m[k]) && m[k].retired == t.leases[k].retired
  {
    if ops != [] {
      var n := |ops| - 1;
      StaysAsItWas(t, ops[..n], k);
      StaysStep(ApplyAll(t, ops[..n]), ops[n], k);
    }
  }

  lemma {:induction false} StaysFollowed(t: Table, ops: seq<Op>, k: TokenId)
    requires ValidTable(t) && k in t.leases && Stays(t, ops, k)
    ensures FollowAll(t, ops, k) == Some(k)
  {
    if ops != [] {
      var n := |ops| - 1;
      StaysFollowed(t, ops[..n], k);
    }
  }

  lemma StaysExtended(t: Table, ops: seq<Op>, op: Op, k: TokenId)
    requires ValidTable(t) && k in t.leases && Stays(t, ops, k) && FollowAll(t, ops + [op], k) == Some(k)
    ensures Stays(t, ops + [op], k)
  {
    StaysFollowed(t, ops, k);
    FollowExtended(t, ops, op, k);
    assert (ops + [op])[..|ops|] == ops;
  }

  // ---- Events that leave a claim where it is ----

  /** `e` does not move the claim of `k`, and would not if its save worked. */
  ghost predicate LeavesBe(w: World, e: Event, k: TokenId) {
    e.Restarting? || k !in w.server.table.leases || (!Moves(w, e, k) && !Moves(w, Succeeding(e), k))
  }

  ghost predicate NeverMoved(w: World, events: seq<Event>, k: TokenId) {
    events != [] ==>
      var n := |events| - 1;
      LeavesBe(Run(w, events[..n]), events[n], k) && NeverMoved(w, events[..n], k)
  }

  /** The claim stays with `k` in memory and on disk. */
  ghost predicate StaysWith(w: World, events: seq<Event>, k: TokenId)
    requires Durable(w) && k in w.server.table.leases
  {
    Stays(w.server.table, TraceOf(w, events).memory, k) && Stays(w.server.table, TraceOf(w, events).disk, k)
  }

  lemma MemoryStays(w: World, events: seq<Event>, e: Event, k: TokenId)
    requires Durable(w) && w.server.healthy && k in w.server.table.leases && Timely(w.clock, events + [e])
    requires Stays(w.server.table, TraceOf(w, events).memory, k) && !e.Restarting?
    requires NotLapsed(w, events, e, k)
    requires k in Run(w, events).server.table.leases ==> !Moves(Run(w, events), e, k)
    ensures Stays(w.server.table, TraceOf(w, events + [e]).memory, k)
  {
    StaysFollowed(w.server.table, TraceOf(w, events).memory, k);
    HolderAcross(w, events, e, k);
    var op := MemoryAcross(w, events, e);
    if op.Some? {
      StaysExtended(w.server.table, TraceOf(w, events).memory, op.value, k);
    }
  }

  lemma DiskStays(w: World, events: seq<Event>, e: Event, k: TokenId)
    requires Durable(w) && k in w.server.table.leases && !e.Restarting?
    requires Stays(w.server.table, TraceOf(w, events + [Succeeding(e)]).memory, k)
    requires Stays(w.server.table, TraceOf(w, events).disk, k)
    ensures Stays(w.server.table, TraceOf(w, events + [e]).disk, k)
  {
    DiskAcross(w, events, e);
  }

  /** The same event with a save that works comes as timely, and finds the claim as it is. */
  lemma SucceedingIsAlike(w: World, events: seq<Event>, e: Event, k: TokenId)
    requires Durable(w) && k in w.server.table.leases && !e.Restarting?
    requires Timely(w.clock, events + [e]) && NotLapsed(w, events, e, k)
    ensures Timely(w.clock, events + [Succeeding(e)]) && NotLapsed(w, events, Succeeding(e), k)
  {
    var with, done := events + [e], events + [Succeeding(e)];
    forall i | 0 <= i < |done| ensures done[i].now == with[i].now {}
  }

  lemma OneMoreStays(w: World, events: seq<Event>, e: Event, k: TokenId)
    requires Durable(w) && w.server.healthy && k in w.server.table.leases && Timely(w.clock, events + [e])
    requires StaysWith(w, events, k) && !e.Restarting? && NotLapsed(w, events, e, k) && LeavesBe(Run(w, events), e, k)
    ensures StaysWith(w, events + [e], k)
  {
    SucceedingIsAlike(w, events, e, k);
    MemoryStays(w, events, e, k);
    MemoryStays(w, events, Succeeding(e), k);
    DiskStays(w, events, e, k);
  }

  lemma RestartStays(w: World, events: seq<Event>, now: u64, k: TokenId)
    requires Durable(w) && w.server.healthy && k in w.server.table.leases && Timely(w.clock, events)
    requires Run(w, events).clock <= now && StaysWith(w, events, k) && NotLapsed(w, events, Event.Restarting(now), k)
    ensures StaysWith(w, events + [Event.Restarting(now)], k)
  {
    var r := TraceOf(w, events);
    StaysFollowed(w.server.table, r.disk, k);
    HolderAcrossRestart(w, events, now, k);
    RestartAcross(w, events, now);
    StaysExtended(w.server.table, r.disk, Restoring(r.writtenAt, now), k);
  }

  lemma NextStays(w: World, events: seq<Event>, e: Event, k: TokenId)
    requires Durable(w) && w.server.healthy && k in w.server.table.leases && Timely(w.clock, events + [e])
    requires Timely(w.clock, events) && Run(w, events).clock <= e.now
    requires StaysWith(w, events, k) && NotLapsed(w, events, e, k) && LeavesBe(Run(w, events), e, k)
    ensures StaysWith(w, events + [e], k)
  {
    if e.Restarting? {
      RestartStays(w, events, e.now, k);
    } else {
      OneMoreStays(w, events, e, k);
    }
  }

  /** A claim that no event finds lapsed, and none moves, is with its holder in memory and on disk. */
  lemma {:induction false} StaysThroughRun(w: World, events: seq<Event>, k: TokenId)
    requires Durable(w) && w.server.healthy && Timely(w.clock, events) && k in w.server.table.leases
    requires NeverLapses(w, events, k) && NeverMoved(w, events, k)
    ensures StaysWith(w, events, k)
  {
    if events != [] {
      TimelyPrefix(w.clock, events);
      var n := |events| - 1;
      StaysThroughRun(w, events[..n], k);
      ClockBeforeLast(w, events);
      assert events[..n] + [events[n]] == events;
      NextStays(w, events[..n], events[n], k);
    }
  }

  lemma AsItWas(w: World, events: seq<Event>, k: TokenId)
    requires Durable(w) && w.server.healthy && Timely(w.clock, events) && k in w.server.table.leases
    requires NeverLapses(w, events, k) && NeverMoved(w, events, k)
    ensures var m := Run(w, events).server.table.leases;
            k in m && SameClaim(w.server.table.leases[k], m[k]) && m[k].retired == w.server.table.leases[k].retired
  {
    StaysThroughRun(w, events, k);
    MemoryOfRun(w, events);
    StaysAsItWas(w.server.table, TraceOf(w, events).memory, k);
  }

  // ---- Asking again ----

  lemma RotationAgain(w: World, former: TokenId, next: TokenId, later: u64, outcome: SaveOutcome)
    requires ValidTable(w.server.table) && w.server.healthy
    requires next in Reap(w.server.table.leases, later) && former in w.server.table.leases[next].retired
    ensures RotateEffect(w.server, w.disk, former, next, later, outcome)
         == Effect(w.server, w.disk, false, Ok(Some(w.server.table.leases[next].port)))
  {
    assert former != next;
  }

  /** Idempotence of rotation over whole runs: once a rotation was answered with a port, the same
      request is answered with that port, and writes nothing, after every run in which the claim
      neither lapses nor is moved on, whatever the run does to everything else. (That the claim is
      there after the first request follows; it is required only to speak of the run.) */
  lemma RotationStaysAnswered(w: World, e: Event, events: seq<Event>, later: u64, outcome: SaveOutcome)
    requires Durable(w) && e.Rotating? && w.clock <= e.now && Timely(e.now, events)
    requires var reply := RotateEffect(w.server, w.disk, e.former, e.next, e.now, e.outcome).reply;
             reply.Ok? && reply.value.Some?
    requires Durable(Step(w, e)) && e.next in Step(w, e).server.table.leases
    requires NeverLapses(Step(w, e), events, e.next) && NeverMoved(Step(w, e), events, e.next)
    requires var m := Run(Step(w, e), events).server; m.healthy && e.next in Reap(m.table.leases, later)
    ensures var m := Run(Step(w, e), events);
            RotateEffect(m.server, m.disk, e.former, e.next, later, outcome)
              == Effect(m.server, m.disk, false, RotateEffect(w.server, w.disk, e.former, e.next, e.now, e.outcome).reply)
  {
    RotatedSurvives(w, e.former, e.next, e.now, e.outcome);
    RotatedHealthy(w, e);
    AsItWas(Step(w, e), events, e.next);
    RunIsDurable(Step(w, e), events);
    RotationAgain(Run(Step(w, e), events), e.former, e.next, later, outcome);
  }

  lemma RotatedHealthy(w: World, e: Event)
    requires e.Rotating? && RotateEffect(w.server, w.disk, e.former, e.next, e.now, e.outcome).reply.Ok?
    ensures Step(w, e).server.healthy && Step(w, e).clock == e.now
  {
  }

  lemma RecoveryAgain(w: World, key: TokenId, next: TokenId, ip: IpAddr, later: u64, outcome: SaveOutcome)
    requires ValidTable(w.server.table) && w.server.healthy
    requires next in Reap(w.server.table.leases, later) && w.server.table.leases[next].recoveryId == Some(key)
    ensures RecoverEffect(w.server, w.disk, key, next, ip, later, outcome)
         == Effect(w.server, w.disk, false, Ok((w.server.table.leases[next].port, None)))
  {
    KeyHolderIsUnique(Reap(w.server.table.leases, later), key, next);
  }

  /** And idempotence of recovery: the port again, and no connection to close. */
  lemma RecoveryStaysAnswered(w: World, e: Event, events: seq<Event>, ip: IpAddr, later: u64, outcome: SaveOutcome)
    requires Durable(w) && e.Recovering? && w.clock <= e.now && Timely(e.now, events)
    requires RecoverEffect(w.server, w.disk, e.key, e.next, e.ip, e.now, e.outcome).reply.Ok?
    requires Durable(Step(w, e)) && e.next in Step(w, e).server.table.leases
    requires NeverLapses(Step(w, e), events, e.next) && NeverMoved(Step(w, e), events, e.next)
    requires var m := Run(Step(w, e), events).server; m.healthy && e.next in Reap(m.table.leases, later)
    ensures var m := Run(Step(w, e), events);
            RecoverEffect(m.server, m.disk, e.key, e.next, ip, later, outcome)
              == Effect(m.server, m.disk, false,
                        Ok((RecoverEffect(w.server, w.disk, e.key, e.next, e.ip, e.now, e.outcome).reply.value.0, None)))
  {
    RecoveredClaim(w.server, w.disk, e.key, e.next, e.ip, e.now, e.outcome);
    RecoveredHealthy(w, e);
    AsItWas(Step(w, e), events, e.next);
    RunIsDurable(Step(w, e), events);
    RecoveryAgain(Run(Step(w, e), events), e.key, e.next, ip, later, outcome);
  }

  lemma RecoveredHealthy(w: World, e: Event)
    requires e.Recovering?
    ensures var effect := RecoverEffect(w.server, w.disk, e.key, e.next, e.ip, e.now, e.outcome);
            Step(w, e).server == effect.server && Step(w, e).clock == e.now
  {
  }
}

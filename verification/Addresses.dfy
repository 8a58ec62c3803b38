/** Which address each claim is charged to, through whole runs: the one it was last registered or
    recovered from. So the quota refuses a new host exactly when two claims came from its source
    (crates/server/src/lease.rs, crates/server/src/state.rs). */
module Addresses {
  import opened Common
  import opened HostAdmission
  import opened Leases
  import opened LeaseInvariants
  import opened ServerStates
  import opened Durability
  import RunProperties
  import opened ClaimHistory
  import opened ServerClaims
  import opened ServerAnswers
  import TableAnswers

  /** The address each live claim last came from, if it is known. */
  type Origins = map<TokenId, Option<IpAddr>>

  /** How the addresses change, said without the leases: an activation and a recovery that moves the
      claim bring their own, a rotation carries the one there was. */
  ghost function Came(t: Table, a: Origins, op: Op): Origins
    requires a.Keys == t.leases.Keys
  {
    var transfer := Transfer(t, op);
    map k | k in Apply(t, op).leases ::
      if Activates(t, op) && op.id == k then Some(op.ip)
      else if transfer.Some? && transfer.value.1 == k then
        if op.Recovering? then Some(op.ip) else if transfer.value.0 in a then a[transfer.value.0] else None
      else if k in a then a[k]
      else None
  }

  ghost function CameAll(t: Table, a: Origins, ops: seq<Op>): Origins
    requires a.Keys == t.leases.Keys
    ensures CameAll(t, a, ops).Keys == ApplyAll(t, ops).leases.Keys
  {
    if ops == [] then a
    else
      var n := |ops| - 1;
      Came(ApplyAll(t, ops[..n]), CameAll(t, a, ops[..n]), ops[n])
  }

  ghost predicate ChargedAs(m: Claims, a: Origins) {
    a.Keys == m.Keys && forall k | k in m :: m[k].lastIp == a[k]
  }

  lemma ActivationCame(t: Table, a: Origins, op: Op)
    requires ChargedAs(t.leases, a) && Activates(t, op)
    ensures ChargedAs(Apply(t, op).leases, Came(t, a, op))
  {
    TableAnswers.ActivationLeaves(t, op.id, op.recovery, op.ip, op.port, op.now);
  }

  lemma RotationCame(t: Table, a: Origins, op: Op)
    requires ChargedAs(t.leases, a) && op.Moving? && Transfer(t, op).Some?
    ensures ChargedAs(Apply(t, op).leases, Came(t, a, op))
  {
    TransferShape(t, op);
    TableAnswers.RotationLeaves(t, op.former, op.next, op.now);
  }

  lemma RecoveryCame(t: Table, a: Origins, op: Op)
    requires RecoveryOk(t.leases) && ChargedAs(t.leases, a) && op.Recovering? && Transfer(t, op).Some?
    ensures ChargedAs(Apply(t, op).leases, Came(t, a, op))
  {
    TransferShape(t, op);
    TableAnswers.RecoveryLeaves(t, op.key, op.next, op.ip, op.now, Transfer(t, op).value.0);
  }

  lemma QuietCame(t: Table, a: Origins, op: Op)
    requires ChargedAs(t.leases, a) && Transfer(t, op).None? && !Activates(t, op)
    ensures ChargedAs(Apply(t, op).leases, Came(t, a, op))
  {
  }

  lemma StepCame(t: Table, a: Origins, op: Op)
    requires RecoveryOk(t.leases) && ChargedAs(t.leases, a)
    ensures ChargedAs(Apply(t, op).leases, Came(t, a, op))
  {
    if Transfer(t, op).Some? {
      if op.Moving? {
        RotationCame(t, a, op);
      } else {
        RecoveryCame(t, a, op);
      }
    } else if Activates(t, op) {
      ActivationCame(t, a, op);
    } else {
      QuietCame(t, a, op);
    }
  }

  /** Through every run of the table each claim is charged to the address it last came from. */
  lemma {:induction false} RunCame(t: Table, a: Origins, ops: seq<Op>)
    requires ValidTable(t) && ChargedAs(t.leases, a)
    ensures ChargedAs(ApplyAll(t, ops).leases, CameAll(t, a, ops))
  {
    if ops != [] {
      var n := |ops| - 1;
      RunCame(t, a, ops[..n]);
      ApplyAllKeepsValid(t, ops[..n]);
      StepCame(ApplyAll(t, ops[..n]), CameAll(t, a, ops[..n]), ops[n]);
    }
  }

  // ---- Runs of the relay ----

  ghost function OriginsOf(w: World, a: Origins, events: seq<Event>): Origins
    requires a.Keys == w.server.table.leases.Keys
  {
    CameAll(w.server.table, a, TraceOf(w, events).memory)
  }

  ghost function DiskOrigins(w: World, a: Origins, events: seq<Event>): Origins
    requires a.Keys == w.server.table.leases.Keys
  {
    CameAll(w.server.table, a, TraceOf(w, events).disk)
  }

  /** Through every run of the relay, whatever saves fail and whenever it restarts. */
  lemma ServerRunCame(w: World, a: Origins, events: seq<Event>)
    requires Durable(w) && w.server.healthy && Timely(w.clock, events) && ChargedAs(w.server.table.leases, a)
    ensures ChargedAs(Run(w, events).server.table.leases, OriginsOf(w, a, events))
  {
    MemoryOfRun(w, events);
    RunCame(w.server.table, a, TraceOf(w, events).memory);
  }

  /** And in every later restart, with the addresses the disk has. */
  lemma ServerRunCameOnDisk(w: World, a: Origins, events: seq<Event>, late: u64)
    requires Durable(w) && w.server.healthy && Timely(w.clock, events) && ChargedAs(w.server.table.leases, a)
    requires Run(w, events).clock <= late
    ensures Startable(Run(w, events).disk)
    ensures var restarted, origins := StartTable(Run(w, events).disk, late).leases, DiskOrigins(w, a, events);
            forall k | k in restarted :: k in origins && restarted[k].lastIp == origins[k]
  {
    RestartBrings(w, events, late);
    RunCame(w.server.table, a, TraceOf(w, events).disk);
  }

  // ---- What the addresses are ----

  /** `e` brings the claim of `k` to the address of `e`: it is a registration of `k` answered with a
      port, or a recovery to `k` that was saved. */
  ghost predicate Arrives(w: World, e: Event, k: TokenId) {
    match e
    case Registering(id, _, _, _, _, _, _) => id == k && Registered(w, e).reply.Ok?
    case Recovering(key, next, ip, now, outcome) =>
      next == k && RecoverEffect(w.server, w.disk, key, next, ip, now, outcome).saved
    case _ => false
  }

  /** `e` is a rotation to `k` that was saved. */
  ghost predicate Inherits(w: World, e: Event, k: TokenId) {
    e.Rotating? && e.next == k && RotateEffect(w.server, w.disk, e.former, e.next, e.now, e.outcome).saved
  }

  lemma OpCame(w: World, a: Origins, e: Event, k: TokenId)
    requires RecoveryOk(w.server.table.leases) && a.Keys == w.server.table.leases.Keys
    requires !e.Restarting? && k in Step(w, e).server.table.leases
    ensures var op := OpOf(w, e); var a' := if op.Some? then Came(w.server.table, a, op.value) else a;
            && k in a'
            && (Arrives(w, e, k) ==> a'[k] == Some(e.ip))
            && (Inherits(w, e, k) ==> e.former in a && a'[k] == a[e.former])
            && (!Arrives(w, e, k) && !Inherits(w, e, k) ==> k in a && a'[k] == a[k])
  {
    EventIsOp(w, e);
    match e
    case Registering(_, _, _, _, _, _, _) => RegisteringCame(w, a, e, k);
    case Rotating(_, _, _, _) => RotatingCame(w, a, e, k);
    case Recovering(_, _, _, _, _) => RecoveringCame(w, a, e, k);
    case _ =>
  }

  lemma RegisteringCame(w: World, a: Origins, e: Event, k: TokenId)
    requires a.Keys == w.server.table.leases.Keys && e.Registering? && k in Step(w, e).server.table.leases
    ensures var op := OpOf(w, e); var a' := if op.Some? then Came(w.server.table, a, op.value) else a;
            && k in a'
            && if Arrives(w, e, k) then a'[k] == Some(e.ip) else k in a && a'[k] == a[k]
  {
    EventIsOp(w, e);
    if Registered(w, e).reply.Ok? {
      RegistrationLeaves(w, e);
    }
  }

  lemma RotatingCame(w: World, a: Origins, e: Event, k: TokenId)
    requires a.Keys == w.server.table.leases.Keys && e.Rotating? && k in Step(w, e).server.table.leases
    ensures var op := OpOf(w, e); var a' := if op.Some? then Came(w.server.table, a, op.value) else a;
            && k in a'
            && if Inherits(w, e, k) then e.former in a && a'[k] == a[e.former] else k in a && a'[k] == a[k]
  {
    EventIsOp(w, e);
    RotatingAnswers(w, e.former, e.next, e.now, e.outcome);
    TableAnswers.RotationLeaves(w.server.table, e.former, e.next, e.now);
  }

  lemma RecoveringCame(w: World, a: Origins, e: Event, k: TokenId)
    requires RecoveryOk(w.server.table.leases) && a.Keys == w.server.table.leases.Keys
    requires e.Recovering? && k in Step(w, e).server.table.leases
    ensures var op := OpOf(w, e); var a' := if op.Some? then Came(w.server.table, a, op.value) else a;
            && k in a'
            && if Arrives(w, e, k) then a'[k] == Some(e.ip) else k in a && a'[k] == a[k]
  {
    EventIsOp(w, e);
    RecoveringAnswers(w, e.key, e.next, e.ip, e.now, e.outcome);
  }

  lemma CameExtended(t: Table, a: Origins, ops: seq<Op>, op: Option<Op>)
    requires a.Keys == t.leases.Keys
    ensures CameAll(t, a, Extended(ops, op))
         == if op.Some? then Came(ApplyAll(t, ops), CameAll(t, a, ops), op.value) else CameAll(t, a, ops)
  {
    if op.Some? {
      assert (ops + [op.value])[..|ops|] == ops;
    }
  }

  /** One more event: a registration or a recovery that is answered brings its own address, a
      rotation carries the former holder's, and every other claim keeps the one it had. */
  lemma OriginAcross(w: World, a: Origins, events: seq<Event>, e: Event, k: TokenId)
    requires Durable(w) && w.server.healthy && a.Keys == w.server.table.leases.Keys
    requires Timely(w.clock, events + [e]) && !e.Restarting? && k in Run(w, events + [e]).server.table.leases
    ensures var m, before, after := Run(w, events), OriginsOf(w, a, events), OriginsOf(w, a, events + [e]);
            && k in after
            && (Arrives(m, e, k) ==> after[k] == Some(e.ip))
            && (Inherits(m, e, k) ==> e.former in before && after[k] == before[e.former])
            && (!Arrives(m, e, k) && !Inherits(m, e, k) ==> k in before && after[k] == before[k])
  {
    TimelySoFar(w.clock, events, e);
    OneMoreEvent(w, events, e);
    MemoryOfRun(w, events);
    RunIsDurable(w, events);
    MemoryExtends(Run(w, events), e, TraceOf(w, events));
    OriginAfter(w.server.table, a, TraceOf(w, events).memory, Run(w, events), e, k);
  }

  lemma MemoryExtends(w: World, e: Event, r: Trace)
    requires !e.Restarting?
    ensures TraceStep(w, e, r).memory == Extended(r.memory, OpOf(w, e))
  {
  }

  lemma OriginAfter(t: Table, a: Origins, ops: seq<Op>, w: World, e: Event, k: TokenId)
    requires a.Keys == t.leases.Keys && ApplyAll(t, ops) == w.server.table && RecoveryOk(w.server.table.leases)
    requires !e.Restarting? && k in Step(w, e).server.table.leases
    ensures var before, after := CameAll(t, a, ops), CameAll(t, a, Extended(ops, OpOf(w, e)));
            && k in after
            && (Arrives(w, e, k) ==> after[k] == Some(e.ip))
            && (Inherits(w, e, k) ==> e.former in before && after[k] == before[e.former])
            && (!Arrives(w, e, k) && !Inherits(w, e, k) ==> k in before && after[k] == before[k])
  {
    CameExtended(t, a, ops, OpOf(w, e));
    OpCame(w, CameAll(t, a, ops), e, k);
  }

  lemma SameOps(t: Table, a: Origins, ops: seq<Op>, ops': seq<Op>)
    requires a.Keys == t.leases.Keys && ops == ops'
    ensures CameAll(t, a, ops) == CameAll(t, a, ops')
  {
  }

  /** The disk's addresses change with a save that reaches the rename, to those the event was to leave. */
  lemma DiskOriginsAcross(w: World, a: Origins, events: seq<Event>, e: Event)
    requires a.Keys == w.server.table.leases.Keys && !e.Restarting?
    ensures DiskOrigins(w, a, events + [e]) ==
              if Saves(Run(w, events), e) && !e.outcome.FailedBeforeRename?
              then OriginsOf(w, a, events + [RunProperties.Succeeding(e)])
              else DiskOrigins(w, a, events)
  {
    DiskAcross(w, events, e);
    if Saves(Run(w, events), e) && !e.outcome.FailedBeforeRename? {
      SameOps(w.server.table, a, TraceOf(w, events + [e]).disk, TraceOf(w, events + [RunProperties.Succeeding(e)]).memory);
    } else {
      SameOps(w.server.table, a, TraceOf(w, events + [e]).disk, TraceOf(w, events).disk);
    }
  }

  /** A restart takes up the addresses the disk has. */
  lemma OriginAcrossRestart(w: World, a: Origins, events: seq<Event>, now: u64, k: TokenId)
    requires Durable(w) && w.server.healthy && Timely(w.clock, events) && Run(w, events).clock <= now
    requires a.Keys == w.server.table.leases.Keys
    requires k in ApplyAll(w.server.table, TraceOf(w, events + [Event.Restarting(now)]).memory).leases
    ensures var before, after := DiskOrigins(w, a, events), OriginsOf(w, a, events + [Event.Restarting(now)]);
            k in before && k in after && after[k] == before[k]
  {
    RestartAcross(w, events, now);
    var r := TraceOf(w, events);
    CameExtended(w.server.table, a, r.disk, Some(Restoring(r.writtenAt, now)));
    RestoringApplies(w.server.table, r.disk, r.writtenAt, now);
  }

  // ---- The quota, said with the addresses ----

  /** Two claims, live at `now`, last came from the source of `ip`. */
  ghost predicate TwoFrom(m: Claims, a: Origins, ip: IpAddr, now: u64)
    requires a.Keys == m.Keys
  {
    exists x, y :: x != y && x in m && y in m && !Expired(m[x], now) && !Expired(m[y], now)
      && a[x].Some? && SourceOf(a[x].value) == SourceOf(ip) && a[y].Some? && SourceOf(a[y].value) == SourceOf(ip)
  }

  lemma TwoFromIsFull(m: Claims, a: Origins, ip: IpAddr, now: u64)
    requires ChargedAs(m, a)
    ensures TwoFrom(m, a, ip, now) <==> TableAnswers.SourceIsFull(Reap(m, now), ip)
  {
    var r := Reap(m, now);
    if x, y :| x != y && x in m && y in m && !Expired(m[x], now) && !Expired(m[y], now)
               && a[x].Some? && SourceOf(a[x].value) == SourceOf(ip) && a[y].Some? && SourceOf(a[y].value) == SourceOf(ip) {
      assert x in r && y in r && ChargedTo(r[x], SourceOf(ip)) && ChargedTo(r[y], SourceOf(ip));
    }
    if x, y :| x != y && x in r && y in r && ChargedTo(r[x], SourceOf(ip)) && ChargedTo(r[y], SourceOf(ip)) {
      assert a[x].Some? && a[y].Some?;
    }
  }

  /** In every reachable healthy state: a host that has no live claim and is not retired is told that
      its source has too many tunnels if and only if two live claims last came from that source. */
  lemma QuotaOfRun(w: World, a: Origins, events: seq<Event>, e: Event)
    requires Durable(w) && w.server.healthy && Timely(w.clock, events) && ChargedAs(w.server.table.leases, a)
    requires e.Registering? && Run(w, events).server.healthy
    requires var m := Reap(Run(w, events).server.table.leases, e.now); e.id !in m && !IsRetired(m, e.id)
    ensures OriginsOf(w, a, events).Keys == Run(w, events).server.table.leases.Keys
    ensures Registered(Run(w, events), e).reply == Err(Refused(TooManyTunnels)) <==>
            TwoFrom(Run(w, events).server.table.leases, OriginsOf(w, a, events), e.ip, e.now)
  {
    ServerRunCame(w, a, events);
    RunIsDurable(w, events);
    TwoFromIsFull(Run(w, events).server.table.leases, OriginsOf(w, a, events), e.ip, e.now);
    QuotaRefusal(Run(w, events), e);
  }

  lemma QuotaRefusal(w: World, e: Event)
    requires ValidTable(w.server.table) && w.server.healthy && e.Registering?
    requires var m := Reap(w.server.table.leases, e.now); e.id !in m && !IsRetired(m, e.id)
    ensures Registered(w, e).reply == Err(Refused(TooManyTunnels)) <==>
            TableAnswers.SourceIsFull(Reap(w.server.table.leases, e.now), e.ip)
  {
    TableAnswers.OfferAnswers(w.server.table, e.id, e.ip, e.now);
    var n := RegistrationAnswers(w, e);
    if MayScan(w, e) && n < |Offer(w, e).value| {
      TableAnswers.ActivationAnswers(w.server.table, e.id, e.recovery, e.ip, Offer(w, e).value[n], e.now);
    }
  }
}

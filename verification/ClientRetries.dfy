/** A rotation from the host's side: every way the relay can refuse a prepared one, and a retry after a
    lost answer, which is never refused for what the first try did (crates/core/src/identity.rs,
    crates/cli/src/tunnel.rs, crates/server/src/lease.rs). */
module ClientRetries {
  import opened Common
  import opened HostAdmission
  import opened Leases
  import opened LeaseInvariants
  import opened ServerStates
  import opened Durability
  import opened Identity
  import opened HostClaims
  import opened ClientProtocol
  import History = ClaimHistory
  import ServerClaims
  import ServerAnswers
  import TableAnswers

  // ---- Every answer to a prepared rotation ----

  /** The answer to a rotation of this host from `former` to its pending `next`, told by what the host
      has at the relay. */
  lemma RotationReplies(pt: Party, w: World, former: TokenId, next: TokenId, now: u64, outcome: SaveOutcome,
                        used: set<TokenId>)
    requires Durable(w) && w.clock <= now && w.server.healthy
    requires former != next && former in pt.ours && next in pt.ours && Fits(pt, w, {former, next}, used, Some(next))
    ensures var m := Reap(w.server.table.leases, now);
            var reply := RotateEffect(w.server, w.disk, former, next, now, outcome).reply;
            && !(former in m && next in m)
            && (former !in m && next !in m ==> reply == Ok(None))
            && (next in m ==> reply == if former in m[next].retired then Ok(Some(m[next].port))
                                       else Err(Refused(NewIdentityOwnsClaim)))
            && (former in m ==> reply == if m[former].status.Active? then Err(Refused(StopActiveTunnel))
                                         else if m[former].retired != [] then Err(Refused(RotatedOnce))
                                         else if outcome.Written? then Ok(Some(m[former].port))
                                         else Err(SaveFailed))
  {
    WaitingFits(pt, w, now, {former, next}, used, Some(next));
    ReapedKeeps(w.server.table, now);
    TableReplies(pt, w.server.table, former, next, now, used);
    ServerAnswers.RotatingAnswers(w, former, next, now, outcome);
  }

  lemma TableReplies(pt: Party, t: Table, former: TokenId, next: TokenId, now: u64, used: set<TokenId>)
    requires ValidTable(t) && ValidTable(Reaped(t, now)) && former != next && former in pt.ours && next in pt.ours
    requires ClaimsFit(pt, Reap(t.leases, now), {former, next}, used, Some(next))
    ensures var m := Reap(t.leases, now); var answer := Rotated(t, former, next, now).1;
            && !(former in m && next in m)
            && (former !in m && next !in m ==> answer == Ok(Unchanged(None)))
            && (next in m ==> answer == if former in m[next].retired then Ok(Unchanged(Some(m[next].port)))
                                        else Err(NewIdentityOwnsClaim))
            && (former in m ==> answer == if m[former].status.Active? then Err(StopActiveTunnel)
                                          else if m[former].retired != [] then Err(RotatedOnce)
                                          else Ok(Transferred(m[former].port)))
  {
    var m := Reap(t.leases, now);
    assert !IsRetired(m, next);
    if IsRetired(m, former) {
      var k :| k in m && former in m[k].retired;
      assert k == next by { assert former in m ==> !IsRetired(m, former); }
    }
    TableAnswers.RotationAnswers(t, former, next, now);
  }

  /** A rotation the host has prepared is refused in exactly these cases: storage is unavailable or
      the save fails; its old identity runs a tunnel; its claim has changed keys before; or the host
      has registered its pending identity, which then has a claim that never was the old one's. In
      particular it is never refused for what an earlier try of it did. */
  lemma PreparedRotationReplies(pt: Party, s: System, ip: IpAddr, now: u64, outcome: SaveOutcome)
    requires Converges(pt, s) && Possible(pt, s, Deliver(ip, now, outcome)) && s.command.pending.kind.Rotation?
    ensures var former, next := pt.fingerprint(s.command.pending.oldToken.value), pt.fingerprint(s.command.pending.newToken);
            var m := Reap(s.world.server.table.leases, now);
            var reply := RotateEffect(s.world.server, s.world.disk, former, next, now, outcome).reply;
            if !s.world.server.healthy then reply == Err(StorageUnavailable)
            else if former in m then
              && next !in m
              && (reply == Err(Refused(StopActiveTunnel)) <==> m[former].status.Active?)
              && (reply == Err(Refused(RotatedOnce)) <==> m[former].status.Grace? && m[former].retired != [])
              && (reply == Err(SaveFailed) <==> m[former].status.Grace? && m[former].retired == [] && !outcome.Written?)
              && (reply == Ok(Some(m[former].port)) <==>
                    m[former].status.Grace? && m[former].retired == [] && outcome.Written?)
            else if next in m then
              && (reply == Err(Refused(NewIdentityOwnsClaim)) <==> former !in m[next].retired)
              && (reply == Ok(Some(m[next].port)) <==> former in m[next].retired)
            else reply == Ok(None)
  {
    var former, next := pt.fingerprint(s.command.pending.oldToken.value), pt.fingerprint(s.command.pending.newToken);
    PreparedTokens(pt, s);
    if s.world.server.healthy {
      RotationReplies(pt, s.world, former, next, now, outcome, s.used);
    }
  }

  lemma PreparedTokens(pt: Party, s: System)
    requires Converges(pt, s) && s.command.Sent? && s.command.pending.kind.Rotation?
    ensures var p := s.command.pending;
            && p.oldToken.Some? && pt.fingerprint(p.oldToken.value) != pt.fingerprint(p.newToken)
            && IdsIn(pt, s.files) == {pt.fingerprint(p.oldToken.value), pt.fingerprint(p.newToken)}
            && TokenIn(pt, s.files, PendingFile) == Some(pt.fingerprint(p.newToken))
            && s.files.Keys >= {IdentityFile, PendingFile}
            && s.files[IdentityFile] == p.oldToken.value && s.files[PendingFile] == p.newToken
  {
    var p := s.command.pending;
    assert TokenIn(pt, s.files, IdentityFile) == Some(pt.fingerprint(p.oldToken.value));
    assert TokenIn(pt, s.files, PendingFile) == Some(pt.fingerprint(p.newToken));
  }

  // ---- What others cannot do to a claim of this host ----

  ghost predicate ForeignOp(pt: Party, op: History.Op) {
    match op
    case Activating(id, recovery, _, _, _) => id !in pt.ours && recovery != Some(pt.key)
    case Moving(former, next, _) => former !in pt.ours && next !in pt.ours
    case Recovering(key, next, _, _) => key != pt.key && next !in pt.ours
    case _ => true
  }

  /** Nobody but this host can recover the claim. */
  ghost predicate Unclaimable(pt: Party, m: Claims, k: TokenId) {
    k in m ==> m[k].recoveryId in {None, Some(pt.key)}
  }

  /** If `k` has a claim in `m'` it had it in `m`, with the same port and keys, and if it was in grace
      there, then for as long. */
  ghost predicate HadBefore(m: Claims, m': Claims, k: TokenId) {
    k in m' ==> k in m && History.SameKeys(m[k], m'[k]) && (m[k].status.Grace? ==> m'[k].status == m[k].status)
  }

  lemma ForeignOpKeeps(pt: Party, t: Table, op: History.Op, k: TokenId)
    requires ForeignOp(pt, op) && k in pt.ours && Unclaimable(pt, t.leases, k)
    ensures HadBefore(t.leases, History.Apply(t, op).leases, k)
  {
    if History.Transfer(t, op).Some? {
      History.TransferShape(t, op);
    } else if History.Activates(t, op) {
      History.ActivateShape(t, op);
    } else {
      History.QuietShape(t, op);
    }
  }

  lemma {:induction false} ForeignOpsKeep(pt: Party, t: Table, ops: seq<History.Op>, k: TokenId)
    requires k in pt.ours && Unclaimable(pt, t.leases, k) && forall op | op in ops :: ForeignOp(pt, op)
    ensures HadBefore(t.leases, History.ApplyAll(t, ops).leases, k)
  {
    if ops != [] {
      var n := |ops| - 1;
      ForeignOpsKeep(pt, t, ops[..n], k);
      assert ops[n] in ops;
      ForeignOpKeeps(pt, History.ApplyAll(t, ops[..n]), ops[n], k);
    }
  }

  lemma ForeignTraceStep(pt: Party, w: World, e: Event, r: ServerClaims.Trace)
    requires Foreign(pt, e) && forall op | op in r.memory + r.disk :: ForeignOp(pt, op)
    ensures var r' := ServerClaims.TraceStep(w, e, r); forall op | op in r'.memory + r'.disk :: ForeignOp(pt, op)
  {
  }

  lemma {:induction false} ForeignTrace(pt: Party, w: World, events: seq<Event>)
    requires forall e | e in events :: Foreign(pt, e)
    ensures var r := ServerClaims.TraceOf(w, events); forall op | op in r.memory + r.disk :: ForeignOp(pt, op)
  {
    if events != [] {
      var n := |events| - 1;
      ForeignTrace(pt, w, events[..n]);
      assert events[n] in events;
      ForeignTraceStep(pt, Run(w, events[..n]), events[n], ServerClaims.TraceOf(w, events[..n]));
    }
  }

  /** Through every run of others' events, with failed saves and restarts. */
  lemma ForeignRunKeeps(pt: Party, w: World, events: seq<Event>, k: TokenId)
    requires Durable(w) && w.server.healthy && Timely(w.clock, events) && forall e | e in events :: Foreign(pt, e)
    requires k in pt.ours && Unclaimable(pt, w.server.table.leases, k)
    ensures HadBefore(w.server.table.leases, Run(w, events).server.table.leases, k)
  {
    ForeignTrace(pt, w, events);
    var r := ServerClaims.TraceOf(w, events);
    assert forall op | op in r.memory :: op in r.memory + r.disk;
    ForeignOpsKeep(pt, w.server.table, r.memory, k);
    ServerClaims.MemoryOfRun(w, events);
  }

  /** `k` has no claim, or one whose grace is over at `now`. */
  ghost predicate Lapsed(m: Claims, k: TokenId, now: u64) {
    k in m ==> Expired(m[k], now)
  }

  lemma LapsedOpKeeps(pt: Party, t: Table, op: History.Op, k: TokenId, now: u64)
    requires ForeignOp(pt, op) && k in pt.ours && Lapsed(t.leases, k, now)
    ensures Lapsed(History.Apply(t, op).leases, k, now)
  {
    if History.Transfer(t, op).Some? {
      History.TransferShape(t, op);
    } else if History.Activates(t, op) {
      History.ActivateShape(t, op);
    } else {
      History.QuietShape(t, op);
    }
  }

  lemma {:induction false} LapsedOpsKeep(pt: Party, t: Table, ops: seq<History.Op>, k: TokenId, now: u64)
    requires k in pt.ours && Lapsed(t.leases, k, now) && forall op | op in ops :: ForeignOp(pt, op)
    ensures Lapsed(History.ApplyAll(t, ops).leases, k, now)
  {
    if ops != [] {
      var n := |ops| - 1;
      LapsedOpsKeep(pt, t, ops[..n], k, now);
      assert ops[n] in ops;
      LapsedOpKeeps(pt, History.ApplyAll(t, ops[..n]), ops[n], k, now);
    }
  }

  lemma LapsedRunKeeps(pt: Party, w: World, events: seq<Event>, k: TokenId, now: u64)
    requires Durable(w) && w.server.healthy && Timely(w.clock, events) && forall e | e in events :: Foreign(pt, e)
    requires k in pt.ours && Lapsed(w.server.table.leases, k, now)
    ensures Lapsed(Run(w, events).server.table.leases, k, now)
  {
    ForeignTrace(pt, w, events);
    var r := ServerClaims.TraceOf(w, events);
    assert forall op | op in r.memory :: op in r.memory + r.disk;
    LapsedOpsKeep(pt, w.server.table, r.memory, k, now);
    ServerClaims.MemoryOfRun(w, events);
  }

  // ---- The retry at the relay ----

  /** What an answered rotation leaves: the claim under the new key with the old one retired, on the
      port of the answer; or no claim of the new key that lives. */
  ghost predicate Done(w: World, former: TokenId, next: TokenId, answer: Option<u16>, now: u64) {
    if answer.Some? then
      var m := w.server.table.leases;
      next in m && former in m[next].retired && m[next].port == answer.value && !Expired(m[next], now)
    else Lapsed(w.server.table.leases, next, now)
  }

  lemma AnsweredIsDone(w: World, former: TokenId, next: TokenId, now: u64, outcome: SaveOutcome)
    requires former != next && RotateEffect(w.server, w.disk, former, next, now, outcome).reply.Ok?
    ensures var reply := RotateEffect(w.server, w.disk, former, next, now, outcome).reply;
            var after := Step(w, Rotating(former, next, now, outcome));
            after.clock == now && after.server.healthy && Done(after, former, next, reply.value, now)
  {
  }

  lemma StillDone(pt: Party, w: World, events: seq<Event>, former: TokenId, next: TokenId, answer: Option<u16>, now: u64)
    requires Durable(w) && w.server.healthy && Timely(w.clock, events) && forall e | e in events :: Foreign(pt, e)
    requires next in pt.ours && Done(w, former, next, answer, now)
    requires answer.Some? ==> Unclaimable(pt, w.server.table.leases, next)
    ensures var m := Run(w, events).server.table.leases;
            if answer.Some? then next in m ==> former in m[next].retired && m[next].port == answer.value
            else Lapsed(m, next, now)
  {
    if answer.Some? {
      ForeignRunKeeps(pt, w, events, next);
    } else {
      LapsedRunKeeps(pt, w, events, next, now);
    }
  }

  lemma PermittedRun(pt: Party, events: seq<Event>, allowed: set<TokenId>, barred: Option<TokenId>)
    requires forall e | e in events :: Foreign(pt, e)
    ensures forall e | e in events :: Permitted(pt, e, allowed, barred)
  {
  }

  /** The world after an answered rotation and a run of others' events. */
  ghost function Afterwards(w: World, e: Event, events: seq<Event>): World {
    Run(Step(w, e), events)
  }

  lemma AnsweredFits(pt: Party, w: World, e: Event, used: set<TokenId>, events: seq<Event>)
    requires Durable(w) && e.Rotating? && w.clock <= e.now && e.former != e.next && {e.former, e.next} <= used
    requires e.former in pt.ours && e.next in pt.ours && Fits(pt, w, {e.former, e.next}, used, Some(e.next))
    requires RotateEffect(w.server, w.disk, e.former, e.next, e.now, e.outcome).reply.Ok?
    requires Timely(e.now, events) && forall x | x in events :: Foreign(pt, x)
    ensures Durable(Step(w, e)) && Step(w, e).clock == e.now
    ensures Fits(pt, Step(w, e), {e.next}, used, Some(e.next))
    ensures Durable(Afterwards(w, e, events)) && Fits(pt, Afterwards(w, e, events), {e.next}, used, Some(e.next))
  {
    StepIsDurable(w, e);
    AcceptedRotation(pt, w, e.former, e.next, e.now, e.outcome, used);
    PermittedRun(pt, events, {e.next}, Some(e.next));
    RunIsDurable(Step(w, e), events);
    RunFits(pt, Step(w, e), {e.next}, used, Some(e.next), events);
  }

  /** A rotation of this host that was answered, asked again after any run of others' events, is
      answered without writing anything: with the same port while the claim lives, with none when it
      has lapsed or there was none. */
  lemma RetryAtRelay(pt: Party, w: World, e: Event, used: set<TokenId>, events: seq<Event>, later: u64, outcome: SaveOutcome)
    requires Durable(w) && e.Rotating? && w.clock <= e.now && e.former != e.next && {e.former, e.next} <= used
    requires e.former in pt.ours && e.next in pt.ours && Fits(pt, w, {e.former, e.next}, used, Some(e.next))
    requires RotateEffect(w.server, w.disk, e.former, e.next, e.now, e.outcome).reply.Ok?
    requires Timely(e.now, events) && forall x | x in events :: Foreign(pt, x)
    requires Afterwards(w, e, events).server.healthy && Afterwards(w, e, events).clock <= later
    ensures var m := Afterwards(w, e, events);
            var answer := RotateEffect(w.server, w.disk, e.former, e.next, e.now, e.outcome).reply.value;
            RotateEffect(m.server, m.disk, e.former, e.next, later, outcome)
              == Effect(m.server, m.disk, false, Ok(if e.next in Reap(m.server.table.leases, later) then answer else None))
  {
    AnsweredFits(pt, w, e, used, events);
    AnsweredIsDone(w, e.former, e.next, e.now, e.outcome);
    var answer := RotateEffect(w.server, w.disk, e.former, e.next, e.now, e.outcome).reply.value;
    if answer.Some? {
      assert e.next in Live(Step(w, e));
    }
    StillDone(pt, Step(w, e), events, e.former, e.next, answer, e.now);
    RunIsDurable(Step(w, e), events);
    RetryReply(pt, Afterwards(w, e, events), e, used, answer, later, outcome);
  }

  lemma RetryReply(pt: Party, w: World, e: Event, used: set<TokenId>, answer: Option<u16>, later: u64, outcome: SaveOutcome)
    requires Durable(w) && w.server.healthy && w.clock <= later && e.Rotating? && e.former != e.next && e.now <= later
    requires e.former in pt.ours && e.next in pt.ours && Fits(pt, w, {e.next}, used, Some(e.next))
    requires var m := w.server.table.leases;
             if answer.Some? then e.next in m ==> e.former in m[e.next].retired && m[e.next].port == answer.value
             else Lapsed(m, e.next, e.now)
    ensures RotateEffect(w.server, w.disk, e.former, e.next, later, outcome)
         == Effect(w.server, w.disk, false, Ok(if e.next in Reap(w.server.table.leases, later) then answer else None))
  {
    MoreFits(pt, w, {e.next}, used, Some(e.next), {e.former, e.next}, used, Some(e.next));
    WaitingFits(pt, w, later, {e.next}, used, Some(e.next));
    RotationReplies(pt, w, e.former, e.next, later, outcome, used);
    assert e.former !in Live(w.(clock := later));
    ServerAnswers.RotatingAnswers(w, e.former, e.next, later, outcome);
  }

  // ---- The retry from the host ----

  function EventsOf(actions: seq<Action>): seq<Event>
    requires forall a | a in actions :: a.Elsewhere?
  {
    seq(|actions|, i requires 0 <= i < |actions| => actions[i].event)
  }

  lemma {:induction false} RunFromFront(w: World, e: Event, rest: seq<Event>)
    ensures Run(w, [e] + rest) == Run(Step(w, e), rest)
  {
    if rest == [] {
      assert [e] + rest == [e] && [e][..0] == [];
    } else {
      var n := |rest| - 1;
      RunFromFront(w, e, rest[..n]);
      assert ([e] + rest)[..|rest|] == [e] + rest[..n];
    }
  }

  lemma TimelyFromFront(clock: u64, e: Event, rest: seq<Event>)
    requires clock <= e.now && Timely(e.now, rest)
    ensures Timely(clock, [e] + rest)
  {
  }

  lemma EventsFromFront(actions: seq<Action>)
    requires actions != [] && forall a | a in actions :: a.Elsewhere?
    ensures actions[0].Elsewhere? && (forall a | a in actions[1..] :: a.Elsewhere?)
    ensures EventsOf(actions) == [actions[0].event] + EventsOf(actions[1..])
  {
    assert actions[0] in actions;
  }

  lemma ElsewhereStep(pt: Party, s: System, a: Action)
    requires Durable(s.world) && a.Elsewhere? && Possible(pt, s, a)
    ensures Act(pt, s, a) == s.(world := Step(s.world, a.event)) && s.world.clock <= a.event.now && Foreign(pt, a.event)
    ensures Durable(Step(s.world, a.event)) && Step(s.world, a.event).clock == a.event.now
  {
    StepIsDurable(s.world, a.event);
  }

  /** Others' actions change the relay alone, and are a timely run of it. */
  lemma {:induction false} ElsewhereRun(pt: Party, s: System, actions: seq<Action>)
    requires Durable(s.world) && Acts(pt, s, actions) && forall a | a in actions :: a.Elsewhere?
    ensures var events := EventsOf(actions);
            && ActAll(pt, s, actions) == s.(world := Run(s.world, events))
            && Timely(s.world.clock, events) && forall e | e in events :: Foreign(pt, e)
    decreases |actions|
  {
    if actions != [] {
      var rest := actions[1..];
      EventsFromFront(actions);
      ElsewhereStep(pt, s, actions[0]);
      ElsewhereRun(pt, Act(pt, s, actions[0]), rest);
      RunFromFront(s.world, actions[0].event, EventsOf(rest));
      TimelyFromFront(s.world.clock, actions[0].event, EventsOf(rest));
    }
  }

  /** Preparing again gives the same request: the new token of the first try is in the pending file. */
  lemma SameRequest(pt: Party, s: System, random: Token)
    requires CommandOk(pt, s) && FilesOk(pt, s) && !s.command.Idle? && s.command.pending.kind.Rotation?
    ensures Prepared(s.files, Rotation, random) == (s.files, Ok(s.command.pending))
  {
    assert TokenIn(pt, s.files, IdentityFile) == Some(pt.fingerprint(s.command.pending.oldToken.value));
    assert TokenIn(pt, s.files, PendingFile) == Some(pt.fingerprint(s.command.pending.newToken));
  }

  /** A host whose rotation was answered, but which never saw the answer, prepares the same request
      again, and however others used the relay meanwhile, it is answered, with the same port if the
      claim lives, unless storage is unavailable then. */
  lemma RetryIsAnswered(pt: Party, s: System, ip: IpAddr, now: u64, outcome: SaveOutcome, between: seq<Action>,
                        random: Token, later: u64, outcome': SaveOutcome)
    requires Converges(pt, s) && Possible(pt, s, Deliver(ip, now, outcome)) && s.command.pending.kind.Rotation?
    requires Accepts(s.world, Request(pt, s.command.pending, ip, now, outcome))
    requires Acts(pt, Act(pt, Act(pt, s, Deliver(ip, now, outcome)), GiveUp), between)
    requires forall a | a in between :: a.Elsewhere?
    requires var lost := ActAll(pt, Act(pt, Act(pt, s, Deliver(ip, now, outcome)), GiveUp), between);
             Possible(pt, lost, Prepare(Rotation, random)) && lost.world.server.healthy && lost.world.clock <= later
    ensures var lost := ActAll(pt, Act(pt, Act(pt, s, Deliver(ip, now, outcome)), GiveUp), between);
            var again := Act(pt, lost, Prepare(Rotation, random));
            var former, next := pt.fingerprint(s.command.pending.oldToken.value), pt.fingerprint(s.command.pending.newToken);
            var answer := RotateEffect(s.world.server, s.world.disk, former, next, now, outcome).reply.value;
            && again.command == s.command && again.files == s.files
            && RotateEffect(again.world.server, again.world.disk, former, next, later, outcome').reply
               == Ok(if next in Reap(again.world.server.table.leases, later) then answer else None)
            && Possible(pt, again, Deliver(ip, later, outcome'))
            && Act(pt, again, Deliver(ip, later, outcome')).command == Answered(s.command.pending)
            && Act(pt, again, Deliver(ip, later, outcome')).world == again.world.(clock := later)
  {
    var e := Request(pt, s.command.pending, ip, now, outcome);
    PreparedTokens(pt, s);
    StepIsDurable(s.world, e);
    ElsewhereRun(pt, Act(pt, Act(pt, s, Deliver(ip, now, outcome)), GiveUp), between);
    SameRequest(pt, s, random);
    RetryAtRelay(pt, s.world, e, s.used, EventsOf(between), later, outcome');
  }
}

/** One host against the relay: its two identity files, its rotate and recover commands, lost
    requests, lost answers and crashes on both sides (crates/core/src/identity.rs,
    crates/cli/src/tunnel.rs). */
module ClientProtocol {
  import opened Common
  import opened HostAdmission
  import opened Leases
  import opened LeaseInvariants
  import opened LeaseStores
  import opened ServerStates
  import opened Durability
  import opened Identity
  import opened HostClaims
  import opened RunProperties

  /** A command between its preparation and its end. */
  datatype Command = Idle | Sent(pending: Pending) | Answered(pending: Pending)

  /** The relay, the host's files, its one running command, and all tokens it has ever made. */
  datatype System = System(world: World, files: Files, command: Command, used: set<TokenId>)

  datatype Action =
    | MakeIdentity(random: Token)                              // `host` loads or creates its identity
    | AskPort(event: Event)                                    // its registration reaches the relay
    | Prepare(kind: Kind, random: Token)                       // `rotate` or `recover` prepares and sends
    | Deliver(ip: IpAddr, now: u64, outcome: SaveOutcome)      // the request reaches the relay
    | GiveUp                                                   // request or answer lost, or the host crashes
    | KeepKey(secret: Token)                                   // a key typed from its backup is stored
    | Complete                                                 // the answer arrives: `finish`
    | Elsewhere(event: Event)                                  // other hosts, ended sessions, refreshes, restarts

  function TokenIn(pt: Party, f: Files, p: Path): Option<TokenId> {
    if p in f && |f[p]| == 32 then Some(pt.fingerprint(f[p])) else None
  }

  function IdsIn(pt: Party, f: Files): set<TokenId> {
    (if TokenIn(pt, f, IdentityFile).Some? then {TokenIn(pt, f, IdentityFile).value} else {})
    + (if TokenIn(pt, f, PendingFile).Some? then {TokenIn(pt, f, PendingFile).value} else {})
  }

  /** The request a prepared command sends. */
  function Request(pt: Party, p: Pending, ip: IpAddr, now: u64, outcome: SaveOutcome): Event
    requires p.kind.Rotation? ==> p.oldToken.Some?
  {
    match p.kind
    case Rotation => Rotating(pt.fingerprint(p.oldToken.value), pt.fingerprint(p.newToken), now, outcome)
    case Recovery => Recovering(pt.key, pt.fingerprint(p.newToken), ip, now, outcome)
  }

  ghost predicate Accepts(w: World, e: Event) {
    match e
    case Rotating(former, next, now, outcome) => RotateEffect(w.server, w.disk, former, next, now, outcome).reply.Ok?
    case Recovering(key, next, ip, now, outcome) => RecoverEffect(w.server, w.disk, key, next, ip, now, outcome).reply.Ok?
    case _ => false
  }

  /** A new random token is one nobody has seen. */
  ghost predicate Fresh(pt: Party, s: System, random: Token) {
    pt.fingerprint(random) in pt.ours && pt.fingerprint(random) !in s.used
  }

  /** `e` is a registration of this host that arrives now: with its recovery key, and with any of its
      tokens, since the identity may have been read before other things happened. */
  ghost predicate AsksPort(pt: Party, s: System, e: Event) {
    s.world.clock <= e.now && e.Registering? && e.id in pt.ours && e.recovery == Some(pt.key)
  }

  /** Whether the relay grants the registration `e`, if its save works: storage is healthy, there is
      a candidate port that can be bound, and the key and the session counter raise no objection. */
  ghost predicate Grants(w: World, e: Event)
    requires e.Registering?
  {
    var reaped := Reaped(w.server.table, e.now);
    var candidates := CandidatesIn(reaped.leases, e.id, e.ip);
    && w.server.healthy && candidates.Ok? && ScanPorts(candidates.value, e.binds).Took?
    && ActivationError(reaped, e.id, e.recovery, e.ip, ScanPorts(candidates.value, e.binds).port) == None
  }

  /** The registration leaves a claim, in memory or for a restart: it is granted and its save
      reaches the rename. (At the end of time a claim that is only on disk has lapsed already.) */
  ghost predicate LeavesClaim(w: World, e: Event)
    requires e.Registering?
  {
    Grants(w, e) && (e.outcome.Written? || (e.outcome.FailedAfterRename? && e.now < U64_MAX))
  }

  /** The command is answered, and its `finish` will put the pending identity in place: the
      identity is what it was when the command was prepared. */
  predicate WillRename(s: System) {
    s.command.Answered? && CurrentToken(s.files) == Ok(s.command.pending.oldToken)
  }

  /** The tokens that may own the claim: those in the files, or, if a rename is due, the one that
      the rename leaves. */
  function SafeTokens(pt: Party, s: System): set<TokenId> {
    if WillRename(s) then {pt.fingerprint(s.command.pending.newToken)} else IdsIn(pt, s.files)
  }

  /** The registration leaves no claim, or leaves it to a token that may own it. */
  ghost predicate Harmless(pt: Party, s: System, e: Event)
    requires e.Registering?
  {
    LeavesClaim(s.world, e) ==> e.id in SafeTokens(pt, s)
  }

  /** What may happen next. Commands run one at a time. The host may be started beside a command,
      and its registrations may arrive at any time, exactly as far as they do no harm
      (`WhenRegistrationHarms`). */
  ghost predicate Possible(pt: Party, s: System, a: Action) {
    match a
    case MakeIdentity(random) => Fresh(pt, s, random)
    case AskPort(e) => AsksPort(pt, s, e) && Harmless(pt, s, e)
    case Prepare(_, random) => s.command.Idle? && Fresh(pt, s, random)
    case Deliver(_, now, _) =>
      && s.command.Sent? && s.world.clock <= now
      && (s.command.pending.kind.Rotation? ==> s.command.pending.oldToken.Some?)
    case GiveUp => true
    case KeepKey(_) => true
    case Complete => s.command.Answered?
    case Elsewhere(e) => s.world.clock <= e.now && Foreign(pt, e)
  }

  function Prepared(f: Files, kind: Kind, random: Token): (Files, Result<Pending, IdentityError>) {
    match kind
    case Rotation => RotationPrepared(f, random)
    case Recovery => RecoveryPrepared(f, random)
  }

  ghost function Act(pt: Party, s: System, a: Action): System
    requires Possible(pt, s, a)
  {
    match a
    case MakeIdentity(random) =>
      s.(files := LoadOrCreate(s.files, IdentityFile, random).0, used := s.used + {pt.fingerprint(random)})
    case AskPort(e) => s.(world := Step(s.world, e))
    case Prepare(kind, random) =>
      var (files, prepared) := Prepared(s.files, kind, random);
      System(s.world, files, if prepared.Ok? then Sent(prepared.value) else Idle, s.used + {pt.fingerprint(random)})
    case Deliver(ip, now, outcome) =>
      var request := Request(pt, s.command.pending, ip, now, outcome);
      s.(world := Step(s.world, request), command := if Accepts(s.world, request) then Answered(s.command.pending) else Idle)
    case GiveUp => s.(command := Idle)
    case KeepKey(secret) => s.(files := s.files[RecoveryFile := secret])
    case Complete => s.(files := Finished(s.files, s.command.pending).0, command := Idle)
    case Elsewhere(e) => s.(world := Step(s.world, e))
  }

  // ---- The invariant ----

  ghost predicate FilesOk(pt: Party, s: System) {
    && (IdentityFile in s.files ==> |s.files[IdentityFile]| == 32)
    && (PendingFile in s.files ==> |s.files[PendingFile]| == 32)
    && (forall k | k in IdsIn(pt, s.files) :: k in pt.ours)
    && IdsIn(pt, s.files) <= s.used
    && (IdentityFile in s.files && PendingFile in s.files ==>
          TokenIn(pt, s.files, IdentityFile) != TokenIn(pt, s.files, PendingFile))
  }

  ghost predicate CommandOk(pt: Party, s: System) {
    s.command.Idle? ||
      (var p := s.command.pending;
       && CurrentToken(s.files).Ok? && (p.oldToken.Some? ==> CurrentToken(s.files) == Ok(p.oldToken))
       && ReadExisting(s.files, PendingFile) == Ok(p.newToken)
       && (p.kind.Rotation? ==> p.oldToken.Some?))
  }

  /** The owner of the host's live claim, in memory or after any restart, is in one of its two
      files; once a command is answered and will rename, it is the pending one. */
  ghost predicate Converges(pt: Party, s: System) {
    && Durable(s.world) && FilesOk(pt, s) && CommandOk(pt, s)
    && Fits(pt, s.world, IdsIn(pt, s.files), s.used, TokenIn(pt, s.files, PendingFile))
    && (WillRename(s) ==>
          Fits(pt, s.world, {pt.fingerprint(s.command.pending.newToken)}, s.used, TokenIn(pt, s.files, PendingFile)))
  }

  lemma MoreFits(pt: Party, w: World, allowed: set<TokenId>, used: set<TokenId>, barred: Option<TokenId>,
                 allowed': set<TokenId>, used': set<TokenId>, barred': Option<TokenId>)
    requires Fits(pt, w, allowed, used, barred) && allowed <= allowed' && used <= used'
    requires barred' == barred || barred' == None || barred'.value !in used
    ensures Fits(pt, w, allowed', used', barred')
  {
  }

  lemma MakeIdentityConverges(pt: Party, s: System, random: Token)
    requires Converges(pt, s) && Possible(pt, s, MakeIdentity(random))
    ensures Converges(pt, Act(pt, s, MakeIdentity(random)))
  {
    if IdentityFile in s.files {
      UsedConverges(pt, s, pt.fingerprint(random));
    } else {
      NewIdentityConverges(pt, s, random);
    }
  }

  lemma UsedConverges(pt: Party, s: System, id: TokenId)
    requires Converges(pt, s)
    ensures Converges(pt, s.(used := s.used + {id}))
  {
    var barred := TokenIn(pt, s.files, PendingFile);
    MoreFits(pt, s.world, IdsIn(pt, s.files), s.used, barred, IdsIn(pt, s.files), s.used + {id}, barred);
  }

  lemma NewIdentityConverges(pt: Party, s: System, random: Token)
    requires Converges(pt, s) && Fresh(pt, s, random) && IdentityFile !in s.files
    ensures Converges(pt, s.(files := s.files[IdentityFile := random], used := s.used + {pt.fingerprint(random)}))
  {
    var files := s.files[IdentityFile := random];
    var barred := TokenIn(pt, s.files, PendingFile);
    assert TokenIn(pt, files, PendingFile) == barred;
    assert TokenIn(pt, files, IdentityFile) == Some(pt.fingerprint(random));
    MoreFits(pt, s.world, IdsIn(pt, s.files), s.used, barred, IdsIn(pt, files), s.used + {pt.fingerprint(random)}, barred);
  }

  lemma PrepareConverges(pt: Party, s: System, kind: Kind, random: Token)
    requires Converges(pt, s) && Possible(pt, s, Prepare(kind, random))
    ensures Converges(pt, Act(pt, s, Prepare(kind, random)))
  {
    var s' := Act(pt, s, Prepare(kind, random));
    assert TokenIn(pt, s'.files, IdentityFile) == TokenIn(pt, s.files, IdentityFile);
    assert TokenIn(pt, s'.files, PendingFile) == TokenIn(pt, s.files, PendingFile)
        || TokenIn(pt, s'.files, PendingFile) == Some(pt.fingerprint(random));
    MoreFits(pt, s.world, IdsIn(pt, s.files), s.used, TokenIn(pt, s.files, PendingFile),
             IdsIn(pt, s'.files), s'.used, TokenIn(pt, s'.files, PendingFile));
  }

  /** What the relay must keep for convergence when only its world changes. */
  lemma WorldConverges(pt: Party, s: System, w: World)
    requires Converges(pt, s) && Durable(w)
    requires Fits(pt, w, IdsIn(pt, s.files), s.used, TokenIn(pt, s.files, PendingFile))
    requires WillRename(s) ==>
               Fits(pt, w, {pt.fingerprint(s.command.pending.newToken)}, s.used, TokenIn(pt, s.files, PendingFile))
    ensures Converges(pt, s.(world := w))
  {
    assert WillRename(s.(world := w)) == WillRename(s);
  }

  lemma EventConverges(pt: Party, s: System, e: Event)
    requires Converges(pt, s) && s.world.clock <= e.now
    requires Permitted(pt, e, IdsIn(pt, s.files), TokenIn(pt, s.files, PendingFile))
    requires WillRename(s) ==>
               Permitted(pt, e, {pt.fingerprint(s.command.pending.newToken)}, TokenIn(pt, s.files, PendingFile))
    ensures Converges(pt, s.(world := Step(s.world, e)))
  {
    var w := Step(s.world, e);
    StepIsDurable(s.world, e);
    StepFits(pt, s.world, e, IdsIn(pt, s.files), s.used, TokenIn(pt, s.files, PendingFile));
    if WillRename(s) {
      StepFits(pt, s.world, e, {pt.fingerprint(s.command.pending.newToken)}, s.used, TokenIn(pt, s.files, PendingFile));
    }
    WorldConverges(pt, s, w);
  }

  lemma RequestPermitted(pt: Party, s: System, ip: IpAddr, now: u64, outcome: SaveOutcome)
    requires Converges(pt, s) && Possible(pt, s, Deliver(ip, now, outcome))
    ensures Permitted(pt, Request(pt, s.command.pending, ip, now, outcome), IdsIn(pt, s.files),
                      TokenIn(pt, s.files, PendingFile))
  {
    assert TokenIn(pt, s.files, PendingFile) == Some(pt.fingerprint(s.command.pending.newToken));
    assert pt.fingerprint(s.command.pending.newToken) in IdsIn(pt, s.files);
    if s.command.pending.oldToken.Some? {
      assert TokenIn(pt, s.files, IdentityFile) == Some(pt.fingerprint(s.command.pending.oldToken.value));
    }
  }

  lemma AcceptedFits(pt: Party, s: System, ip: IpAddr, now: u64, outcome: SaveOutcome)
    requires Converges(pt, s) && Possible(pt, s, Deliver(ip, now, outcome))
    requires Accepts(s.world, Request(pt, s.command.pending, ip, now, outcome))
    ensures var next := pt.fingerprint(s.command.pending.newToken);
            Fits(pt, Step(s.world, Request(pt, s.command.pending, ip, now, outcome)), {next}, s.used, Some(next))
  {
    var p := s.command.pending;
    var next, allowed := pt.fingerprint(p.newToken), IdsIn(pt, s.files);
    assert TokenIn(pt, s.files, PendingFile) == Some(next) && next in allowed;
    match p.kind
    case Rotation =>
      var former := pt.fingerprint(p.oldToken.value);
      assert TokenIn(pt, s.files, IdentityFile) == Some(former);
      assert allowed == {former, next};
      AcceptedRotation(pt, s.world, former, next, now, outcome, s.used);
    case Recovery =>
      AcceptedRecoveryFits(pt, s.world, allowed, next, ip, now, outcome, s.used);
  }

  lemma DeliverConverges(pt: Party, s: System, ip: IpAddr, now: u64, outcome: SaveOutcome)
    requires Converges(pt, s) && Possible(pt, s, Deliver(ip, now, outcome))
    ensures Converges(pt, Act(pt, s, Deliver(ip, now, outcome)))
  {
    var request := Request(pt, s.command.pending, ip, now, outcome);
    RequestPermitted(pt, s, ip, now, outcome);
    EventConverges(pt, s, request);
    if Accepts(s.world, request) {
      AcceptedFits(pt, s, ip, now, outcome);
      AnswerConverges(pt, s.(world := Step(s.world, request)));
    } else {
      GiveUpConverges(pt, s.(world := Step(s.world, request)));
    }
  }

  lemma AnswerConverges(pt: Party, s: System)
    requires Converges(pt, s) && s.command.Sent?
    requires Fits(pt, s.world, {pt.fingerprint(s.command.pending.newToken)}, s.used,
                  Some(pt.fingerprint(s.command.pending.newToken)))
    ensures Converges(pt, s.(command := Answered(s.command.pending)))
  {
    assert TokenIn(pt, s.files, PendingFile) == Some(pt.fingerprint(s.command.pending.newToken));
  }

  lemma GiveUpConverges(pt: Party, s: System)
    requires Converges(pt, s)
    ensures Converges(pt, s.(command := Idle))
  {
  }

  /** An answered command completes, unless it is a recovery that was prepared without an identity
      and the host has made one since: then it is told so, nothing changes, and it can be repeated. */
  lemma CompletionSucceeds(pt: Party, s: System)
    requires CommandOk(pt, s) && s.command.Answered?
    ensures WillRename(s) <==> !(s.command.pending.oldToken.None? && IdentityFile in s.files)
    ensures if WillRename(s) then
              && Finished(s.files, s.command.pending) == (Renamed(s.files), Ok(()))
              && ReadExisting(Renamed(s.files), IdentityFile) == Ok(s.command.pending.newToken)
              && PendingFile !in Renamed(s.files)
            else Finished(s.files, s.command.pending) == (s.files, Err(IdentityChanged))
  {
  }

  lemma CompleteConverges(pt: Party, s: System)
    requires Converges(pt, s) && s.command.Answered?
    ensures Converges(pt, Act(pt, s, Complete))
  {
    CompletionSucceeds(pt, s);
    if WillRename(s) {
      RenameConverges(pt, s);
    }
  }

  lemma RenameConverges(pt: Party, s: System)
    requires Converges(pt, s) && WillRename(s)
    ensures Converges(pt, Act(pt, s, Complete))
  {
    var s' := Act(pt, s, Complete);
    var next := pt.fingerprint(s.command.pending.newToken);
    CompletionSucceeds(pt, s);
    assert TokenIn(pt, s'.files, IdentityFile) == Some(next) && TokenIn(pt, s'.files, PendingFile) == None;
    assert IdsIn(pt, s'.files) == {next};
    assert next in IdsIn(pt, s.files);
    MoreFits(pt, s.world, {next}, s.used, TokenIn(pt, s.files, PendingFile), {next}, s.used, None);
  }

  // ---- Registrations beside a command ----

  lemma GrantsIsTheAnswer(w: World, e: Event)
    requires e.Registering?
    ensures Grants(w, e) <==>
              RegisterEffect(w.server, w.disk, e.id, e.recovery, e.ip, e.now, e.connection, e.binds, Written).reply.Ok?
  {
    var t := w.server.table;
    assert Reaped(Reaped(t, e.now), e.now) == Reaped(t, e.now) by {
      assert Reap(Reap(t.leases, e.now), e.now) == Reap(t.leases, e.now);
    }
  }

  /** The table a granted registration stages. */
  ghost function Staged(w: World, e: Event): Table
    requires e.Registering? && Grants(w, e)
  {
    RegisterEffect(w.server, w.disk, e.id, e.recovery, e.ip, e.now, e.connection, e.binds, Written).server.table
  }

  lemma GrantedStage(w: World, e: Event)
    requires e.Registering? && Grants(w, e)
    ensures var m := Staged(w, e).leases; var reaped := Reap(w.server.table.leases, e.now);
            && e.id in m && m[e.id].status.Active?
            && m[e.id].recoveryId == (if EnrolledKey(reaped, e.id).Some? then EnrolledKey(reaped, e.id) else e.recovery)
    ensures Step(w, e).server.table == if e.outcome.Written? then Staged(w, e) else Reaped(w.server.table, e.now)
    ensures Step(w, e).disk == if e.outcome.FailedBeforeRename? then w.disk else Some(ImageOf(Staged(w, e).leases, e.now))
  {
    GrantsIsTheAnswer(w, e);
    var port := RegisterCases(w.server, w.disk, e.id, e.recovery, e.ip, e.now, e.connection, e.binds, Written);
    assert Reap(Reap(w.server.table.leases, e.now), e.now) == Reap(w.server.table.leases, e.now);
  }

  lemma NotGranted(w: World, e: Event)
    requires e.Registering? && !Grants(w, e)
    ensures Step(w, e).server.table in {w.server.table, Reaped(w.server.table, e.now)} && Step(w, e).disk == w.disk
  {
    GrantsIsTheAnswer(w, e);
    var port := RegisterCases(w.server, w.disk, e.id, e.recovery, e.ip, e.now, e.connection, e.binds, e.outcome);
  }

  lemma StagedIsValid(w: World, e: Event)
    requires Durable(w) && w.clock <= e.now && e.Registering? && Grants(w, e)
    ensures ValidTable(Staged(w, e))
  {
    StepIsDurable(w, Succeeding(e));
  }

  /** A registration that leaves no claim disturbs nothing. */
  lemma QuietRegistrationFits(pt: Party, w: World, e: Event, allowed: set<TokenId>, used: set<TokenId>,
                              barred: Option<TokenId>)
    requires Durable(w) && w.clock <= e.now && e.Registering? && !LeavesClaim(w, e)
    requires Fits(pt, w, allowed, used, barred)
    ensures Fits(pt, Step(w, e), allowed, used, barred)
  {
    WaitingFits(pt, w, e.now, allowed, used, barred);
    assert Reap(Reap(w.server.table.leases, e.now), e.now) == Reap(w.server.table.leases, e.now);
    if Grants(w, e) {
      GrantedStage(w, e);
      if e.outcome.FailedAfterRename? {
        StagedIsValid(w, e);
        SavedMirrors(Staged(w, e), e.now);
      }
    } else {
      NotGranted(w, e);
    }
  }

  /** One that leaves a claim leaves it to the identity of the host, so that no other token may be
      the only one allowed. */
  lemma LeftClaimFits(pt: Party, w: World, e: Event, allowed: set<TokenId>, used: set<TokenId>, barred: Option<TokenId>)
    requires Durable(w) && w.clock <= e.now && e.Registering? && LeavesClaim(w, e) && e.id in pt.ours
    requires Fits(pt, Step(w, e), allowed, used, barred)
    ensures e.id in allowed
  {
    GrantedStage(w, e);
    if e.outcome.Written? {
      assert e.id in Live(Step(w, e));
    } else {
      StagedIsValid(w, e);
      SavedMirrors(Staged(w, e), e.now);
      assert e.id in StartTable(Step(w, e).disk, e.now).leases;
    }
  }

  lemma QuietRegistrationConverges(pt: Party, s: System, e: Event)
    requires Converges(pt, s) && AsksPort(pt, s, e) && !LeavesClaim(s.world, e)
    ensures Converges(pt, s.(world := Step(s.world, e)))
  {
    StepIsDurable(s.world, e);
    QuietRegistrationFits(pt, s.world, e, IdsIn(pt, s.files), s.used, TokenIn(pt, s.files, PendingFile));
    if WillRename(s) {
      QuietRegistrationFits(pt, s.world, e, {pt.fingerprint(s.command.pending.newToken)}, s.used,
                            TokenIn(pt, s.files, PendingFile));
    }
    WorldConverges(pt, s, Step(s.world, e));
  }

  /** The exact condition: a registration of the host, with whichever of its tokens and whenever it
      arrives, keeps the host's claim safe if and only if it leaves no claim, or leaves it to a token
      in the files, and to the pending one if a rename is due. */
  lemma WhenRegistrationHarms(pt: Party, s: System, e: Event)
    requires Converges(pt, s) && AsksPort(pt, s, e)
    ensures Converges(pt, s.(world := Step(s.world, e))) <==> Harmless(pt, s, e)
  {
    if !LeavesClaim(s.world, e) {
      QuietRegistrationConverges(pt, s, e);
    } else if e.id in SafeTokens(pt, s) {
      SafeRegistrationConverges(pt, s, e);
    } else if Converges(pt, s.(world := Step(s.world, e))) {
      HarmfulRegistration(pt, s, e);
    }
  }

  lemma SafeRegistrationConverges(pt: Party, s: System, e: Event)
    requires Converges(pt, s) && AsksPort(pt, s, e) && e.id in SafeTokens(pt, s)
    ensures Converges(pt, s.(world := Step(s.world, e)))
  {
    if WillRename(s) {
      assert TokenIn(pt, s.files, PendingFile) == Some(pt.fingerprint(s.command.pending.newToken));
    }
    EventConverges(pt, s, e);
  }

  lemma HarmfulRegistration(pt: Party, s: System, e: Event)
    requires Converges(pt, s) && AsksPort(pt, s, e) && LeavesClaim(s.world, e) && e.id !in SafeTokens(pt, s)
    ensures !Converges(pt, s.(world := Step(s.world, e)))
  {
    if Converges(pt, s.(world := Step(s.world, e))) {
      var barred := TokenIn(pt, s.files, PendingFile);
      if WillRename(s) {
        assert barred == Some(pt.fingerprint(s.command.pending.newToken));
        assert WillRename(s.(world := Step(s.world, e)));
      }
      LeftClaimFits(pt, s.world, e, SafeTokens(pt, s), s.used, barred);
    }
  }

  lemma ActConverges(pt: Party, s: System, a: Action)
    requires Converges(pt, s) && Possible(pt, s, a)
    ensures Converges(pt, Act(pt, s, a))
  {
    match a
    case MakeIdentity(random) => MakeIdentityConverges(pt, s, random);
    case AskPort(e) => WhenRegistrationHarms(pt, s, e);
    case Prepare(kind, random) => PrepareConverges(pt, s, kind, random);
    case Deliver(ip, now, outcome) => DeliverConverges(pt, s, ip, now, outcome);
    case GiveUp => GiveUpConverges(pt, s);
    case KeepKey(secret) =>
      assert TokenIn(pt, s.files[RecoveryFile := secret], IdentityFile) == TokenIn(pt, s.files, IdentityFile);
      assert TokenIn(pt, s.files[RecoveryFile := secret], PendingFile) == TokenIn(pt, s.files, PendingFile);
    case Complete => CompleteConverges(pt, s);
    case Elsewhere(e) => EventConverges(pt, s, e);
  }

  // ---- Whole runs ----

  ghost predicate Acts(pt: Party, s: System, actions: seq<Action>)
    decreases |actions|
  {
    actions != [] ==> Possible(pt, s, actions[0]) && Acts(pt, Act(pt, s, actions[0]), actions[1..])
  }

  ghost function ActAll(pt: Party, s: System, actions: seq<Action>): System
    requires Acts(pt, s, actions)
    decreases |actions|
  {
    if actions == [] then s else ActAll(pt, Act(pt, s, actions[0]), actions[1..])
  }

  /** Through every sequence of commands, lost requests, lost answers, crashes of the host and of
      the relay, failed saves and expiries, the host keeps the token that owns its claim. */
  lemma {:induction false} RunConverges(pt: Party, s: System, actions: seq<Action>)
    requires Converges(pt, s) && Acts(pt, s, actions)
    ensures Converges(pt, ActAll(pt, s, actions))
    decreases |actions|
  {
    if actions != [] {
      ActConverges(pt, s, actions[0]);
      RunConverges(pt, Act(pt, s, actions[0]), actions[1..]);
    }
  }

  /** A host that has never run, against an empty relay. */
  ghost function NewHost(now: u64): System {
    System(Start(None, now), map[], Idle, {})
  }

  lemma FreshHostConverges(pt: Party, now: u64)
    ensures Converges(pt, NewHost(now))
  {
    StartIsDurable(None, now);
  }

  /** So the token that owns a live claim of this host can be read from one of its two files, and
      the same holds for the claims any later restart of the relay brings back. */
  lemma OwnerIsInFiles(pt: Party, s: System, token: Token, late: u64)
    requires CollisionFree(pt) && Converges(pt, s) && s.world.clock <= late
    requires
      || (pt.fingerprint(token) in Live(s.world) && Live(s.world)[pt.fingerprint(token)].recoveryId == Some(pt.key))
      || (pt.fingerprint(token) in StartTable(s.world.disk, late).leases
          && StartTable(s.world.disk, late).leases[pt.fingerprint(token)].recoveryId == Some(pt.key))
    ensures ReadExisting(s.files, IdentityFile) == Ok(token) || ReadExisting(s.files, PendingFile) == Ok(token)
  {
    var id := pt.fingerprint(token);
    assert id in pt.ours && id in IdsIn(pt, s.files);
  }

  /** When the relay answers a recovery, the claim is alive and belongs to the pending token and
      nobody else, whoever had it before: the tokens in the host's files need not have owned it. */
  lemma AnsweredRecovery(pt: Party, s: System, ip: IpAddr, now: u64, outcome: SaveOutcome)
    requires Durable(s.world) && CommandOk(pt, s)
    requires Possible(pt, s, Deliver(ip, now, outcome)) && s.command.pending.kind.Recovery?
    requires Act(pt, s, Deliver(ip, now, outcome)).command.Answered?
    ensures var w := Act(pt, s, Deliver(ip, now, outcome)).world;
            var next := pt.fingerprint(s.command.pending.newToken);
            && SoleOwner(pt, w, next)
            && (now < U64_MAX ==> next in Live(w) && Live(w)[next].recoveryId == Some(pt.key))
  {
    var next := pt.fingerprint(s.command.pending.newToken);
    RecoveredIsSole(pt, s.world, next, ip, now, outcome);
    if now < U64_MAX {
      RecoveredIsLive(s.world, pt.key, next, ip, now, outcome);
    }
  }

  lemma RecoveredIsSole(pt: Party, w: World, next: TokenId, ip: IpAddr, now: u64, outcome: SaveOutcome)
    requires Durable(w) && w.clock <= now
    requires RecoverEffect(w.server, w.disk, pt.key, next, ip, now, outcome).reply.Ok?
    ensures SoleOwner(pt, Step(w, Recovering(pt.key, next, ip, now, outcome)), next)
  {
    RecoveredFits(pt, w, next, ip, now, outcome);
    FitsSoleOwner(Keeper(pt, next), Step(w, Recovering(pt.key, next, ip, now, outcome)), next, {next}, None);
  }

  /** The host as one that keeps nothing secret but `next` and its recovery key. */
  function Keeper(pt: Party, next: TokenId): Party {
    pt.(ours := iset{next})
  }

  /** After an answered recovery the claim fits a host that has nothing but its new token. */
  lemma RecoveredFits(pt: Party, w: World, next: TokenId, ip: IpAddr, now: u64, outcome: SaveOutcome)
    requires Durable(w) && w.clock <= now
    requires RecoverEffect(w.server, w.disk, pt.key, next, ip, now, outcome).reply.Ok?
    ensures Fits(Keeper(pt, next), Step(w, Recovering(pt.key, next, ip, now, outcome)), {next}, {next}, None)
  {
    var e := Recovering(pt.key, next, ip, now, outcome);
    StepIsDurable(w, e);
    RecoveredHolder(w, pt.key, next, ip, now, outcome);
    KeeperFits(pt, Step(w, e), next);
  }

  lemma KeeperFits(pt: Party, w: World, next: TokenId)
    requires Durable(w) && w.server.healthy
    requires next in w.server.table.leases && w.server.table.leases[next].recoveryId == Some(pt.key)
    ensures Fits(Keeper(pt, next), w, {next}, {next}, None)
  {
    KeeperClaims(pt, w.server.table.leases, Live(w), next);
    HealthyFits(Keeper(pt, next), w, {next}, {next}, None);
  }

  lemma KeeperClaims(pt: Party, all: Claims, m: Claims, next: TokenId)
    requires RecoveryOk(all) && LiveNotRetired(all) && SubClaims(m, all)
    requires next in all && all[next].recoveryId == Some(pt.key)
    ensures ClaimsFit(Keeper(pt, next), m, {next}, {next}, None)
  {
    forall k | k in m ensures next !in m[k].retired {
      assert !IsRetired(all, next);
    }
  }

  /** Whatever other parties do before the answer arrives, completing a command that will rename
      leaves `identity.bin` as the only possible owner of the host's claim. */
  lemma CompletedCommand(pt: Party, s: System, used: set<TokenId>, between: seq<Action>)
    requires Durable(s.world) && CommandOk(pt, s) && WillRename(s)
    requires pt.fingerprint(s.command.pending.newToken) in used
    requires Fits(pt, s.world, {pt.fingerprint(s.command.pending.newToken)}, used, None)
    requires Acts(pt, s, between) && forall a | a in between :: a.Elsewhere?
    ensures var before := ActAll(pt, s, between);
            && before.command == s.command && before.files == s.files
            && (var done := Act(pt, before, Complete);
                && (Converges(pt, s) ==> Converges(pt, done))
                && Durable(done.world) && Fits(pt, done.world, {pt.fingerprint(s.command.pending.newToken)}, used, None)
                && ReadExisting(done.files, IdentityFile) == Ok(s.command.pending.newToken)
                && PendingFile !in done.files
                && SoleOwner(pt, done.world, pt.fingerprint(s.command.pending.newToken)))
  {
    var before, next := ActAll(pt, s, between), pt.fingerprint(s.command.pending.newToken);
    ElsewhereKeeps(pt, s, next, used, between);
    CompletionSucceeds(pt, before);
    FitsSoleOwner(pt, before.world, next, used, None);
    if Converges(pt, s) {
      CompletedConverges(pt, s, between);
    }
  }

  lemma CompletedConverges(pt: Party, s: System, between: seq<Action>)
    requires Converges(pt, s) && Acts(pt, s, between) && ActAll(pt, s, between).command.Answered?
    ensures Converges(pt, Act(pt, ActAll(pt, s, between), Complete))
  {
    RunConverges(pt, s, between);
    CompleteConverges(pt, ActAll(pt, s, between));
  }

  lemma {:induction false} ElsewhereKeeps(pt: Party, s: System, next: TokenId, used: set<TokenId>, actions: seq<Action>)
    requires Durable(s.world) && Fits(pt, s.world, {next}, used, None) && next in used
    requires Acts(pt, s, actions) && forall a | a in actions :: a.Elsewhere?
    ensures var after := ActAll(pt, s, actions);
            && after.command == s.command && after.files == s.files
            && Durable(after.world) && Fits(pt, after.world, {next}, used, None)
    decreases |actions|
  {
    if actions != [] {
      assert actions[0] in actions;
      StepIsDurable(s.world, actions[0].event);
      StepFits(pt, s.world, actions[0].event, {next}, used, None);
      ElsewhereKeeps(pt, Act(pt, s, actions[0]), next, used, actions[1..]);
    }
  }

  // ---- A recovery evicts ----

  /** Through any later run in which only the host uses its new token and its recovery key, that
      token stays the only possible owner of the claim. Every other token is anybody's: whoever took
      the old identity, or any earlier one, never has this claim again. */
  lemma RecoveryEvicts(pt: Party, w: World, next: TokenId, ip: IpAddr, now: u64, outcome: SaveOutcome, events: seq<Event>)
    requires Durable(w) && w.clock <= now && Timely(now, events)
    requires RecoverEffect(w.server, w.disk, pt.key, next, ip, now, outcome).reply.Ok?
    requires forall e | e in events :: Permitted(Keeper(pt, next), e, {next}, None)
    ensures var after := Run(Step(w, Recovering(pt.key, next, ip, now, outcome)), events);
            && Fits(Keeper(pt, next), after, {next}, {next}, None)
            && SoleOwner(pt, after, next)
  {
    var e := Recovering(pt.key, next, ip, now, outcome);
    StepIsDurable(w, e);
    RecoveredFits(pt, w, next, ip, now, outcome);
    RunFits(Keeper(pt, next), Step(w, e), {next}, {next}, None, events);
    FitsSoleOwner(Keeper(pt, next), Run(Step(w, e), events), next, {next}, None);
  }

  lemma AnsweredFits(pt: Party, s: System, ip: IpAddr, now: u64, outcome: SaveOutcome)
    requires Durable(s.world) && CommandOk(pt, s)
    requires Possible(pt, s, Deliver(ip, now, outcome)) && s.command.pending.kind.Recovery?
    requires Act(pt, s, Deliver(ip, now, outcome)).command.Answered?
    ensures var answered := Act(pt, s, Deliver(ip, now, outcome));
            var next := pt.fingerprint(s.command.pending.newToken);
            && answered.command == Answered(s.command.pending) && CommandOk(Keeper(pt, next), answered)
            && Durable(answered.world) && Fits(Keeper(pt, next), answered.world, {next}, {next}, None)
  {
    var next := pt.fingerprint(s.command.pending.newToken);
    StepIsDurable(s.world, Recovering(pt.key, next, ip, now, outcome));
    RecoveredFits(pt, s.world, next, ip, now, outcome);
  }

  /** From the answer to the rename: a recovery of a lost or stolen identity, whoever uses which
      other tokens meanwhile, ends with `identity.bin` as the only possible owner. */
  lemma EvictionCompletes(pt: Party, s: System, ip: IpAddr, now: u64, outcome: SaveOutcome, between: seq<Action>)
    requires Durable(s.world) && CommandOk(pt, s)
    requires Possible(pt, s, Deliver(ip, now, outcome)) && s.command.pending.kind.Recovery?
    requires WillRename(Act(pt, s, Deliver(ip, now, outcome)))
    requires Acts(Keeper(pt, pt.fingerprint(s.command.pending.newToken)), Act(pt, s, Deliver(ip, now, outcome)), between)
    requires forall a | a in between :: a.Elsewhere?
    ensures var keeper := Keeper(pt, pt.fingerprint(s.command.pending.newToken));
            var before := ActAll(keeper, Act(pt, s, Deliver(ip, now, outcome)), between);
            && before.command.Answered?
            && var done := Act(keeper, before, Complete);
               && ReadExisting(done.files, IdentityFile) == Ok(s.command.pending.newToken)
               && PendingFile !in done.files && SoleOwner(keeper, done.world, pt.fingerprint(s.command.pending.newToken))
               && Durable(done.world)
               && Fits(keeper, done.world, {pt.fingerprint(s.command.pending.newToken)},
                       {pt.fingerprint(s.command.pending.newToken)}, None)
  {
    var next := pt.fingerprint(s.command.pending.newToken);
    AnsweredFits(pt, s, ip, now, outcome);
    CompletedCommand(Keeper(pt, next), Act(pt, s, Deliver(ip, now, outcome)), {next}, between);
  }

  /** The host's tokens are known to the relay only as far as `next` is. */
  ghost predicate OnlyKnows(pt: Party, m: Claims, next: TokenId) {
    forall k | k in m :: (k in pt.ours ==> k == next) && forall x | x in m[k].retired && x in pt.ours :: x == next
  }

  /** After that the host is as safe as one that never lost its identity, with the recovered token
      and the random tokens it is still to make. */
  lemma RecoveredHostConverges(pt: Party, w: World, files: Files, token: Token)
    requires Durable(w) && Fits(Keeper(pt, pt.fingerprint(token)), w, {pt.fingerprint(token)}, {pt.fingerprint(token)}, None)
    requires pt.fingerprint(token) in pt.ours && OnlyKnows(pt, Live(w), pt.fingerprint(token))
    requires forall late: u64 | w.clock <= late :: OnlyKnows(pt, StartTable(w.disk, late).leases, pt.fingerprint(token))
    requires ReadExisting(files, IdentityFile) == Ok(token) && PendingFile !in files
    ensures Converges(pt, System(w, files, Idle, {pt.fingerprint(token)}))
  {
    var next := pt.fingerprint(token);
    KeeperIsHost(pt, Live(w), next);
    forall late: u64 | w.clock <= late ensures ClaimsFit(pt, StartTable(w.disk, late).leases, {next}, {next}, None) {
      KeeperIsHost(pt, StartTable(w.disk, late).leases, next);
    }
    assert TokenIn(pt, files, IdentityFile) == Some(next) && TokenIn(pt, files, PendingFile) == None;
    assert IdsIn(pt, files) == {next};
  }

  lemma KeeperIsHost(pt: Party, m: Claims, next: TokenId)
    requires ClaimsFit(Keeper(pt, next), m, {next}, {next}, None) && next in pt.ours && OnlyKnows(pt, m, next)
    ensures ClaimsFit(pt, m, {next}, {next}, None)
  {
  }

  /** The pending file may be shared by both commands: a recovery that a rotation left unfinished,
      or the other way round, is refused only for lack of a claim, of quota or of storage. */
  lemma RecoveryNeverStuck(pt: Party, s: System, ip: IpAddr, now: u64, outcome: SaveOutcome)
    requires Converges(pt, s) && Possible(pt, s, Deliver(ip, now, outcome)) && s.command.pending.kind.Recovery?
    ensures var reply := RecoverEffect(s.world.server, s.world.disk, pt.key, pt.fingerprint(s.command.pending.newToken), ip,
                                       now, outcome).reply;
            reply.Err? ==> reply.error in {StorageUnavailable, SaveFailed, Refused(NoMatchingClaim), Refused(TooManyTunnels)}
  {
    var next := pt.fingerprint(s.command.pending.newToken);
    assert TokenIn(pt, s.files, PendingFile) == Some(next) && next in IdsIn(pt, s.files);
    RecoveryRefusals(pt, s.world, IdsIn(pt, s.files), next, ip, now, outcome, s.used);
  }

  // ---- What the harm is ----

  /** The system after the registration `e`, and after the rename if one is due. */
  ghost function Registered(pt: Party, s: System, e: Event): System {
    var s' := s.(world := Step(s.world, e));
    if WillRename(s) then Act(pt, s', Complete) else s'
  }

  /** A harmful registration loses the claim: the token that owns it, in memory or on disk, is then,
      or after the rename that is due, in neither file. (A recovery still gets it back: it needs no
      convergence.) */
  lemma HarmIsLoss(pt: Party, s: System, e: Event)
    requires Converges(pt, s) && AsksPort(pt, s, e) && !Harmless(pt, s, e)
    ensures var done := Registered(pt, s, e);
            && Startable(done.world.disk) && done.world.clock == e.now
            && (var m := if e.outcome.Written? then Live(done.world) else StartTable(done.world.disk, e.now).leases;
                e.id in m && m[e.id].recoveryId == Some(pt.key))
            && e.id !in IdsIn(pt, done.files) && !Converges(pt, done)
  {
    StepIsDurable(s.world, e);
    LeftClaimIsOurs(pt, s.world, e, IdsIn(pt, s.files), s.used, TokenIn(pt, s.files, PendingFile));
    if WillRename(s) {
      RenameLeavesOneToken(pt, s.(world := Step(s.world, e)));
    }
  }

  lemma LeftClaimIsOurs(pt: Party, w: World, e: Event, allowed: set<TokenId>, used: set<TokenId>, barred: Option<TokenId>)
    requires Durable(w) && w.clock <= e.now && e.Registering? && LeavesClaim(w, e)
    requires e.id in pt.ours && e.recovery == Some(pt.key) && Fits(pt, w, allowed, used, barred)
    requires Startable(Step(w, e).disk)
    ensures var m := if e.outcome.Written? then Live(Step(w, e)) else StartTable(Step(w, e).disk, e.now).leases;
            e.id in m && m[e.id].recoveryId == Some(pt.key)
  {
    WaitingFits(pt, w, e.now, allowed, used, barred);
    GrantedStage(w, e);
    if e.outcome.FailedAfterRename? {
      StagedIsValid(w, e);
      SavedMirrors(Staged(w, e), e.now);
    }
  }

  lemma RenameLeavesOneToken(pt: Party, s: System)
    requires CommandOk(pt, s) && WillRename(s)
    ensures Act(pt, s, Complete).world == s.world
    ensures IdsIn(pt, Act(pt, s, Complete).files) == {pt.fingerprint(s.command.pending.newToken)}
  {
    CompletionSucceeds(pt, s);
    var files := Act(pt, s, Complete).files;
    assert TokenIn(pt, files, IdentityFile) == Some(pt.fingerprint(s.command.pending.newToken));
    assert TokenIn(pt, files, PendingFile) == None;
  }

  // ---- Runs in which it does harm ----

  /** The same host with an identity and a rotation that the relay has answered: "no claim". */
  ghost function RotationAnswered(pt: Party, current: Token, next: Token, now: u64): System {
    System(Start(None, now), map[IdentityFile := current, PendingFile := next],
           Answered(Pending(Rotation, Some(current), next)), {pt.fingerprint(current), pt.fingerprint(next)})
  }

  lemma EmptyRelayAnswers(former: TokenId, next: TokenId, now: u64)
    requires former != next
    ensures var w := Start(None, now);
            Step(w, Rotating(former, next, now, Written)) == w && Accepts(w, Rotating(former, next, now, Written))
  {
    assert Reap(EMPTY_TABLE.leases, now) == map[];
  }

  lemma FirstRotation(pt: Party, current: Token, next: Token, ip: IpAddr, now: u64) returns (actions: seq<Action>)
    requires pt.fingerprint(current) != pt.fingerprint(next)
    requires pt.fingerprint(current) in pt.ours && pt.fingerprint(next) in pt.ours
    ensures Acts(pt, NewHost(now), actions) && ActAll(pt, NewHost(now), actions) == RotationAnswered(pt, current, next, now)
  {
    var first, second, third := MakeIdentity(current), Prepare(Rotation, next), Deliver(ip, now, Written);
    actions := [first, second, third];
    EmptyRelayAnswers(pt.fingerprint(current), pt.fingerprint(next), now);
    var s0 := NewHost(now);
    var s1 := Act(pt, s0, first);
    assert s1 == System(Start(None, now), map[IdentityFile := current], Idle, {pt.fingerprint(current)});
    var s2 := Act(pt, s1, second);
    assert s2.command == Sent(Pending(Rotation, Some(current), next));
    var s3 := Act(pt, s2, third);
    assert s3 == RotationAnswered(pt, current, next, now);
    assert actions[1..] == [second, third] && [second, third][1..] == [third] && [third][1..] == [];
    assert ActAll(pt, s2, [third]) == s3 && Acts(pt, s2, [third]);
    assert ActAll(pt, s1, [second, third]) == s3 && Acts(pt, s1, [second, third]);
  }

  ghost predicate NoClaims(m: Claims) {
    forall k :: k !in m
  }

  lemma StartsWithoutClaims(now: u64)
    ensures NoClaims(Reap(Start(None, now).server.table.leases, now))
  {
  }

  lemma EmptyRelayOffers(m: Claims, id: TokenId, ip: IpAddr)
    requires NoClaims(m)
    ensures CandidatesIn(m, id, ip).Ok? && CandidatesIn(m, id, ip).value != []
  {
    PoolCount(m);
    assert ChargedKeys(m, SourceOf(ip)) == {};
    assert m.Keys == {};
  }

  lemma FirstPortIsTaken(ports: seq<u16>, binds: Binds)
    requires ports != [] && binds(ports[0]) == Bound
    ensures ScanPorts(ports, binds) == Took(ports[0]) && ports[0] in ports
  {
  }

  lemma EmptyTableAccepts(t: Table, id: TokenId, key: TokenId, ip: IpAddr, port: u16)
    requires NoClaims(t.leases) && t.nextSession < U64_MAX
    requires CandidatesIn(t.leases, id, ip).Ok? && port in CandidatesIn(t.leases, id, ip).value
    ensures ActivationError(t, id, Some(key), ip, port) == None
  {
  }

  /** A relay without claims grants every registration whose port can be bound. */
  lemma EmptyRelayGrants(w: World, e: Event)
    requires w.server.healthy && NoClaims(Reap(w.server.table.leases, e.now)) && w.server.table.nextSession < U64_MAX
    requires e.Registering? && e.recovery.Some? && forall p: u16 :: e.binds(p) == Bound
    ensures Grants(w, e)
  {
    var t := Reaped(w.server.table, e.now);
    EmptyRelayOffers(t.leases, e.id, e.ip);
    var ports := CandidatesIn(t.leases, e.id, e.ip).value;
    FirstPortIsTaken(ports, e.binds);
    EmptyTableAccepts(t, e.id, e.recovery.value, e.ip, ports[0]);
  }

  /** A registration of the old identity. */
  function LateRegistration(pt: Party, current: Token, ip: IpAddr, now: u64): Event {
    Registering(pt.fingerprint(current), Some(pt.key), ip, None, (p: u16) => Bound, now, Written)
  }

  /** A run from the very first start in which the harm is done: the host registers its old identity
      between the answer to a rotation and the rename, and its claim then belongs to a token that is
      in neither file. */
  lemma RegisteringDuringRotationLosesTheClaim(pt: Party, current: Token, next: Token, ip: IpAddr, now: u64)
    returns (actions: seq<Action>)
    requires pt.fingerprint(current) != pt.fingerprint(next)
    requires pt.fingerprint(current) in pt.ours && pt.fingerprint(next) in pt.ours
    ensures Converges(pt, NewHost(now)) && Acts(pt, NewHost(now), actions)
    ensures var s, e := ActAll(pt, NewHost(now), actions), LateRegistration(pt, current, ip, now);
            && Converges(pt, s) && WillRename(s) && AsksPort(pt, s, e) && TokenIn(pt, s.files, IdentityFile) == Some(e.id)
            && var done := Act(pt, s.(world := Step(s.world, e)), Complete);
               && e.id in Live(done.world) && Live(done.world)[e.id].recoveryId == Some(pt.key)
               && e.id !in IdsIn(pt, done.files)
  {
    var e := LateRegistration(pt, current, ip, now);
    FreshHostConverges(pt, now);
    actions := FirstRotation(pt, current, next, ip, now);
    RunConverges(pt, NewHost(now), actions);
    StartsWithoutClaims(now);
    EmptyRelayGrants(Start(None, now), e);
    HarmIsLoss(pt, ActAll(pt, NewHost(now), actions), e);
  }

  /** Another one: the host read its old identity before the rename, and the registration arrives
      after it, when no command runs any more. */
  lemma RegisteringAfterRotationLosesTheClaim(pt: Party, current: Token, next: Token, ip: IpAddr, now: u64)
    returns (actions: seq<Action>)
    requires pt.fingerprint(current) != pt.fingerprint(next)
    requires pt.fingerprint(current) in pt.ours && pt.fingerprint(next) in pt.ours
    ensures Converges(pt, NewHost(now)) && Acts(pt, NewHost(now), actions)
    ensures var s, e := ActAll(pt, NewHost(now), actions), LateRegistration(pt, current, ip, now);
            && Converges(pt, s) && s.command.Idle? && AsksPort(pt, s, e)
            && var done := s.(world := Step(s.world, e));
               && e.id in Live(done.world) && Live(done.world)[e.id].recoveryId == Some(pt.key)
               && e.id !in IdsIn(pt, done.files) && !Converges(pt, done)
  {
    var e := LateRegistration(pt, current, ip, now);
    FreshHostConverges(pt, now);
    actions := WholeRotation(pt, current, next, ip, now);
    RunConverges(pt, NewHost(now), actions);
    StartsWithoutClaims(now);
    EmptyRelayGrants(Start(None, now), e);
    HarmIsLoss(pt, ActAll(pt, NewHost(now), actions), e);
  }

  lemma WholeRotation(pt: Party, current: Token, next: Token, ip: IpAddr, now: u64) returns (actions: seq<Action>)
    requires pt.fingerprint(current) != pt.fingerprint(next)
    requires pt.fingerprint(current) in pt.ours && pt.fingerprint(next) in pt.ours
    ensures Acts(pt, NewHost(now), actions)
    ensures var s := ActAll(pt, NewHost(now), actions);
            s.command.Idle? && s.world == Start(None, now) && IdsIn(pt, s.files) == {pt.fingerprint(next)}
  {
    var s := RotationAnswered(pt, current, next, now);
    var rotation := FirstRotation(pt, current, next, ip, now);
    RenameLeavesOneToken(pt, s);
    OneMoreAct(pt, NewHost(now), rotation, Complete);
    actions := rotation + [Complete];
  }

  lemma {:induction false} OneMoreAct(pt: Party, s: System, actions: seq<Action>, last: Action)
    requires Acts(pt, s, actions) && Possible(pt, ActAll(pt, s, actions), last)
    ensures Acts(pt, s, actions + [last])
    ensures ActAll(pt, s, actions + [last]) == Act(pt, ActAll(pt, s, actions), last)
    decreases |actions|
  {
    if actions == [] {
      assert actions + [last] == [last] && [last][1..] == [];
    } else {
      OneMoreAct(pt, Act(pt, s, actions[0]), actions[1..], last);
      assert (actions + [last])[1..] == actions[1..] + [last];
    }
  }
}

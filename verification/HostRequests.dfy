/** A host's rotation and recovery from its files through the relay and back: what the relay does to
    the claim, and that the host puts its new identity in place exactly when the relay did it and
    the answer arrived (crates/cli/src/tunnel.rs, crates/server/src/tunnel.rs). */
module HostRequests {
  import opened Common
  import opened HostAdmission
  import opened ServerStates
  import opened Identity
  import opened HostCommands
  import opened Tunnels
  import Messages

  /** One visit of this host to the relay: from where and when, what the save does, what becomes of
      the answer there and on its way, and the text of an error. */
  datatype Passage = Passage(ip: IpAddr, now: u64, outcome: SaveOutcome, sending: Sending, arrives: bool, text: seq<byte>)

  /** What the host receives of an answer. */
  function Received(answer: Option<Answer>, passage: Passage): Option<Messages.ControlMessage> {
    if !passage.arrives || !passage.sending.Sent? || answer.None? then None
    else if answer.value.Said? then Some(answer.value.message)
    else Some(Messages.Error(passage.text))
  }

  /** The relay at the other end gives `response` to `message`. */
  function Answering(message: Messages.ControlMessage, response: Option<Messages.ControlMessage>): Relay {
    (m: Messages.ControlMessage) => if m == message then response else None
  }

  /** One request at the relay, and what the host receives. */
  method AskToRecover(secret: Token, next: Token, connection: Connection, state: ServerState, runtime: Runtime,
                      passage: Passage)
    returns (response: Option<Messages.ControlMessage>, closed: Option<Connection>)
    requires state.Valid()
    modifies state, state.leases, state.store, runtime
    ensures state.Valid()
    ensures var effect := RecoverEffect(old(state.Model()), old(state.store.file), state.fingerprint(secret),
                                        state.fingerprint(next), passage.ip, passage.now, passage.outcome);
            && state.Became(effect, effect.reply)
            && closed == (if effect.reply.Ok? then effect.reply.value.1 else None)
            && response == if !passage.sending.Sent? || !passage.arrives then None
                           else if effect.reply.Ok? then Some(Messages.IdentityRecovered(effect.reply.value.0))
                           else Some(Messages.Error(passage.text))
  {
    var message := Messages.RecoverIdentity(secret, next);
    var tunnel, answer;
    tunnel, answer, closed := FromQuic(connection, state, runtime, passage.ip, Some(message), passage.now,
                                       (p: u16) => BindFailed, passage.outcome, passage.sending);
    response := Received(answer, passage);
  }

  method AskToRotate(former: Token, next: Token, connection: Connection, state: ServerState, runtime: Runtime,
                     passage: Passage)
    returns (response: Option<Messages.ControlMessage>)
    requires state.Valid()
    modifies state, state.leases, state.store, runtime
    ensures state.Valid()
    ensures var effect := RotateEffect(old(state.Model()), old(state.store.file), state.fingerprint(former),
                                       state.fingerprint(next), passage.now, passage.outcome);
            && state.Became(effect, effect.reply)
            && response == if !passage.sending.Sent? || !passage.arrives then None
                           else if effect.reply.Ok? then Some(Messages.IdentityRotated(effect.reply.value))
                           else Some(Messages.Error(passage.text))
  {
    var message := Messages.RotateIdentity(former, next);
    var tunnel, answer, closed := FromQuic(connection, state, runtime, passage.ip, Some(message), passage.now,
                                           (p: u16) => BindFailed, passage.outcome, passage.sending);
    response := Received(answer, passage);
  }

  /** What the answer means to a host that is ready. */
  method Conclude(store: IdentityStore, b: Begun, response: Option<Messages.ControlMessage>)
    returns (r: Result<u16, CommandError>)
    requires Ready(store.files, b)
    modifies store
    ensures ConfirmsRecovery(response) && KeyStorable(old(store.files)) ==>
              && r == Ok(response.value.publicPort) && InPlace(store.files, b.pending.newToken)
              && RecoveryFile in store.files && store.files[RecoveryFile] == b.secret
    ensures !ConfirmsRecovery(response) || !KeyStorable(old(store.files)) ==> r.Err? && store.files == old(store.files)
  {
    var message := Messages.RecoverIdentity(b.secret, b.pending.newToken);
    var sent;
    sent, r := RecoverOnConnection(store, b.pending, b.secret, b.fromBackup, Answering(message, response));
  }

  method RecoverReady(store: IdentityStore, b: Begun, connection: Connection, state: ServerState, runtime: Runtime,
                      passage: Passage)
    returns (r: Result<u16, CommandError>, closed: Option<Connection>)
    requires state.Valid() && Ready(store.files, b)
    modifies store, state, state.leases, state.store, runtime
    ensures state.Valid()
    ensures var effect := RecoverEffect(old(state.Model()), old(state.store.file), state.fingerprint(b.secret),
                                        state.fingerprint(b.pending.newToken), passage.ip, passage.now, passage.outcome);
            && state.Became(effect, effect.reply)
            && closed == (if effect.reply.Ok? then effect.reply.value.1 else None)
            && if effect.reply.Ok? && passage.sending.Sent? && passage.arrives && KeyStorable(old(store.files)) then
                 && r == Ok(effect.reply.value.0) && InPlace(store.files, b.pending.newToken)
                 && RecoveryFile in store.files && store.files[RecoveryFile] == b.secret
               else r.Err? && store.files == old(store.files)
  {
    var response;
    response, closed := AskToRecover(b.secret, b.pending.newToken, connection, state, runtime, passage);
    r := Conclude(store, b, response);
  }

  /** A recovery of a host. Without a key, or when it cannot be prepared, the relay is not asked.
      Otherwise the relay recovers the claim of that very key for the token of the pending file, and
      closes the connection it displaced; and the host is told the port and has the token and the
      key in place if and only if the relay granted it, the answer arrived, and a typed key can be
      stored. If not, its files are as prepared, and the same recovery can be asked again. */
  method RecoverAtRelay(store: IdentityStore, useBackup: bool, typed: Option<Token>, random: Token,
                        connection: Connection, state: ServerState, runtime: Runtime, passage: Passage)
    returns (r: Result<u16, CommandError>, closed: Option<Connection>)
    requires state.Valid()
    modifies store, state, state.leases, state.store, runtime
    ensures state.Valid()
    ensures !KeyAvailable(old(store.files), useBackup, typed) || RecoveryPrepared(old(store.files), random).1.Err? ==>
              r.Err? && closed == None && state.Model() == old(state.Model()) && state.store.file == old(state.store.file)
    ensures KeyAvailable(old(store.files), useBackup, typed) && RecoveryPrepared(old(store.files), random).1.Ok? ==>
              var prepared := RecoveryPrepared(old(store.files), random).0;
              && PendingFile in prepared && |prepared[PendingFile]| == 32
              && var fromBackup := useBackup || RecoveryFile !in old(store.files);
                 var key: Token := if fromBackup then typed.value else old(store.files)[RecoveryFile];
                 var next: Token := prepared[PendingFile];
                 var effect := RecoverEffect(old(state.Model()), old(state.store.file), state.fingerprint(key),
                                             state.fingerprint(next), passage.ip, passage.now, passage.outcome);
                 && state.Became(effect, effect.reply)
                 && closed == (if effect.reply.Ok? then effect.reply.value.1 else None)
                 && if effect.reply.Ok? && passage.sending.Sent? && passage.arrives && KeyStorable(old(store.files)) then
                      && r == Ok(effect.reply.value.0) && InPlace(store.files, next)
                      && RecoveryFile in store.files && store.files[RecoveryFile] == key
                    else r.Err? && store.files == prepared
  {
    var begun := BeginRecovery(store, useBackup, typed, random);
    if begun.Err? {
      return Err(begun.error), None;
    }
    assert KeyAvailable(store.files, useBackup, typed) && store.files == RecoveryPrepared(old(store.files), random).0;
    assert store.files[PendingFile] == begun.value.pending.newToken;
    r, closed := RecoverReady(store, begun.value, connection, state, runtime, passage);
  }

  /** The files are as the rotation was prepared in. */
  predicate Prepared(f: Files, p: Pending) {
    && p.kind.Rotation? && p.oldToken.Some?
    && ReadExisting(f, IdentityFile) == Ok(p.oldToken.value) && ReadExisting(f, PendingFile) == Ok(p.newToken)
  }

  method ConcludeRotation(store: IdentityStore, p: Pending, response: Option<Messages.ControlMessage>)
    returns (r: Result<Option<u16>, CommandError>)
    requires Prepared(store.files, p)
    modifies store
    ensures ConfirmsRotation(response) ==> r == Ok(response.value.claimPort) && InPlace(store.files, p.newToken)
    ensures !ConfirmsRotation(response) ==> r.Err? && store.files == old(store.files)
  {
    var message := Messages.RotateIdentity(p.oldToken.value, p.newToken);
    var sent;
    sent, r := RotateOnConnection(store, p, Answering(message, response));
  }

  method RotateReady(store: IdentityStore, p: Pending, connection: Connection, state: ServerState, runtime: Runtime,
                     passage: Passage)
    returns (r: Result<Option<u16>, CommandError>)
    requires state.Valid() && Prepared(store.files, p)
    modifies store, state, state.leases, state.store, runtime
    ensures state.Valid()
    ensures var effect := RotateEffect(old(state.Model()), old(state.store.file), state.fingerprint(p.oldToken.value),
                                       state.fingerprint(p.newToken), passage.now, passage.outcome);
            && state.Became(effect, effect.reply)
            && if effect.reply.Ok? && passage.sending.Sent? && passage.arrives then
                 r == Ok(effect.reply.value) && InPlace(store.files, p.newToken)
               else r.Err? && store.files == old(store.files)
  {
    var response := AskToRotate(p.oldToken.value, p.newToken, connection, state, runtime, passage);
    r := ConcludeRotation(store, p, response);
  }

  /** A rotation of a host: the relay rotates the claim of the token of the identity file to the token
      of the pending file, and the host has that one in place if and only if the relay agreed and the
      answer arrived. */
  method RotateAtRelay(store: IdentityStore, random: Token, connection: Connection, state: ServerState, runtime: Runtime,
                       passage: Passage)
    returns (r: Result<Option<u16>, CommandError>)
    requires state.Valid()
    modifies store, state, state.leases, state.store, runtime
    ensures state.Valid()
    ensures RotationPrepared(old(store.files), random).1.Err? ==>
              r.Err? && state.Model() == old(state.Model()) && state.store.file == old(state.store.file)
    ensures RotationPrepared(old(store.files), random).1.Ok? ==>
              var prepared := RotationPrepared(old(store.files), random).0;
              && IdentityFile in prepared && PendingFile in prepared
              && |prepared[IdentityFile]| == 32 && |prepared[PendingFile]| == 32
              && var former: Token, next: Token := prepared[IdentityFile], prepared[PendingFile];
                 var effect := RotateEffect(old(state.Model()), old(state.store.file), state.fingerprint(former),
                                            state.fingerprint(next), passage.now, passage.outcome);
                 && state.Became(effect, effect.reply)
                 && if effect.reply.Ok? && passage.sending.Sent? && passage.arrives then
                      r == Ok(effect.reply.value) && InPlace(store.files, next)
                    else r.Err? && store.files == prepared
  {
    var pending := store.PrepareRotation(random);
    if pending.Err? {
      return Err(Local(pending.error));
    }
    assert store.files == RotationPrepared(old(store.files), random).0 && Prepared(store.files, pending.value);
    r := RotateReady(store, pending.value, connection, state, runtime, passage);
  }
}

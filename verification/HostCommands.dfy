/** The client half of `rotate-identity` and `recover-identity`: the pending identity is prepared
    before anything is sent, and replaces the identity only after the relay confirmed the request
    (crates/cli/src/tunnel.rs). */
module HostCommands {
  import opened Common
  import opened Identity
  import opened HostClaims
  import opened ClientProtocol
  import Messages

  datatype CommandError = Local(error: IdentityError) | NotConnected | BadCode | NotConfirmed | RejectedByRelay | UnexpectedAnswer

  /** What the relay's answer, if one arrives, means to a command that did not get what it asked. */
  function Unconfirmed(response: Option<Messages.ControlMessage>): CommandError {
    if response.None? then NotConfirmed else if response.value.Error? then RejectedByRelay else UnexpectedAnswer
  }

  predicate ConfirmsRotation(response: Option<Messages.ControlMessage>) {
    response.Some? && response.value.IdentityRotated?
  }

  predicate ConfirmsRecovery(response: Option<Messages.ControlMessage>) {
    response.Some? && response.value.IdentityRecovered?
  }

  /** What the relay answers to the message it gets; nothing if the stream closes or fails before an
      answer. */
  type Relay = Messages.ControlMessage -> Option<Messages.ControlMessage>

  /** The pending identity is the identity, and no longer pending. */
  predicate InPlace(f: Files, token: Token) {
    IdentityFile in f && f[IdentityFile] == token && PendingFile !in f
  }

  // ---- Rotation ----

  method RotateOnConnection(store: IdentityStore, pending: Pending, relay: Relay)
    returns (sent: Messages.ControlMessage, r: Result<Option<u16>, CommandError>)
    requires pending.kind.Rotation? && pending.oldToken.Some?
    modifies store
    ensures sent == Messages.RotateIdentity(pending.oldToken.value, pending.newToken)
    ensures !ConfirmsRotation(relay(sent)) ==>
              && store.files == old(store.files) && r == Err(Unconfirmed(relay(sent)))
              && (r == Err(NotConfirmed) <==> relay(sent) == None)
              && (r == Err(RejectedByRelay) <==> relay(sent).Some? && relay(sent).value.Error?)
    ensures ConfirmsRotation(relay(sent)) ==>
              var (files, finished) := Finished(old(store.files), pending);
              && store.files == files
              && r == if finished.Ok? then Ok(relay(sent).value.claimPort) else Err(Local(finished.error))
  {
    sent := Messages.RotateIdentity(pending.oldToken.value, pending.newToken);
    var response := relay(sent);
    match response {
      case Some(IdentityRotated(port)) =>
        var finished := store.Finish(pending);
        r := if finished.Ok? then Ok(port) else Err(Local(finished.error));
      case _ =>
        r := Err(Unconfirmed(response));
    }
  }

  /** A rotation from the start, with nothing for `relay` if it cannot be reached. What is sent are the
      tokens of the identity file and of the pending file. Only a confirmation puts the pending one
      in place; whatever goes wrong before it, the identity file is as it was, and so is the pending
      file once it exists: the next try asks for the same change. */
  method RotateIdentity(store: IdentityStore, random: Token, relay: Option<Relay>)
    returns (sent: Option<Messages.ControlMessage>, r: Result<Option<u16>, CommandError>)
    modifies store
    ensures var (prepared, pending) := RotationPrepared(old(store.files), random);
            && (sent.Some? <==> pending.Ok? && relay.Some?)
            && (sent.Some? ==>
                  && sent.value.RotateIdentity? && prepared.Keys >= {IdentityFile, PendingFile}
                  && sent.value.oldToken == old(store.files)[IdentityFile] && sent.value.newToken == prepared[PendingFile])
            && if sent.Some? && ConfirmsRotation(relay.value(sent.value)) then
                 && r == Ok(relay.value(sent.value).value.claimPort) && InPlace(store.files, sent.value.newToken)
                 && store.files - {IdentityFile, PendingFile} == old(store.files) - {IdentityFile, PendingFile}
               else
                 && store.files == prepared
                 && r == Err(if pending.Err? then Local(pending.error) else if relay.None? then NotConnected
                             else Unconfirmed(relay.value(sent.value)))
  {
    sent := None;
    var pending := store.PrepareRotation(random);
    if pending.Err? {
      return sent, Err(Local(pending.error));
    }
    if relay.None? {
      return sent, Err(NotConnected);
    }
    var message;
    message, r := RotateOnConnection(store, pending.value, relay.value);
    sent := Some(message);
  }

  // ---- Recovery ----

  /** Whether a recovery key can be put in its file: not over one that cannot be read. */
  predicate KeyStorable(f: Files) {
    RecoveryFile in f ==> |f[RecoveryFile]| == 32
  }

  method RecoverOnConnection(store: IdentityStore, pending: Pending, secret: Token, fromBackup: bool, relay: Relay)
    returns (sent: Messages.ControlMessage, r: Result<u16, CommandError>)
    requires pending.kind.Recovery?
    modifies store
    ensures sent == Messages.RecoverIdentity(secret, pending.newToken)
    ensures !ConfirmsRecovery(relay(sent)) ==>
              && store.files == old(store.files) && r == Err(Unconfirmed(relay(sent)))
              && (r == Err(NotConfirmed) <==> relay(sent) == None)
              && (r == Err(RejectedByRelay) <==> relay(sent).Some? && relay(sent).value.Error?)
    ensures ConfirmsRecovery(relay(sent)) && fromBackup && !KeyStorable(old(store.files)) ==>
              store.files == old(store.files) && r == Err(Local(Corrupt))
    ensures ConfirmsRecovery(relay(sent)) && (fromBackup ==> KeyStorable(old(store.files))) ==>
              var kept := if fromBackup then old(store.files)[RecoveryFile := secret] else old(store.files);
              var (files, finished) := Finished(kept, pending);
              && store.files == files
              && r == if finished.Ok? then Ok(relay(sent).value.publicPort) else Err(Local(finished.error))
  {
    sent := Messages.RecoverIdentity(secret, pending.newToken);
    var response := relay(sent);
    match response {
      case Some(IdentityRecovered(port)) =>
        if fromBackup {
          var stored := store.StoreRecovery(secret);
          if stored.Err? {
            return sent, Err(Local(stored.error));
          }
        }
        var finished := store.Finish(pending);
        r := if finished.Ok? then Ok(port) else Err(Local(finished.error));
      case _ =>
        r := Err(Unconfirmed(response));
    }
  }

  /** A recovery up to the connection. */
  datatype Begun = Begun(secret: Token, fromBackup: bool, pending: Pending)

  /** The files are as the recovery was prepared in. */
  predicate Ready(f: Files, b: Begun) {
    && b.pending.kind.Recovery? && CurrentToken(f) == Ok(b.pending.oldToken)
    && ReadExisting(f, PendingFile) == Ok(b.pending.newToken)
    && (!b.fromBackup ==> ReadExisting(f, RecoveryFile) == Ok(b.secret))
  }

  /** The key is the one in its file, unless the backup is asked for or there is no file, and then the
      one typed in; a file that cannot be read is not passed over. The new token is the one in the
      pending file afterwards. */
  method BeginRecovery(store: IdentityStore, useBackup: bool, typed: Option<Token>, random: Token)
    returns (begun: Result<Begun, CommandError>)
    modifies store
    ensures useBackup || RecoveryFile !in old(store.files) ==> (begun == Err(BadCode) <==> typed.None?)
    ensures !useBackup && !KeyStorable(old(store.files)) ==> begun == Err(Local(Corrupt)) && store.files == old(store.files)
    ensures begun == Err(BadCode) ==> store.files == old(store.files) && (useBackup || RecoveryFile !in old(store.files))
    ensures begun.Ok? ==>
              var b := begun.value;
              && Ready(store.files, b)
              && b.fromBackup == (useBackup || RecoveryFile !in old(store.files))
              && (if b.fromBackup then typed == Some(b.secret) else b.secret == old(store.files)[RecoveryFile])
    ensures begun != Err(BadCode) && (useBackup || KeyStorable(old(store.files))) ==>
              var (prepared, pending) := RecoveryPrepared(old(store.files), random);
              && store.files == prepared
              && (begun.Ok? ==> pending == Ok(begun.value.pending) && PendingFile in prepared
                                && prepared[PendingFile] == begun.value.pending.newToken)
              && (begun.Err? ==> pending.Err? && begun == Err(Local(pending.error)))
  {
    var secret, fromBackup;
    var stored := ReadExisting(store.files, RecoveryFile);
    if useBackup || stored == Err(NotFound) {
      if typed.None? {
        return Err(BadCode);
      }
      secret, fromBackup := typed.value, true;
    } else if stored.Err? {
      return Err(Local(stored.error));
    } else {
      secret, fromBackup := stored.value, false;
    }
    var pending := store.PrepareRecovery(random);
    if pending.Err? {
      return Err(Local(pending.error));
    }
    return Ok(Begun(secret, fromBackup, pending.value));
  }

  /** Whether the host has a key to recover with. */
  predicate KeyAvailable(f: Files, useBackup: bool, typed: Option<Token>) {
    if useBackup || RecoveryFile !in f then typed.Some? else |f[RecoveryFile]| == 32
  }

  /** A recovery from the start. What is sent are the key of the recovery file, or the typed one, and
      the token of the pending file. Only a confirmation puts that token in place, and the typed key
      in its file. */
  method RecoverIdentity(store: IdentityStore, useBackup: bool, typed: Option<Token>, random: Token, relay: Option<Relay>)
    returns (sent: Option<Messages.ControlMessage>, r: Result<u16, CommandError>)
    modifies store
    ensures !KeyAvailable(old(store.files), useBackup, typed) ==>
              && sent == None && store.files == old(store.files)
              && r == Err(if useBackup || RecoveryFile !in old(store.files) then BadCode else Local(Corrupt))
    ensures KeyAvailable(old(store.files), useBackup, typed) ==>
              var (prepared, pending) := RecoveryPrepared(old(store.files), random);
              var fromBackup := useBackup || RecoveryFile !in old(store.files);
              && (sent.Some? <==> pending.Ok? && relay.Some?)
              && (sent.Some? ==>
                    && sent.value.RecoverIdentity? && PendingFile in prepared
                    && (if fromBackup then typed == Some(sent.value.recoverySecret)
                        else sent.value.recoverySecret == old(store.files)[RecoveryFile])
                    && sent.value.newToken == prepared[PendingFile])
              && if sent.Some? && ConfirmsRecovery(relay.value(sent.value)) && (fromBackup ==> KeyStorable(prepared)) then
                   && r == Ok(relay.value(sent.value).value.publicPort) && InPlace(store.files, sent.value.newToken)
                   && RecoveryFile in store.files && store.files[RecoveryFile] == sent.value.recoverySecret
                 else
                   && store.files == prepared
                   && r == Err(if pending.Err? then Local(pending.error) else if relay.None? then NotConnected
                               else if ConfirmsRecovery(relay.value(sent.value)) then Local(Corrupt)
                               else Unconfirmed(relay.value(sent.value)))
  {
    sent := None;
    var begun := BeginRecovery(store, useBackup, typed, random);
    if begun.Err? {
      return sent, Err(begun.error);
    }
    if relay.None? {
      return sent, Err(NotConnected);
    }
    var message;
    message, r := RecoverOnConnection(store, begun.value.pending, begun.value.secret, begun.value.fromBackup, relay.value);
    sent := Some(message);
  }

  /** Seen from the protocol, a confirmed recovery with a typed key keeps the key and completes: it
      cannot fail, the identity file then has the owner of the claim, and the key is on file. */
  lemma ConfirmedRecovery(pt: Party, s: System, secret: Token)
    requires CommandOk(pt, s) && WillRename(s)
    ensures var kept := Act(pt, s, KeepKey(secret));
            var done := Act(pt, kept, Complete);
            && Finished(s.files[RecoveryFile := secret], s.command.pending) == (done.files, Ok(()))
            && (Converges(pt, s) ==> Converges(pt, done))
            && ReadExisting(done.files, IdentityFile) == Ok(s.command.pending.newToken)
            && ReadExisting(done.files, RecoveryFile) == Ok(secret)
  {
    var kept := Act(pt, s, KeepKey(secret));
    CompletionSucceeds(pt, kept);
    if Converges(pt, s) {
      ActConverges(pt, s, KeepKey(secret));
      ActConverges(pt, kept, Complete);
    }
  }
}

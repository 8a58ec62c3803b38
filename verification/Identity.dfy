/** The host's identity files: one-time creation, the pending identity shared by rotation and
    recovery, and the rename that completes them (crates/core/src/identity.rs). */
module Identity {
  import opened Common

  datatype Path = IdentityFile | PendingFile | RecoveryFile

  type Files = map<Path, seq<byte>>

  datatype IdentityError = NotFound | Corrupt | PendingEqualsCurrent | IdentityChanged | PendingChanged

  datatype Kind = Rotation | Recovery

  /** `PendingRotation` or `PendingRecovery`: prepared but not acknowledged. Only a recovery may
      start without an identity. */
  datatype Pending = Pending(kind: Kind, oldToken: Option<Token>, newToken: Token)

  function ReadExisting(f: Files, p: Path): Result<Token, IdentityError> {
    if p !in f then Err(NotFound) else if |f[p]| != 32 then Err(Corrupt) else Ok(f[p])
  }

  function LoadOrCreate(f: Files, p: Path, random: Token): (Files, Result<Token, IdentityError>) {
    if p in f then (f, ReadExisting(f, p)) else (f[p := random], Ok(random))
  }

  /** The identity file's token, if there is a file; an unreadable file is an error. */
  function CurrentToken(f: Files): Result<Option<Token>, IdentityError> {
    if IdentityFile !in f then Ok(None)
    else if |f[IdentityFile]| != 32 then Err(Corrupt)
    else Ok(Some(f[IdentityFile]))
  }

  function PreparedWith(kind: Kind, f: Files, current: Option<Token>, random: Token): (Files, Result<Pending, IdentityError>) {
    var (f', next) := LoadOrCreate(f, PendingFile, random);
    if next.Err? then (f', Err(next.error))
    else if current == Some(next.value) then (f', Err(PendingEqualsCurrent))
    else (f', Ok(Pending(kind, current, next.value)))
  }

  function RotationPrepared(f: Files, random: Token): (Files, Result<Pending, IdentityError>) {
    var current := ReadExisting(f, IdentityFile);
    if current.Err? then (f, Err(current.error)) else PreparedWith(Rotation, f, Some(current.value), random)
  }

  function RecoveryPrepared(f: Files, random: Token): (Files, Result<Pending, IdentityError>) {
    var current := CurrentToken(f);
    if current.Err? then (f, Err(current.error)) else PreparedWith(Recovery, f, current.value, random)
  }

  /** The atomic rename of the pending file over the identity file. */
  function Renamed(f: Files): Files
    requires PendingFile in f
  {
    f[IdentityFile := f[PendingFile]] - {PendingFile}
  }

  function Finished(f: Files, p: Pending): (Files, Result<(), IdentityError>) {
    var current, pending := CurrentToken(f), ReadExisting(f, PendingFile);
    if current.Err? then (f, Err(current.error))
    else if p.kind.Rotation? && current.value.None? then (f, Err(NotFound))
    else if current.value != p.oldToken then (f, Err(IdentityChanged))
    else if pending.Err? then (f, Err(pending.error))
    else if pending.value != p.newToken then (f, Err(PendingChanged))
    else (Renamed(f), Ok(()))
  }

  /** A rotation needs a readable identity and a pending token that differs from it: the one on file,
      or a new one, which is then put on file. */
  lemma RotationPreparedAnswers(f: Files, random: Token)
    ensures var (after, r) := RotationPrepared(f, random);
            var readable := IdentityFile in f && |f[IdentityFile]| == 32;
            && after == (if readable && PendingFile !in f then f[PendingFile := random] else f)
            && (r == Err(NotFound) <==> IdentityFile !in f)
            && (r == Err(Corrupt) <==> IdentityFile in f && (!readable || |after[PendingFile]| != 32))
            && (r == Err(PendingEqualsCurrent) <==> readable && after[PendingFile] == f[IdentityFile])
            && (r.Ok? <==> readable && |after[PendingFile]| == 32 && after[PendingFile] != f[IdentityFile])
            && (r.Ok? ==> r.value.kind.Rotation? && r.value.newToken == after[PendingFile]
                          && r.value.oldToken.Some? && r.value.oldToken.value == f[IdentityFile])
  {
  }

  /** A recovery needs no identity, but passes over none that cannot be read. */
  lemma RecoveryPreparedAnswers(f: Files, random: Token)
    ensures var (after, r) := RecoveryPrepared(f, random);
            var readable := IdentityFile in f ==> |f[IdentityFile]| == 32;
            && after == (if readable && PendingFile !in f then f[PendingFile := random] else f)
            && (r == Err(Corrupt) <==> !readable || |after[PendingFile]| != 32)
            && (r == Err(PendingEqualsCurrent) <==> readable && IdentityFile in f && after[PendingFile] == f[IdentityFile])
            && (r.Ok? <==> readable && |after[PendingFile]| == 32
                           && (IdentityFile in f ==> after[PendingFile] != f[IdentityFile]))
            && (r.Ok? ==> r.value.kind.Recovery? && r.value.newToken == after[PendingFile]
                          && (if IdentityFile in f then r.value.oldToken.Some? && r.value.oldToken.value == f[IdentityFile]
                              else r.value.oldToken == None))
  {
  }

  /** A pending identity is put in place if and only if both files are as they were prepared; if not,
      nothing changes. */
  lemma FinishedAnswers(f: Files, p: Pending)
    requires p.kind.Rotation? ==> p.oldToken.Some?
    ensures var (after, r) := Finished(f, p);
            && (r.Ok? <==>
                  && (if p.oldToken.Some? then IdentityFile in f && f[IdentityFile] == p.oldToken.value
                      else IdentityFile !in f)
                  && PendingFile in f && f[PendingFile] == p.newToken)
            && (r.Ok? ==> after.Keys == f.Keys + {IdentityFile} - {PendingFile} && after[IdentityFile] == p.newToken
                          && forall q | q in after && q != IdentityFile :: after[q] == f[q])
            && (r.Err? ==> after == f)
  {
  }

  class IdentityStore {
    var files: Files

    constructor (files: Files)
      ensures this.files == files
    {
      this.files := files;
    }

    /** Creates the file with its whole content, or reports that there is one already. */
    method CreateNewPrivate(p: Path, token: Token) returns (created: bool)
      modifies this
      ensures created <==> p !in old(files)
      ensures files == if created then old(files)[p := token] else old(files)
    {
      if p in files {
        return false;
      }
      files := files[p := token];
      return true;
    }

    method LoadOrCreateAt(p: Path, random: Token) returns (r: Result<Token, IdentityError>)
      modifies this
      ensures (files, r) == LoadOrCreate(old(files), p, random)
    {
      if p in files {
        return ReadExisting(files, p);
      }
      var created := CreateNewPrivate(p, random);
      if created {
        return Ok(random);
      }
      return ReadExisting(files, p);
    }

    method PrepareRotation(random: Token) returns (r: Result<Pending, IdentityError>)
      modifies this
      ensures (files, r) == RotationPrepared(old(files), random)
    {
      var oldToken := ReadExisting(files, IdentityFile);
      if oldToken.Err? {
        return Err(oldToken.error);
      }
      var newToken := ReadExisting(files, PendingFile);
      if PendingFile !in files {
        var created := CreateNewPrivate(PendingFile, random);
        newToken := if created then Ok(random) else ReadExisting(files, PendingFile);
      }
      if newToken.Err? {
        return Err(newToken.error);
      }
      if oldToken.value == newToken.value {
        return Err(PendingEqualsCurrent);
      }
      return Ok(Pending(Rotation, Some(oldToken.value), newToken.value));
    }

    method PrepareRecovery(random: Token) returns (r: Result<Pending, IdentityError>)
      modifies this
      ensures (files, r) == RecoveryPrepared(old(files), random)
    {
      var oldToken: Option<Token> := None;
      if IdentityFile in files {
        var existing := ReadExisting(files, IdentityFile);
        if existing.Err? {
          return Err(existing.error);
        }
        oldToken := Some(existing.value);
      }
      var newToken := LoadOrCreateAt(PendingFile, random);
      if newToken.Err? {
        return Err(newToken.error);
      }
      if Some(newToken.value) == oldToken {
        return Err(PendingEqualsCurrent);
      }
      return Ok(Pending(Recovery, oldToken, newToken.value));
    }

    /** `PendingRotation::finish`, which needs an identity file, and `PendingRecovery::finish`. */
    method Finish(p: Pending) returns (r: Result<(), IdentityError>)
      modifies this
      ensures (files, r) == Finished(old(files), p)
    {
      var current: Option<Token> := None;
      if IdentityFile in files {
        var existing := ReadExisting(files, IdentityFile);
        if existing.Err? {
          return Err(existing.error);
        }
        current := Some(existing.value);
      } else if p.kind.Rotation? {
        return Err(NotFound);
      }
      if current != p.oldToken {
        return Err(IdentityChanged);
      }
      var pending := ReadExisting(files, PendingFile);
      if pending.Err? {
        return Err(pending.error);
      }
      if pending.value != p.newToken {
        return Err(PendingChanged);
      }
      var moved := files[PendingFile];
      files := files[IdentityFile := moved];
      files := files - {PendingFile};
      return Ok(());
    }

    method StoreRecovery(secret: Token) returns (r: Result<(), IdentityError>)
      modifies this
      ensures RecoveryFile in old(files) && |old(files)[RecoveryFile]| != 32 ==> r == Err(Corrupt) && files == old(files)
      ensures !(RecoveryFile in old(files) && |old(files)[RecoveryFile]| != 32) ==>
                r == Ok(()) && files == old(files)[RecoveryFile := secret]
    {
      var created := CreateNewPrivate(RecoveryFile, secret);
      if created {
        return Ok(());
      }
      var existing := ReadExisting(files, RecoveryFile);
      if existing.Err? {
        return Err(existing.error);
      }
      if existing.value == secret {
        assert files == files[RecoveryFile := secret];
        return Ok(());
      }
      files := files[RecoveryFile := secret];
      return Ok(());
    }
  }
}

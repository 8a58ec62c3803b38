/** Loading the state file at start-up: version 2, or a legacy file that is backed up and migrated.
    Any attempt may stop at any file operation (crates/server/src/lease_store.rs). */
module Migration {
  import opened Common
  import opened Leases
  import opened LeaseInvariants
  import opened LeaseRecords
  import opened LeaseTables
  import opened Hex
  import opened LeaseStores
  import opened StateText
  import opened ServerStates
  import opened Durability
  import opened RunProperties

  type LegacyState = seq<(string, u16)>

  /** What the JSON text of a state file says; reading JSON itself is not modelled. */
  datatype FileValue = VersionTwo(file: PersistedV2) | Legacy(tokenPorts: LegacyState) | Malformed

  /** The state file and its `.legacy-backup`. */
  datatype StateFiles = StateFiles(state: Option<string>, backup: Option<string>)

  datatype LoadError =
    | TooLarge
    | Unreadable
    | BadVersion
    | BadRecords
    | BadLegacy
    | BackupConflict
    | Stopped

  /** Where an attempt crashes or meets an I/O error: in the backup after some characters, between
      the backup and the save, in the save, or nowhere. */
  datatype Stop = InBackup(written: nat) | AfterBackup | InSave(outcome: SaveOutcome) | Nowhere

  /** What is fixed: how addresses are printed, how text is read, the token fingerprint. */
  datatype Setting = Setting(ipText: IpPrinter, parse: string -> FileValue, fingerprint: Token -> TokenId)

  /** Every file the relay prints is read back as it was, and fingerprints do not collide. */
  ghost predicate Sound(s: Setting) {
    && PrintsAddresses(s.ipText)
    && (forall rs :: s.parse(FileText(s.ipText, PersistedV2(2, FromRecords(rs)))) == VersionTwo(PersistedV2(2, FromRecords(rs))))
    && (forall a: Token, b: Token :: s.fingerprint(a) == s.fingerprint(b) ==> a == b)
  }

  // ---- Migrating a legacy list ----

  ghost predicate EntriesOk(legacy: LegacyState, n: nat)
    requires n <= |legacy|
  {
    && (forall i :: 0 <= i < n ==> PORT_START <= legacy[i].1 <= PORT_END && IsHex32(legacy[i].0))
    && (forall i, j :: 0 <= i < j < n ==> legacy[i].1 != legacy[j].1 && HexBytes(legacy[i].0) != HexBytes(legacy[j].0))
  }

  ghost predicate LegacyOk(legacy: LegacyState) {
    |legacy| <= 1000 && EntriesOk(legacy, |legacy|)
  }

  function PortsBefore(legacy: LegacyState, n: nat): set<u16>
    requires n <= |legacy|
  {
    set i | 0 <= i < n :: legacy[i].1
  }

  ghost function TokensBefore(legacy: LegacyState, n: nat): set<Token>
    requires n <= |legacy|
  {
    set i | 0 <= i < n && IsHex32(legacy[i].0) :: HexBytes(legacy[i].0)
  }

  lemma NextEntry(legacy: LegacyState, n: nat)
    requires n < |legacy| && EntriesOk(legacy, n)
    ensures EntriesOk(legacy, n + 1) <==>
              && PORT_START <= legacy[n].1 <= PORT_END && legacy[n].1 !in PortsBefore(legacy, n)
              && IsHex32(legacy[n].0) && HexBytes(legacy[n].0) !in TokensBefore(legacy, n)
    ensures !EntriesOk(legacy, n + 1) ==> !LegacyOk(legacy)
    ensures PortsBefore(legacy, n + 1) == PortsBefore(legacy, n) + {legacy[n].1}
    ensures IsHex32(legacy[n].0) ==> TokensBefore(legacy, n + 1) == TokensBefore(legacy, n) + {HexBytes(legacy[n].0)}
  {
  }

  function LegacyRecord(s: Setting, entry: (string, u16), now: u64): LeaseRecord
    requires IsHex32(entry.0)
  {
    LeaseRecord(s.fingerprint(HexBytes(entry.0)), [], None, entry.1, None, SaturatingAdd(now, GRACE_MS))
  }

  function LegacyRecords(s: Setting, legacy: LegacyState, now: u64): (rs: seq<LeaseRecord>)
    requires forall i :: 0 <= i < |legacy| ==> IsHex32(legacy[i].0)
  {
    seq(|legacy|, i requires 0 <= i < |legacy| => LegacyRecord(s, legacy[i], now))
  }

  ghost function Migrated(s: Setting, legacy: LegacyState, now: u64): Table
    requires LegacyOk(legacy)
  {
    Table(RestoredLeases(LegacyRecords(s, legacy, now), now), 0)
  }

  lemma LegacyIsAcceptable(s: Setting, legacy: LegacyState, now: u64)
    requires Sound(s) && LegacyOk(legacy)
    ensures Acceptable(LegacyRecords(s, legacy, now)) && ValidTable(Migrated(s, legacy, now))
  {
    var rs := LegacyRecords(s, legacy, now);
    forall i, j | 0 <= i < |rs| && 0 <= j < |rs| && i != j ensures RecordsCompatible(rs[i], rs[j]) {
      var a, b := if i < j then i else j, if i < j then j else i;
      assert legacy[a].1 != legacy[b].1 && HexBytes(legacy[a].0) != HexBytes(legacy[b].0);
    }
    AcceptedIsValid(rs, now);
  }

  /** Every legacy reservation becomes a grace claim on its port under the token's fingerprint,
      and nothing else does. */
  lemma MigratedClaims(s: Setting, legacy: LegacyState, now: u64)
    requires Sound(s) && LegacyOk(legacy) && now < U64_MAX
    ensures var m := Migrated(s, legacy, now).leases;
            && (forall i :: 0 <= i < |legacy| ==>
                  var id := s.fingerprint(HexBytes(legacy[i].0));
                  id in m && m[id] == Lease(legacy[i].1, None, [], None, Grace(SaturatingAdd(now, GRACE_MS))))
            && |m| == |legacy|
  {
    var rs := LegacyRecords(s, legacy, now);
    LegacyIsAcceptable(s, legacy, now);
    AcceptableTokens(rs);
    RestoredAre(rs, now);
    TokensOfSize(rs);
    var m := Migrated(s, legacy, now).leases;
    forall i | 0 <= i < |legacy|
      ensures var id := s.fingerprint(HexBytes(legacy[i].0));
              id in m && m[id] == Lease(legacy[i].1, None, [], None, Grace(SaturatingAdd(now, GRACE_MS)))
    {
      assert rs[i].tokenId in m;
    }
    assert m.Keys == TokensOf(rs);
  }

  // ---- One attempt, as a value ----

  /** What `backup_legacy` leaves, and whether the attempt goes on. */
  ghost function BackedUp(backup: Option<string>, bytes: string, stop: Stop): (Option<string>, Result<(), LoadError>) {
    if backup.Some? && !(backup.value <= bytes) then (backup, Err(BackupConflict))
    else if backup.Some? && |backup.value| == |bytes| then
      (backup, if stop.InBackup? then Err(Stopped) else Ok(()))
    else if stop.InBackup? then
      (if stop.written >= |bytes| then Some(bytes)
       else if backup.Some? then backup                     // replaced by rename: all or nothing
       else Some(bytes[..stop.written]),                    // written in place
       Err(Stopped))
    else (Some(bytes), Ok(()))
  }

  ghost function Attempt(s: Setting, f: StateFiles, now: u64, stop: Stop): (StateFiles, Result<Table, LoadError>) {
    if f.state.None? then (f, Ok(EMPTY_TABLE))
    else
      var bytes := f.state.value;
      if |bytes| > MAX_STATE_BYTES then (f, Err(TooLarge))
      else
        match s.parse(bytes)
        case Malformed => (f, Err(Unreadable))
        case VersionTwo(file) =>
          if file.version != 2 then (f, Err(BadVersion))
          else if !Loadable(file) then (f, Err(BadRecords))
          else (f, Ok(Loaded(file, now)))
        case Legacy(legacy) =>
          if !LegacyOk(legacy) then (f, Err(BadLegacy))
          else
            var table := Migrated(s, legacy, now);
            var (backup, done) := BackedUp(f.backup, bytes, stop);
            var f' := f.(backup := backup);
            if done.Err? then (f', Err(done.error))
            else if stop.AfterBackup? then (f', Err(Stopped))
            else
              var outcome := if stop.InSave? then stop.outcome else Written;
              var state := if outcome.FailedBeforeRename? then f.state
                           else Some(FileText(s.ipText, ImageOf(table.leases, now)));
              (f'.(state := state), if outcome.Written? then Ok(table) else Err(Stopped))
  }

  /** What is refused, and how. A file that is too long, is no state file, has another version,
      records that cannot be restored, or a legacy list that cannot be migrated, and a backup of
      something else, stop the start-up, and change nothing on disk: only a relay without a state
      file starts empty. */
  lemma LoadAnswers(s: Setting, f: StateFiles, now: u64, stop: Stop)
    ensures var (after, r) := Attempt(s, f, now, stop);
            && (f.state.None? ==> r == Ok(EMPTY_TABLE) && after == f)
            && (f.state.Some? ==>
                  var bytes, value := f.state.value, s.parse(f.state.value);
                  var fits := |bytes| <= 1_048_576;
                  && (r == Err(TooLarge) <==> !fits)
                  && (r == Err(Unreadable) <==> fits && value.Malformed?)
                  && (r == Err(BadVersion) <==> fits && value.VersionTwo? && value.file.version != 2)
                  && (r == Err(BadRecords) <==>
                        fits && value.VersionTwo? && value.file.version == 2 && !Loadable(value.file))
                  && (r == Err(BadLegacy) <==> fits && value.Legacy? && !LegacyOk(value.tokenPorts))
                  && (r == Err(BackupConflict) <==> fits && value.Legacy? && LegacyOk(value.tokenPorts)
                                                    && f.backup.Some? && !(f.backup.value <= bytes)))
            && (r.Err? && r.error != Stopped ==> after == f)
  {
  }

  /** And what is accepted: a version 2 file as its unexpired claims, and then nothing is written; a
      legacy list as its migration, and then it is in the backup, whole, and the migration on disk. */
  lemma LoadAccepts(s: Setting, f: StateFiles, now: u64, stop: Stop)
    requires f.state.Some? && Attempt(s, f, now, stop).1.Ok?
    ensures var (after, r) := Attempt(s, f, now, stop); var bytes, value := f.state.value, s.parse(f.state.value);
            match value
            case Malformed => false
            case VersionTwo(file) => Loadable(file) && r == Ok(Loaded(file, now)) && after == f
            case Legacy(legacy) =>
              && LegacyOk(legacy) && r == Ok(Migrated(s, legacy, now)) && after.backup == Some(bytes)
              && after.state == Some(FileText(s.ipText, ImageOf(Migrated(s, legacy, now).leases, now)))
  {
    if BackedUp(f.backup, f.state.value, stop).1.Ok? {
      BackedUpWhole(f.backup, f.state.value, stop);
    }
  }

  lemma BackedUpWhole(backup: Option<string>, bytes: string, stop: Stop)
    requires BackedUp(backup, bytes, stop).1.Ok?
    ensures BackedUp(backup, bytes, stop).0 == Some(bytes)
  {
    assert backup.Some? && backup.value <= bytes && |backup.value| == |bytes| ==> backup.value == bytes;
    assert bytes[..|bytes|] == bytes;
  }

  // ---- The class ----

  class StateDirectory {
    const setting: Setting
    var files: StateFiles

    constructor (setting: Setting, files: StateFiles)
      ensures this.setting == setting && this.files == files
    {
      this.setting, this.files := setting, files;
    }

    method MigrateLegacy(legacy: LegacyState, now: u64) returns (r: Result<LeaseTable, LoadError>)
      requires Sound(setting)
      ensures r.Ok? <==> LegacyOk(legacy)
      ensures r.Ok? ==> fresh(r.value) && r.value.Model() == Migrated(setting, legacy, now)
      ensures r.Err? ==> r.error == BadLegacy
    {
      if |legacy| > 1000 {
        return Err(BadLegacy);
      }
      var tokens: set<Token> := {};
      var ports: set<u16> := {};
      var records: seq<LeaseRecord> := [];
      for n := 0 to |legacy|
        invariant EntriesOk(legacy, n)
        invariant ports == PortsBefore(legacy, n) && tokens == TokensBefore(legacy, n)
        invariant |records| == n && forall i :: 0 <= i < n ==> records[i] == LegacyRecord(setting, legacy[i], now)
      {
        var (hex, port) := legacy[n];
        NextEntry(legacy, n);
        if !(PORT_START <= port <= PORT_END) || port in ports {
          return Err(BadLegacy);
        }
        ports := ports + {port};
        var token := ParseHex32(hex);
        if token.None? || token.value in tokens {
          return Err(BadLegacy);
        }
        tokens := tokens + {token.value};
        records := records + [LeaseRecord(setting.fingerprint(token.value), [], None, port, None,
                                          SaturatingAdd(now, GRACE_MS))];
      }
      assert records == LegacyRecords(setting, legacy, now);
      LegacyIsAcceptable(setting, legacy, now);
      var table := LeaseTable.Restore(records, now);
      return Ok(table.value);
    }

    method BackupLegacy(bytes: string, stop: Stop) returns (r: Result<(), LoadError>)
      modifies this
      ensures (files.backup, r) == BackedUp(old(files).backup, bytes, stop) && files.state == old(files).state
    {
      if files.backup.Some? {
        var existing := files.backup.value;
        if !(existing <= bytes) {
          return Err(BackupConflict);
        }
        if |existing| == |bytes| {
          return if stop.InBackup? then Err(Stopped) else Ok(());
        }
        if stop.InBackup? && stop.written < |bytes| {
          return Err(Stopped);
        }
        files := files.(backup := Some(bytes));
        return if stop.InBackup? then Err(Stopped) else Ok(());
      }
      if stop.InBackup? {
        files := files.(backup := Some(bytes[..if stop.written < |bytes| then stop.written else |bytes|]));
        assert bytes[..|bytes|] == bytes;
        return Err(Stopped);
      }
      files := files.(backup := Some(bytes));
      return Ok(());
    }

    method LoadOrCreate(now: u64, stop: Stop) returns (r: Result<LeaseTable, LoadError>)
      requires Sound(setting)
      modifies this
      ensures files == Attempt(setting, old(files), now, stop).0
      ensures r.Ok? ==> fresh(r.value) && Attempt(setting, old(files), now, stop).1 == Ok(r.value.Model())
      ensures r.Err? ==> Attempt(setting, old(files), now, stop).1 == Err(r.error)
    {
      if files.state.None? {
        var empty := new LeaseTable();
        return Ok(empty);
      }
      var bytes := files.state.value;
      if |bytes| > MAX_STATE_BYTES {
        return Err(TooLarge);
      }
      match setting.parse(bytes) {
        case Malformed => return Err(Unreadable);
        case VersionTwo(file) =>
          if file.version != 2 {
            return Err(BadVersion);
          }
          if !AllParse(file.leases) {
            return Err(BadRecords);
          }
          var table := LeaseTable.Restore(IntoRecords(file.leases), now);
          return if table.Ok? then Ok(table.value) else Err(BadRecords);
        case Legacy(legacy) =>
          var table := MigrateLegacy(legacy, now);
          if table.Err? {
            return Err(BadLegacy);
          }
          var backedUp := BackupLegacy(bytes, stop);
          if backedUp.Err? {
            return Err(backedUp.error);
          }
          if stop.AfterBackup? {
            return Err(Stopped);
          }
          LegacyIsAcceptable(setting, legacy, now);
          var records := table.value.Snapshot(now);
          var image := SavedImage(records);
          SnapshotIsSaved(setting.ipText, table.value.Model(), now, records);
          var outcome := if stop.InSave? then stop.outcome else Written;
          if |FileText(setting.ipText, image)| > MAX_STATE_BYTES || outcome.FailedBeforeRename? {
            return Err(Stopped);
          }
          files := files.(state := Some(FileText(setting.ipText, image)));
          return if outcome.Written? then Ok(table.value) else Err(Stopped);
      }
    }
  }

  // ---- Crash consistency ----

  ghost function MigratedText(s: Setting, legacy: LegacyState, at: u64): string
    requires LegacyOk(legacy)
  {
    FileText(s.ipText, ImageOf(Migrated(s, legacy, at).leases, at))
  }

  /** The original is still the state file, with at most a part of it in the backup. */
  ghost predicate Untouched(f: StateFiles, original: string) {
    f.state == Some(original) && (f.backup.Some? ==> f.backup.value <= original)
  }

  /** The backup holds all of the original, and the state file is its migration at `at`. */
  ghost predicate MigratedAt(s: Setting, f: StateFiles, original: string, legacy: LegacyState, at: u64)
    requires LegacyOk(legacy)
  {
    f.backup == Some(original) && f.state == Some(MigratedText(s, legacy, at))
  }

  ghost predicate Consistent(s: Setting, f: StateFiles, original: string, legacy: LegacyState)
    requires LegacyOk(legacy)
  {
    Untouched(f, original) || exists at: u64 :: MigratedAt(s, f, original, legacy, at)
  }

  lemma BackupNeverConflicts(backup: Option<string>, original: string, stop: Stop)
    requires backup.Some? ==> backup.value <= original
    ensures var (backup', r) := BackedUp(backup, original, stop);
            && (backup'.Some? ==> backup'.value <= original)
            && (r.Err? ==> r.error == Stopped)
            && (r.Ok? ==> backup' == Some(original))
  {
    if backup.Some? && |backup.value| == |original| { assert backup.value == original; }
  }

  /** An attempt on the original may stop, leaving it or its migration, but is never refused. */
  lemma FirstAttempt(s: Setting, f: StateFiles, original: string, legacy: LegacyState, now: u64, stop: Stop)
    requires s.parse(original) == Legacy(legacy) && LegacyOk(legacy) && |original| <= MAX_STATE_BYTES
    requires Untouched(f, original)
    ensures var (f', r) := Attempt(s, f, now, stop);
            && (Untouched(f', original) || MigratedAt(s, f', original, legacy, now))
            && (r.Err? ==> r.error == Stopped)
            && (r.Ok? ==> MigratedAt(s, f', original, legacy, now) && r.value == Migrated(s, legacy, now))
            && (stop.Nowhere? ==> r.Ok?)
  {
    BackupNeverConflicts(f.backup, original, stop);
  }

  lemma AttemptOnVersionTwo(s: Setting, f: StateFiles, text: string, file: PersistedV2, now: u64, stop: Stop)
    requires f.state == Some(text) && |text| <= MAX_STATE_BYTES && s.parse(text) == VersionTwo(file) && Loadable(file)
    ensures Attempt(s, f, now, stop) == (f, Ok(Loaded(file, now)))
  {
  }

  lemma ImageIsRead(s: Setting, m: Claims, at: u64)
    requires Sound(s)
    ensures s.parse(FileText(s.ipText, ImageOf(m, at))) == VersionTwo(ImageOf(m, at))
  {
    var rs := RecordsFrom(m, at, PORT_START);
    assert ImageOf(m, at) == PersistedV2(2, FromRecords(rs));
  }

  /** An attempt on a migrated file loads the claims of the migration that have not lapsed. */
  lemma LaterAttempt(s: Setting, f: StateFiles, original: string, legacy: LegacyState, at: u64, now: u64, stop: Stop)
    requires Sound(s) && LegacyOk(legacy) && MigratedAt(s, f, original, legacy, at)
    ensures Attempt(s, f, now, stop) == (f, Ok(Table(Demoted(Migrated(s, legacy, at).leases, at, now), 0)))
  {
    var t := Migrated(s, legacy, at);
    var image := ImageOf(t.leases, at);
    LegacyIsAcceptable(s, legacy, at);
    OwnStateFits(s.ipText, t, at);
    LoadSaved(t, at, now);
    ImageIsRead(s, t.leases, at);
    AttemptOnVersionTwo(s, f, MigratedText(s, legacy, at), image, now, stop);
  }

  lemma AttemptIsConsistent(s: Setting, f: StateFiles, original: string, legacy: LegacyState, now: u64, stop: Stop)
    requires Sound(s) && s.parse(original) == Legacy(legacy) && LegacyOk(legacy) && |original| <= MAX_STATE_BYTES
    requires Consistent(s, f, original, legacy)
    ensures Consistent(s, Attempt(s, f, now, stop).0, original, legacy)
    ensures Attempt(s, f, now, stop).1.Err? ==> Attempt(s, f, now, stop).1 == Err(Stopped) && !stop.Nowhere?
  {
    if Untouched(f, original) {
      FirstAttempt(s, f, original, legacy, now, stop);
    } else {
      var at: u64 :| MigratedAt(s, f, original, legacy, at);
      LaterAttempt(s, f, original, legacy, at, now, stop);
    }
  }

  ghost function Attempts(s: Setting, f: StateFiles, tries: seq<(u64, Stop)>): StateFiles {
    if tries == [] then f
    else Attempt(s, Attempts(s, f, tries[..|tries| - 1]), tries[|tries| - 1].0, tries[|tries| - 1].1).0
  }

  /** Migration over any number of attempts, each stopped anywhere, even inside the backup: the
      original text is never lost, and no attempt is ever refused. */
  lemma {:induction false} MigrationSurvivesCrashes(s: Setting, original: string, legacy: LegacyState,
                                                    tries: seq<(u64, Stop)>)
    requires Sound(s) && s.parse(original) == Legacy(legacy) && LegacyOk(legacy) && |original| <= MAX_STATE_BYTES
    ensures var f := Attempts(s, StateFiles(Some(original), None), tries);
            && Consistent(s, f, original, legacy)
            && (f.state == Some(original) || f.backup == Some(original))
  {
    if tries != [] {
      var n := |tries| - 1;
      MigrationSurvivesCrashes(s, original, legacy, tries[..n]);
      AttemptIsConsistent(s, Attempts(s, StateFiles(Some(original), None), tries[..n]), original, legacy, tries[n].0,
                          tries[n].1);
    }
  }

  lemma AttemptTime(s: Setting, f: StateFiles, original: string, legacy: LegacyState, at: u64, now: u64, stop: Stop)
    returns (next: u64)
    requires Sound(s) && s.parse(original) == Legacy(legacy) && LegacyOk(legacy) && |original| <= MAX_STATE_BYTES
    requires Untouched(f, original) || MigratedAt(s, f, original, legacy, at)
    ensures var f' := Attempt(s, f, now, stop).0;
            Untouched(f', original) || (MigratedAt(s, f', original, legacy, next) && next == if Untouched(f, original) then now else at)
  {
    if Untouched(f, original) {
      FirstAttempt(s, f, original, legacy, now, stop);
      next := now;
    } else {
      LaterAttempt(s, f, original, legacy, at, now, stop);
      next := at;
    }
  }

  /** The migration on disk is that of one of the attempts, at its time. */
  lemma {:induction false} MigratedByAnAttempt(s: Setting, original: string, legacy: LegacyState, tries: seq<(u64, Stop)>)
    returns (i: nat)
    requires Sound(s) && s.parse(original) == Legacy(legacy) && LegacyOk(legacy) && |original| <= MAX_STATE_BYTES
    ensures var f := Attempts(s, StateFiles(Some(original), None), tries);
            Untouched(f, original) || (i < |tries| && MigratedAt(s, f, original, legacy, tries[i].0))
  {
    i := 0;
    if tries != [] {
      var n := |tries| - 1;
      var j := MigratedByAnAttempt(s, original, legacy, tries[..n]);
      var f := Attempts(s, StateFiles(Some(original), None), tries[..n]);
      var at := if j < n then tries[..n][j].0 else 0;
      var next := AttemptTime(s, f, original, legacy, at, tries[n].0, tries[n].1);
      i := if Untouched(f, original) then n else j;
    }
  }

  /** `m` is exactly the legacy reservations as claims in grace since `at`. */
  ghost predicate LegacyClaims(s: Setting, legacy: LegacyState, at: u64, m: Claims)
    requires LegacyOk(legacy)
  {
    && |m| == |legacy|
    && forall i :: 0 <= i < |legacy| ==>
         var id := s.fingerprint(HexBytes(legacy[i].0));
         id in m && m[id] == Lease(legacy[i].1, None, [], None, Grace(SaturatingAdd(at, GRACE_MS)))
  }

  lemma AllInGrace(s: Setting, legacy: LegacyState, at: u64)
    requires Sound(s) && LegacyOk(legacy)
    ensures var m := Migrated(s, legacy, at).leases;
            forall k | k in m :: m[k].status == Grace(SaturatingAdd(at, GRACE_MS)) && at < SaturatingAdd(at, GRACE_MS)
  {
    var rs, m := LegacyRecords(s, legacy, at), Migrated(s, legacy, at).leases;
    LegacyIsAcceptable(s, legacy, at);
    AcceptableTokens(rs);
    RestoredAre(rs, at);
    forall k | k in m ensures m[k].status == Grace(SaturatingAdd(at, GRACE_MS)) && at < SaturatingAdd(at, GRACE_MS) {
      assert k in TokensOf(rs);
    }
  }

  lemma GraceLapsesTogether(m: Claims, expiresAt: u64, savedAt: u64, now: u64)
    requires forall k | k in m :: m[k].status == Grace(expiresAt)
    ensures Demoted(m, savedAt, now) == if now < expiresAt then m else map[]
  {
  }

  /** What is left at `now` of a migration at `at`: everything for 300 s, and then nothing. */
  lemma MigratedLater(s: Setting, legacy: LegacyState, at: u64, now: u64)
    requires Sound(s) && LegacyOk(legacy)
    ensures var m := Demoted(Migrated(s, legacy, at).leases, at, now);
            if at < U64_MAX && now < SaturatingAdd(at, GRACE_MS) then LegacyClaims(s, legacy, at, m) else m == map[]
  {
    AllInGrace(s, legacy, at);
    GraceLapsesTogether(Migrated(s, legacy, at).leases, SaturatingAdd(at, GRACE_MS), at, now);
    if at < U64_MAX {
      MigratedClaims(s, legacy, at);
    } else {
      assert SaturatingAdd(at, GRACE_MS) == at;
    }
  }

  /** And a start-up that is not stopped ends with the legacy claims. The migration that reached the
      disk is the one of this start-up or of an earlier attempt; until 300 s after its time every
      legacy token holds its port, and nobody else holds one. */
  lemma MigrationEndsWithTheClaims(s: Setting, original: string, legacy: LegacyState, tries: seq<(u64, Stop)>, now: u64)
    returns (at: u64)
    requires Sound(s) && s.parse(original) == Legacy(legacy) && LegacyOk(legacy) && |original| <= MAX_STATE_BYTES
    ensures at == now || exists i :: 0 <= i < |tries| && tries[i].0 == at
    ensures var f := Attempts(s, StateFiles(Some(original), None), tries);
            var (f', r) := Attempt(s, f, now, Nowhere);
            && MigratedAt(s, f', original, legacy, at)
            && (if Untouched(f, original) then at == now else f' == f)
            && r.Ok?
            && if at < U64_MAX && now < SaturatingAdd(at, GRACE_MS) then LegacyClaims(s, legacy, at, r.value.leases)
               else r.value.leases == map[]
  {
    var f := Attempts(s, StateFiles(Some(original), None), tries);
    var i := MigratedByAnAttempt(s, original, legacy, tries);
    if Untouched(f, original) {
      at := now;
      FirstAttempt(s, f, original, legacy, now, Nowhere);
      LegacyIsAcceptable(s, legacy, now);
      RestoredLater(LegacyRecords(s, legacy, now), now, now, now);
    } else {
      at := tries[i].0;
      LaterAttempt(s, f, original, legacy, at, now, Nowhere);
    }
    MigratedLater(s, legacy, at, now);
  }

  /** A relay that starts from a migrated state has no source over its quota, so it never will. */
  lemma MigratedStartHasQuota(s: Setting, legacy: LegacyState, at: u64, now: u64)
    requires Sound(s) && LegacyOk(legacy)
    ensures var disk := Some(ImageOf(Migrated(s, legacy, at).leases, at));
            Startable(disk) && Durable(Start(disk, now)) && QuotaWorld(Start(disk, now))
  {
    var rs := LegacyRecords(s, legacy, at);
    var t := Migrated(s, legacy, at);
    LegacyIsAcceptable(s, legacy, at);
    AcceptableTokens(rs);
    RestoredAre(rs, at);
    forall k | k in t.leases ensures t.leases[k].lastIp == None {
      assert k in TokensOf(rs);
    }
    forall source ensures ChargedKeys(t.leases, source) == {} {}
    SavedMirrors(t, at);
    StartIsDurable(Some(ImageOf(t.leases, at)), now);
    forall late: u64 ensures QuotaOk(StartTable(Some(ImageOf(t.leases, at)), late).leases) {
      DemotedQuota(t.leases, at, late);
    }
  }
}

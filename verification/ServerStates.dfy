/** The relay's state: the lease table, the saved file, the health flag and the live connections
    (crates/server/src/state.rs). First what each operation does as a value, then the class. */
module ServerStates {
  import opened Common
  import opened HostAdmission
  import opened Leases
  import opened LeaseInvariants
  import opened LeaseRecords
  import opened LeaseTables
  import opened LeaseStores
  import opened StateText

  /** What the file system does with one save. A save that fails after its rename has written. */
  datatype SaveOutcome = Written | FailedBeforeRename | FailedAfterRename

  /** What one attempt to bind a port does; `Cancelled` is the caller going away while it waits. */
  datatype BindOutcome = Bound | InUse | BindFailed | Cancelled

  type Binds = u16 -> BindOutcome

  type Connection = nat

  type Disk = Option<PersistedV2>

  datatype Server = Server(table: Table, healthy: bool, connections: map<TokenId, (u64, Connection)>)

  datatype ServerError =
    | StorageUnavailable
    | Refused(error: LeaseError)
    | CannotBind
    | CallerGone
    | NoFreePort
    | SaveFailed

  datatype Registration = Registration(port: u16, tokenId: TokenId, session: u64)

  /** The state and the disk after an operation, whether it saved the table, and its answer. */
  datatype Effect<T> = Effect(server: Server, disk: Disk, saved: bool, reply: Result<T, ServerError>)

  ghost function DiskAfter(disk: Disk, image: PersistedV2, outcome: SaveOutcome): Disk {
    if outcome.FailedBeforeRename? then disk else Some(image)
  }

  /** Saving `staged` and, if that works, making it the state. */
  ghost function Committed<T>(before: Server, disk: Disk, staged: Table, now: u64, outcome: SaveOutcome,
                              after: Server, reply: T): Effect<T>
  {
    var disk' := DiskAfter(disk, ImageOf(staged.leases, now), outcome);
    if outcome.Written? then Effect(after, disk', true, Ok(reply))
    else Effect(before.(healthy := false), disk', false, Err(SaveFailed))
  }

  datatype Scan = Took(port: u16) | ScanFailed(error: ServerError)

  function ScanPorts(ports: seq<u16>, binds: Binds): Scan {
    if ports == [] then ScanFailed(NoFreePort)
    else
      match binds(ports[0])
      case Bound => Took(ports[0])
      case InUse => ScanPorts(ports[1..], binds)
      case BindFailed => ScanFailed(CannotBind)
      case Cancelled => ScanFailed(CallerGone)
  }

  /** A registration once its port is bound, in a table that is already reaped. */
  ghost function StageEffect(s: Server, disk: Disk, id: TokenId, recovery: Option<TokenId>, ip: IpAddr, port: u16,
                             now: u64, connection: Option<Connection>, outcome: SaveOutcome): Effect<Registration>
  {
    var (staged, session) := Activated(s.table, id, recovery, ip, port, now);
    if session.Err? then Effect(s, disk, false, Err(Refused(session.error)))
    else
      var connections := if connection.Some? then s.connections[id := (session.value, connection.value)]
                         else s.connections;
      Committed(s, disk, staged, now, outcome, Server(staged, true, connections),
                Registration(port, id, session.value))
  }

  ghost function RegisterEffect(s: Server, disk: Disk, id: TokenId, recovery: Option<TokenId>, ip: IpAddr, now: u64,
                                connection: Option<Connection>, binds: Binds, outcome: SaveOutcome): Effect<Registration>
  {
    if !s.healthy then Effect(s, disk, false, Err(StorageUnavailable))
    else
      var (reaped, candidates) := Candidates(s.table, id, ip, now);
      var s' := s.(table := reaped);
      if candidates.Err? then Effect(s', disk, false, Err(Refused(candidates.error)))
      else
        match ScanPorts(candidates.value, binds)
        case ScanFailed(error) => Effect(s', disk, false, Err(error))
        case Took(port) => StageEffect(s', disk, id, recovery, ip, port, now, connection, outcome)
  }

  function WithoutSession(connections: map<TokenId, (u64, Connection)>, id: TokenId, session: u64)
    : map<TokenId, (u64, Connection)>
  {
    if id in connections && connections[id].0 == session then connections - {id} else connections
  }

  ghost function EndEffect(s: Server, disk: Disk, id: TokenId, session: u64, now: u64, outcome: SaveOutcome): Effect<bool> {
    var (table, ended) := Ended(s.table, id, session, now);
    if !ended then Effect(s, disk, false, Ok(false))
    else
      var s' := s.(table := table, connections := WithoutSession(s.connections, id, session));
      Committed(s', disk, table, now, outcome, s', true)
  }

  ghost function RotateEffect(s: Server, disk: Disk, former: TokenId, next: TokenId, now: u64, outcome: SaveOutcome)
    : Effect<Option<u16>>
  {
    if !s.healthy then Effect(s, disk, false, Err(StorageUnavailable))
    else
      var (staged, result) := Rotated(s.table, former, next, now);
      if result.Err? then Effect(s, disk, false, Err(Refused(result.error)))
      else
        match result.value
        case Unchanged(held) => Effect(s, disk, false, Ok(held))
        case Transferred(port) => Committed(s, disk, staged, now, outcome, s.(table := staged), Some(port))
  }

  /** The connections after a recovery, and the one that must be closed. */
  function Displaced(connections: map<TokenId, (u64, Connection)>, displaced: Option<(TokenId, u64)>)
    : (map<TokenId, (u64, Connection)>, Option<Connection>)
  {
    match displaced
    case None => (connections, None)
    case Some((former, session)) =>
      if former in connections && connections[former].0 == session then
        (connections - {former}, Some(connections[former].1))
      else (connections, None)
  }

  ghost function RecoverEffect(s: Server, disk: Disk, recovery: TokenId, next: TokenId, ip: IpAddr, now: u64,
                               outcome: SaveOutcome): Effect<(u16, Option<Connection>)>
  {
    if !s.healthy then Effect(s, disk, false, Err(StorageUnavailable))
    else
      var (staged, result) := Recovered(s.table, recovery, next, ip, now);
      if result.Err? then Effect(s, disk, false, Err(Refused(result.error)))
      else if !result.value.changed then Effect(s, disk, false, Ok((result.value.port, None)))
      else
        var (connections, closed) := Displaced(s.connections, result.value.displaced);
        Committed(s, disk, staged, now, outcome, s.(table := staged, connections := connections),
                  (result.value.port, closed))
  }

  ghost function RefreshEffect(s: Server, disk: Disk, now: u64, outcome: SaveOutcome): Effect<()> {
    var s' := s.(table := Reaped(s.table, now));
    Committed(s', disk, s'.table, now, outcome, s'.(healthy := true), ())
  }

  // ---- The classes ----

  function SavedImage(records: seq<LeaseRecord>): PersistedV2 {
    PersistedV2(2, SortByPort(FromRecords(records)))
  }

  class LeaseStore {
    const ipText: IpPrinter
    var file: Disk

    constructor (ipText: IpPrinter, file: Disk)
      ensures this.ipText == ipText && this.file == file
    {
      this.ipText, this.file := ipText, file;
    }

    /** Writes any records, ordered by port, if their text is not too long. */
    method Save(records: seq<LeaseRecord>, outcome: SaveOutcome) returns (ok: bool)
      modifies this
      ensures var image := SavedImage(records);
              var fits := |FileText(ipText, image)| <= MAX_STATE_BYTES;
              && file == (if fits then DiskAfter(old(file), image, outcome) else old(file))
              && (ok <==> fits && outcome.Written?)
    {
      var image := SavedImage(records);
      if |FileText(ipText, image)| > MAX_STATE_BYTES {
        return false;
      }
      if outcome.FailedBeforeRename? {
        return false;
      }
      file := Some(image);
      return outcome.Written?;
    }
  }

  /** The snapshots of a valid table, in whatever order, are never too long, and are all saved as
      the one image of the table. */
  lemma SnapshotIsSaved(ipText: IpPrinter, t: Table, now: u64, records: seq<LeaseRecord>)
    requires PrintsAddresses(ipText) && ValidTable(t) && IsSnapshot(t.leases, now, records)
    ensures SavedImage(records) == ImageOf(t.leases, now)
    ensures |FileText(ipText, SavedImage(records))| <= MAX_STATE_BYTES
  {
    SavedImageIsCanonical(t.leases, now, records);
    OwnStateFits(ipText, t, now);
  }

  class ServerState {
    const fingerprint: Token -> TokenId
    const store: LeaseStore
    var leases: LeaseTable
    var persistenceHealthy: bool
    var activeConnections: map<TokenId, (u64, Connection)>

    ghost predicate Valid()
      reads this, leases, store
    {
      ValidTable(leases.Model()) && PrintsAddresses(store.ipText)
    }

    ghost function Model(): Server
      reads this, leases
    {
      Server(leases.Model(), persistenceHealthy, activeConnections)
    }

    ghost predicate Became<T>(effect: Effect<T>, reply: Result<T, ServerError>)
      reads this, leases, store
    {
      Model() == effect.server && store.file == effect.disk && reply == effect.reply
    }

    constructor (fingerprint: Token -> TokenId, store: LeaseStore, leases: LeaseTable)
      requires ValidTable(leases.Model()) && PrintsAddresses(store.ipText)
      ensures Valid() && Model() == Server(leases.Model(), true, map[])
      ensures this.store == store && this.leases == leases && this.fingerprint == fingerprint
    {
      this.fingerprint, this.store, this.leases := fingerprint, store, leases;
      persistenceHealthy, activeConnections := true, map[];
    }

    method RegisterWithRecovery(token: Token, recovery: Option<TokenId>, ip: IpAddr, now: u64,
                                connection: Option<Connection>, binds: Binds, outcome: SaveOutcome)
      returns (reply: Result<Registration, ServerError>)
      requires Valid()
      modifies this, leases, store
      ensures Valid() && (leases == old(leases) || fresh(leases))
      ensures Became(RegisterEffect(old(Model()), old(store.file), fingerprint(token), recovery, ip, now, connection,
                                    binds, outcome), reply)
    {
      if !persistenceHealthy {
        return Err(StorageUnavailable);
      }
      var id := fingerprint(token);
      ReapedKeeps(leases.Model(), now);
      var candidates := leases.CandidatePorts(id, ip, now);
      if candidates.Err? {
        return Err(Refused(candidates.error));
      }
      ghost var reaped := leases.Model();
      var ports := candidates.value;
      for i := 0 to |ports|
        invariant Valid() && persistenceHealthy && leases == old(leases) && leases.Model() == reaped
        invariant activeConnections == old(activeConnections) && store.file == old(store.file)
        invariant ScanPorts(ports[i..], binds) == ScanPorts(ports, binds)
      {
        var port := ports[i];
        assert ports[i..][0] == port && ports[i..][1..] == ports[i + 1..];
        match binds(port) {
          case InUse =>
          case BindFailed => return Err(CannotBind);
          case Cancelled => return Err(CallerGone);
          case Bound =>
            reply := Stage(id, recovery, ip, port, now, connection, outcome);
            return;
        }
      }
      return Err(NoFreePort);
    }

    /** Saves `staged` and, if that works, makes it the state. */
    method Commit(staged: LeaseTable, now: u64, outcome: SaveOutcome) returns (ok: bool)
      requires Valid() && ValidTable(staged.Model())
      modifies this`leases, this`persistenceHealthy, store
      ensures Valid() && ok == outcome.Written?
      ensures leases == if ok then staged else old(leases)
      ensures persistenceHealthy == (ok && old(persistenceHealthy))
      ensures store.file == DiskAfter(old(store.file), ImageOf(staged.leases, now), outcome)
    {
      var records := staged.Snapshot(now);
      SnapshotIsSaved(store.ipText, staged.Model(), now, records);
      ok := store.Save(records, outcome);
      if !ok {
        persistenceHealthy := false;
        return;
      }
      leases := staged;
    }

    /** The part of a registration after its port is bound: stage, save, commit. */
    method Stage(id: TokenId, recovery: Option<TokenId>, ip: IpAddr, port: u16, now: u64,
                 connection: Option<Connection>, outcome: SaveOutcome)
      returns (reply: Result<Registration, ServerError>)
      requires Valid() && persistenceHealthy
      modifies this, store
      ensures Valid() && (leases == old(leases) || fresh(leases)) && leases.Model() == Model().table
      ensures Became(StageEffect(old(Model()), old(store.file), id, recovery, ip, port, now, connection, outcome), reply)
    {
      ActivatedKeepsClaims(leases.Model(), id, recovery, ip, port, now);
      ActivatedKeepsSessions(leases.Model(), id, recovery, ip, port, now);
      var staged := new LeaseTable.CloneOf(leases);
      var session := staged.ActivateWithRecovery(id, recovery, ip, port, now);
      if session.Err? {
        return Err(Refused(session.error));
      }
      var ok := Commit(staged, now, outcome);
      if !ok {
        return Err(SaveFailed);
      }
      if connection.Some? {
        activeConnections := activeConnections[id := (session.value, connection.value)];
      }
      return Ok(Registration(port, id, session.value));
    }

    method End(id: TokenId, session: u64, now: u64, outcome: SaveOutcome) returns (reply: Result<bool, ServerError>)
      requires Valid()
      modifies this, leases, store
      ensures Valid() && leases == old(leases)
      ensures Became(EndEffect(old(Model()), old(store.file), id, session, now, outcome), reply)
    {
      EndedKeeps(leases.Model(), id, session, now);
      var ended := leases.End(id, session, now);
      if !ended {
        return Ok(false);
      }
      if id in activeConnections && activeConnections[id].0 == session {
        activeConnections := activeConnections - {id};
      }
      var records := leases.Snapshot(now);
      SnapshotIsSaved(store.ipText, leases.Model(), now, records);
      var ok := store.Save(records, outcome);
      if !ok {
        persistenceHealthy := false;
        return Err(SaveFailed);
      }
      return Ok(true);
    }

    method Rotate(former: Token, next: Token, now: u64, outcome: SaveOutcome)
      returns (reply: Result<Option<u16>, ServerError>)
      requires Valid()
      modifies this, store
      ensures Valid() && (leases == old(leases) || fresh(leases))
      ensures Became(RotateEffect(old(Model()), old(store.file), fingerprint(former), fingerprint(next), now, outcome),
                     reply)
    {
      if !persistenceHealthy {
        return Err(StorageUnavailable);
      }
      RotatedKeeps(leases.Model(), fingerprint(former), fingerprint(next), now);
      var staged := new LeaseTable.CloneOf(leases);
      var result := staged.RotateClaim(fingerprint(former), fingerprint(next), now);
      if result.Err? {
        return Err(Refused(result.error));
      }
      if result.value.Unchanged? {
        return Ok(result.value.held);
      }
      reply := CommitRotation(staged, result.value.port, now, outcome);
    }

    /** The part of a rotation after its claim has moved: save and commit. */
    method CommitRotation(staged: LeaseTable, port: u16, now: u64, outcome: SaveOutcome)
      returns (reply: Result<Option<u16>, ServerError>)
      requires Valid() && ValidTable(staged.Model())
      modifies this, store
      ensures Valid() && leases in {old(leases), staged}
      ensures Became(Committed(old(Model()), old(store.file), staged.Model(), now, outcome,
                               old(Model()).(table := staged.Model()), Some(port)), reply)
    {
      var ok := Commit(staged, now, outcome);
      if !ok {
        return Err(SaveFailed);
      }
      return Ok(Some(port));
    }

    method Recover(secret: Token, next: Token, ip: IpAddr, now: u64, outcome: SaveOutcome)
      returns (reply: Result<(u16, Option<Connection>), ServerError>)
      requires Valid()
      modifies this, store
      ensures Valid() && (leases == old(leases) || fresh(leases))
      ensures Became(RecoverEffect(old(Model()), old(store.file), fingerprint(secret), fingerprint(next), ip, now, outcome),
                     reply)
    {
      if !persistenceHealthy {
        return Err(StorageUnavailable);
      }
      RecoveredKeeps(leases.Model(), fingerprint(secret), fingerprint(next), ip, now);
      var staged := new LeaseTable.CloneOf(leases);
      var result := staged.RecoverClaim(fingerprint(secret), fingerprint(next), ip, now);
      if result.Err? {
        return Err(Refused(result.error));
      }
      if !result.value.changed {
        return Ok((result.value.port, None));
      }
      reply := CommitRecovery(staged, result.value, now, outcome);
    }

    /** The part of a recovery after its claim has moved: save, commit, take the connection. */
    method CommitRecovery(staged: LeaseTable, moved: RecoveryResult, now: u64, outcome: SaveOutcome)
      returns (reply: Result<(u16, Option<Connection>), ServerError>)
      requires Valid() && ValidTable(staged.Model())
      modifies this, store
      ensures Valid() && leases in {old(leases), staged}
      ensures var (connections, closed) := Displaced(old(activeConnections), moved.displaced);
              Became(Committed(old(Model()), old(store.file), staged.Model(), now, outcome,
                               old(Model()).(table := staged.Model(), connections := connections),
                               (moved.port, closed)), reply)
    {
      var ok := Commit(staged, now, outcome);
      if !ok {
        return Err(SaveFailed);
      }
      var closed := TakeDisplaced(moved.displaced);
      return Ok((moved.port, closed));
    }

    /** Removes the connection of the session a recovery displaced; another session's goes back. */
    method TakeDisplaced(displaced: Option<(TokenId, u64)>) returns (closed: Option<Connection>)
      modifies this`activeConnections
      ensures (activeConnections, closed) == Displaced(old(activeConnections), displaced)
    {
      closed := None;
      if displaced.Some? {
        var (former, session) := displaced.value;
        if former in activeConnections {
          var removed := activeConnections[former];
          activeConnections := activeConnections - {former};
          if removed.0 == session {
            closed := Some(removed.1);
          } else {
            activeConnections := activeConnections[former := removed];
            assert activeConnections == old(activeConnections);
          }
        }
      }
    }

    method RefreshAndSave(now: u64, outcome: SaveOutcome) returns (reply: Result<(), ServerError>)
      requires Valid()
      modifies this, leases, store
      ensures Valid() && leases == old(leases)
      ensures Became(RefreshEffect(old(Model()), old(store.file), now, outcome), reply)
    {
      ReapedKeeps(leases.Model(), now);
      leases.ReapExpired(now);
      var records := leases.Snapshot(now);
      SnapshotIsSaved(store.ipText, leases.Model(), now, records);
      var ok := store.Save(records, outcome);
      if !ok {
        persistenceHealthy := false;
        return Err(SaveFailed);
      }
      persistenceHealthy := true;
      return Ok(());
    }
  }
}

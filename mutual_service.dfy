/**
 * The online/offline status updates of `ProxyMutualService`, run when a
 * control connection is bound to a licence and when it goes away.
 *
 * The two mappers are a single store that records every
 * `updateOnlineStatus` call in order; the clock is a parameter.
 */
module MutualService {
  import opened Common

  datatype OnlineStatus = ONLINE | OFFLINE

  /** A point in time, as `new Date()` would give it. */
  type Timestamp = int

  /** The parts of the connection's attachment that the service reads. */
  datatype AttachInfo = AttachInfo(licenseId: int, ip: string)

  /** One `updateOnlineStatus` call on a mapper. */
  datatype StoreWrite =
    | PortMappingStatusByPort(licenseId: int, serverPort: int, status: OnlineStatus, at: Timestamp)
    | PortMappingStatusByLicense(licenseId: int, status: OnlineStatus, at: Timestamp)
    | LicenseStatus(licenseId: int, status: OnlineStatus, at: Timestamp)

  /**
   * The writes of `online`: the port mapping of (licence, server port), then
   * the licence, both online and both stamped with the same time.
   */
  function OnlineWrites(a: AttachInfo, serverPort: int, now: Timestamp): (r: seq<StoreWrite>)
    ensures |r| == 2
    ensures r[0].PortMappingStatusByPort? && r[0].serverPort == serverPort
    ensures r[1].LicenseStatus?
    ensures forall w <- r :: w.licenseId == a.licenseId && w.status == ONLINE && w.at == now
  {
    [PortMappingStatusByPort(a.licenseId, serverPort, ONLINE, now), LicenseStatus(a.licenseId, ONLINE, now)]
  }

  /**
   * The writes of `offline`: the port mappings of the licence (no server
   * port), then the licence, both offline and both stamped with the same time.
   */
  function OfflineWrites(a: AttachInfo, now: Timestamp): (r: seq<StoreWrite>)
    ensures |r| == 2
    ensures r[0].PortMappingStatusByLicense?
    ensures r[1].LicenseStatus?
    ensures forall w <- r :: w.licenseId == a.licenseId && w.status == OFFLINE && w.at == now
  {
    [PortMappingStatusByLicense(a.licenseId, OFFLINE, now), LicenseStatus(a.licenseId, OFFLINE, now)]
  }

  /** The attachment's ip goes into the log line only, never into the store. */
  lemma WritesIgnoreIp(a: AttachInfo, b: AttachInfo, serverPort: int, now: Timestamp)
    requires a.licenseId == b.licenseId
    ensures OnlineWrites(a, serverPort, now) == OnlineWrites(b, serverPort, now)
    ensures OfflineWrites(a, now) == OfflineWrites(b, now)
  {
  }

  // ---------------------------------------------------------------------------
  // Reading the store back
  // ---------------------------------------------------------------------------

  /** A stored record whose status can be asked for. */
  datatype StatusKey = LicenseKey(licenseId: int) | MappingKey(licenseId: int, serverPort: int)

  /**
   * The writes that update a record: a licence is updated by its licence
   * writes; a port mapping by writes naming its licence and port, and by
   * writes naming its licence alone.
   */
  predicate Covers(w: StoreWrite, key: StatusKey)
  {
    match key
    case LicenseKey(id) => w.LicenseStatus? && w.licenseId == id
    case MappingKey(id, port) =>
      (w.PortMappingStatusByPort? && w.licenseId == id && w.serverPort == port)
      || (w.PortMappingStatusByLicense? && w.licenseId == id)
  }

  datatype StatusStamp = StatusStamp(status: OnlineStatus, at: Timestamp)

  function StampOf(w: StoreWrite): StatusStamp
  {
    StatusStamp(w.status, w.at)
  }

  /**
   * The status a record holds after the writes of `log`, the last write
   * that covers it deciding; `None` when no write has covered it.
   */
  function LatestStatus(log: seq<StoreWrite>, key: StatusKey): (r: Option<StatusStamp>)
    ensures r.None? <==> forall i | 0 <= i < |log| :: !Covers(log[i], key)
    ensures r.Some? ==> exists i | 0 <= i < |log| :: && Covers(log[i], key)
                                                   && StampOf(log[i]) == r.value
                                                   && forall j | i < j < |log| :: !Covers(log[j], key)
    decreases |log|
  {
    if log == [] then None
    else
      var last := log[|log| - 1];
      if Covers(last, key) then Some(StampOf(last))
      else
        var earlier := LatestStatus(log[..|log| - 1], key);
        assert forall i | 0 <= i < |log| - 1 :: log[..|log| - 1][i] == log[i];
        earlier
  }

  /** Appending writes: the record's status comes from the new writes if they cover it. */
  lemma {:induction false} LatestStatusAppend(log: seq<StoreWrite>, ws: seq<StoreWrite>, key: StatusKey)
    ensures LatestStatus(log + ws, key) ==
            (if LatestStatus(ws, key).Some? then LatestStatus(ws, key) else LatestStatus(log, key))
    decreases |ws|
  {
    if ws == [] {
      assert log + ws == log;
    } else {
      var all := log + ws;
      assert all[|all| - 1] == ws[|ws| - 1];
      if !Covers(ws[|ws| - 1], key) {
        assert all[..|all| - 1] == log + ws[..|ws| - 1];
        LatestStatusAppend(log, ws[..|ws| - 1], key);
      }
    }
  }

  /**
   * After `online`, the licence and its mapping on that server port read
   * online at `now`; every other record reads as before.
   */
  lemma OnlineMarksOnline(log: seq<StoreWrite>, a: AttachInfo, serverPort: int, now: Timestamp, key: StatusKey)
    ensures var after := log + OnlineWrites(a, serverPort, now);
            LatestStatus(after, key) ==
              if key == LicenseKey(a.licenseId) || key == MappingKey(a.licenseId, serverPort)
              then Some(StatusStamp(ONLINE, now))
              else LatestStatus(log, key)
  {
    var ws := OnlineWrites(a, serverPort, now);
    LatestStatusAppend(log, ws, key);
    assert ws[..1] == [ws[0]];
    assert ws[..1][..0] == [];
  }

  /**
   * After `offline`, the licence and every one of its port mappings read
   * offline at `now`; records of other licences read as before.
   */
  lemma OfflineMarksOffline(log: seq<StoreWrite>, a: AttachInfo, now: Timestamp, key: StatusKey)
    ensures var after := log + OfflineWrites(a, now);
            LatestStatus(after, key) ==
              if key.licenseId == a.licenseId then Some(StatusStamp(OFFLINE, now))
              else LatestStatus(log, key)
  {
    var ws := OfflineWrites(a, now);
    LatestStatusAppend(log, ws, key);
    assert ws[..1] == [ws[0]];
    assert ws[..1][..0] == [];
  }

  /**
   * A connection that comes and goes leaves its licence and its port
   * mapping offline, stamped with the time it went away.
   */
  lemma OnlineThenOffline(log: seq<StoreWrite>, a: AttachInfo, serverPort: int, t1: Timestamp, t2: Timestamp)
    ensures var after := log + OnlineWrites(a, serverPort, t1) + OfflineWrites(a, t2);
            && LatestStatus(after, LicenseKey(a.licenseId)) == Some(StatusStamp(OFFLINE, t2))
            && LatestStatus(after, MappingKey(a.licenseId, serverPort)) == Some(StatusStamp(OFFLINE, t2))
  {
    var mid := log + OnlineWrites(a, serverPort, t1);
    OfflineMarksOffline(mid, a, t2, LicenseKey(a.licenseId));
    OfflineMarksOffline(mid, a, t2, MappingKey(a.licenseId, serverPort));
  }

  // ---------------------------------------------------------------------------
  // The store and the service
  // ---------------------------------------------------------------------------

  /** The port-mapping and licence tables behind the two mappers. */
  class StatusStore {
    var log: seq<StoreWrite>

    constructor ()
      ensures log == []
    {
      log := [];
    }

    /** `portMappingMapper.updateOnlineStatus(licenseId, serverPort, status, at)`. */
    method UpdatePortMappingStatus(licenseId: int, serverPort: int, status: OnlineStatus, at: Timestamp)
      modifies this
      ensures log == old(log) + [PortMappingStatusByPort(licenseId, serverPort, status, at)]
    {
      log := log + [PortMappingStatusByPort(licenseId, serverPort, status, at)];
    }

    /** `portMappingMapper.updateOnlineStatus(licenseId, status, at)`. */
    method UpdatePortMappingStatusOfLicense(licenseId: int, status: OnlineStatus, at: Timestamp)
      modifies this
      ensures log == old(log) + [PortMappingStatusByLicense(licenseId, status, at)]
    {
      log := log + [PortMappingStatusByLicense(licenseId, status, at)];
    }

    /** `licenseMapper.updateOnlineStatus(licenseId, status, at)`. */
    method UpdateLicenseStatus(licenseId: int, status: OnlineStatus, at: Timestamp)
      modifies this
      ensures log == old(log) + [LicenseStatus(licenseId, status, at)]
    {
      log := log + [LicenseStatus(licenseId, status, at)];
    }
  }

  /** `ProxyMutualService`. */
  class ProxyMutualService {
    const store: StatusStore

    constructor (s: StatusStore)
      ensures store == s
    {
      store := s;
    }

    /** `online(attachInfo, serverPort)`, with `now` in place of `new Date()`. */
    method Online(attachInfo: AttachInfo, serverPort: int, now: Timestamp)
      modifies store
      ensures store.log == old(store.log) + OnlineWrites(attachInfo, serverPort, now)
    {
      store.UpdatePortMappingStatus(attachInfo.licenseId, serverPort, ONLINE, now);
      store.UpdateLicenseStatus(attachInfo.licenseId, ONLINE, now);
    }

    /** `offline(attachInfo)`, with `now` in place of `new Date()`. */
    method Offline(attachInfo: AttachInfo, now: Timestamp)
      modifies store
      ensures store.log == old(store.log) + OfflineWrites(attachInfo, now)
    {
      store.UpdatePortMappingStatusOfLicense(attachInfo.licenseId, OFFLINE, now);
      store.UpdateLicenseStatus(attachInfo.licenseId, OFFLINE, now);
    }
  }
}

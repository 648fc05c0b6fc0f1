// The per-container hook configuration (config/config.go,
// config/config_device.go, config/config_network.go): the stored lists, the
// dirty flag that decides whether `Flush` writes, and the bind index rebuilt
// when the file is loaded.  Every method applies a list edit from
// ConfigDevice or ConfigNetwork to its field.
module HookConfig {
  import opened Wrappers
  import opened Seqs
  import opened DeviceTypes
  import opened BindIndex
  import opened ConfigDevice
  import N = NetworkTypes
  import CN = ConfigNetwork

  /** The stored lists, as the configuration file holds them. */
  datatype HookDoc = HookDoc(
    binds: seq<string>,
    devices: seq<DeviceMapping>,
    readIOPS: seq<Qos>,
    writeIOPS: seq<Qos>,
    readBps: seq<Qos>,
    writeBps: seq<Qos>,
    blkioWeight: seq<Qos>,
    nics: seq<N.InterfaceConf>,
    routes: seq<N.Route>)

  const EmptyDoc := HookDoc([], [], [], [], [], [], [], [], [])

  /** The QoS list of one kind. */
  function QosOf(d: HookDoc, t: QosType): seq<Qos>
  {
    match t
    case ReadIOPS => d.readIOPS
    case WriteIOPS => d.writeIOPS
    case ReadBps => d.readBps
    case WriteBps => d.writeBps
    case BlkioWeight => d.blkioWeight
  }

  /** The document with the QoS list of one kind replaced. */
  function WithQos(d: HookDoc, t: QosType, l: seq<Qos>): (r: HookDoc)
    ensures QosOf(r, t) == l
    ensures forall u :: u != t ==> QosOf(r, u) == QosOf(d, u)
    ensures r.binds == d.binds && r.devices == d.devices && r.nics == d.nics && r.routes == d.routes
  {
    match t
    case ReadIOPS => d.(readIOPS := l)
    case WriteIOPS => d.(writeIOPS := l)
    case ReadBps => d.(readBps := l)
    case WriteBps => d.(writeBps := l)
    case BlkioWeight => d.(blkioWeight := l)
  }

  /** What `os.Stat` and the JSON decoder make of the configuration file. */
  datatype StoredFile = Absent | Unreadable(err: string) | Undecodable(err: string) | Decoded(doc: HookDoc)

  class ContainerHookConfig {
    var binds: seq<string>
    var devices: seq<DeviceMapping>
    var readIOPS: seq<Qos>
    var writeIOPS: seq<Qos>
    var readBps: seq<Qos>
    var writeBps: seq<Qos>
    var blkioWeight: seq<Qos>
    var nics: seq<N.InterfaceConf>
    var routes: seq<N.Route>
    var dirty: bool
    const bi: BindsInfo

    function Doc(): HookDoc
      reads this
    {
      HookDoc(binds, devices, readIOPS, writeIOPS, readBps, writeBps, blkioWeight, nics, routes)
    }

    /** The bind index has only positive counts and describes the stored
      * binds. */
    ghost predicate Valid()
      reads this, bi
    {
      bi.Valid() && Describes(binds, bi.Snapshot())
    }

    constructor (d: HookDoc, index: BindsInfo)
      ensures Doc() == d && bi == index && !dirty
    {
      binds, devices := d.binds, d.devices;
      readIOPS, writeIOPS, readBps, writeBps, blkioWeight := d.readIOPS, d.writeIOPS, d.readBps, d.writeBps, d.blkioWeight;
      nics, routes := d.nics, d.routes;
      dirty := false;
      bi := index;
    }

    /** `Flush`: nothing happens on a clean store; otherwise the document is
      * written, or the write error (`writeErr`, standing for create, chmod
      * and encode) is returned.  The dirty flag is never reset. */
    method Flush(writeErr: Option<string>) returns (written: Option<HookDoc>, err: Option<string>)
      ensures !dirty ==> written.None? && err.None?
      ensures dirty && writeErr.Some? ==> written.None? && err == writeErr
      ensures dirty && writeErr.None? ==> written == Some(Doc()) && err.None?
    {
      if !dirty {
        return None, None;
      }
      if writeErr.Some? {
        return None, writeErr;
      }
      return Some(Doc()), None;
    }

    /** `UpdateDevice`. */
    method UpdateDevice(d: Device, isAdd: bool) returns (err: Option<string>)
      modifies this
      ensures var r := ConfigDevice.UpdateDevice(old(devices), d, isAdd);
              (r.Ok? ==> Doc() == old(Doc()).(devices := r.value) && dirty && err.None?) &&
              (r.Err? ==> Doc() == old(Doc()) && dirty == old(dirty) && err == Some(r.msg))
    {
      var r := ConfigDevice.UpdateDevice(devices, d, isAdd);
      if r.Err? {
        return Some(r.msg);
      }
      dirty := true;
      devices := r.value;
      return None;
    }

    /** `UpdateBind`: `addBind` or `removeBind`. */
    method UpdateBind(b: Bind, isAdd: bool) returns (flag: bool, err: Option<string>)
      modifies this, bi
      ensures isAdd ==> AddBindEffect(old(binds), old(bi.Snapshot()), b, binds, bi.Snapshot(), flag, err)
      ensures isAdd ==> dirty == (old(dirty) || binds != old(binds))
      ensures !isAdd ==> RemoveBindEffect(old(binds), old(bi.Snapshot()), b, binds, bi.Snapshot(), flag, err)
      ensures !isAdd ==> dirty == (old(dirty) || binds != old(binds))
      ensures Doc() == old(Doc()).(binds := binds)
      ensures isAdd && old(Valid()) && ':' !in b.hostPath && ':' !in b.containerPath && err.None? ==> Valid()
      ensures !isAdd && old(Valid()) && ':' !in b.hostPath && ':' !in b.containerPath ==>
                (BindIndexInArray(old(binds), b).Some? ==> err.None? && Valid()) &&
                (BindIndexInArray(old(binds), b).None? && b.hostPath in old(bi.Snapshot()).hosts ==> err.None? && !Valid())
    {
      if isAdd {
        flag, err := AddBind(b);
      } else {
        flag, err := RemoveBind(b);
      }
    }

    /** `addBind`: the index is asked first; the string is stored only when
      * the index accepted it and no stored string has the same two paths. */
    method AddBind(b: Bind) returns (exist: bool, err: Option<string>)
      modifies this, bi
      ensures AddBindEffect(old(binds), old(bi.Snapshot()), b, binds, bi.Snapshot(), exist, err)
      ensures dirty == (old(dirty) || binds != old(binds))
      ensures Doc() == old(Doc()).(binds := binds)
      ensures old(Valid()) && ':' !in b.hostPath && ':' !in b.containerPath && err.None? ==> Valid()
    {
      ghost var before := bi.Snapshot();
      ghost var wasValid := Valid();
      exist, err := bi.Add(BindToString(b));
      if err.Some? {
        return;
      }
      if BindIndexInArray(binds, b).None? {
        dirty := true;
        binds := binds + [BindToString(b)];
        if wasValid && ':' !in b.hostPath && ':' !in b.containerPath {
          DescribesAppend(old(binds), before, BindToString(b));
        }
      } else if wasValid && ':' !in b.hostPath && ':' !in b.containerPath {
        StoredBindBlocksAdd(binds, before, b);
      }
    }

    /** `removeBind`: the first stored string with the two paths goes, and
      * the index is asked to remove the bind in any case. */
    method RemoveBind(b: Bind) returns (gone: bool, err: Option<string>)
      modifies this, bi
      ensures RemoveBindEffect(old(binds), old(bi.Snapshot()), b, binds, bi.Snapshot(), gone, err)
      ensures dirty == (old(dirty) || binds != old(binds))
      ensures Doc() == old(Doc()).(binds := binds)
      ensures old(Valid()) && ':' !in b.hostPath && ':' !in b.containerPath ==>
                (BindIndexInArray(old(binds), b).Some? ==> err.None? && Valid()) &&
                (BindIndexInArray(old(binds), b).None? && b.hostPath in old(bi.Snapshot()).hosts ==> err.None? && !Valid())
    {
      ghost var binds0, ix0 := binds, bi.Snapshot();
      var i := BindIndexInArray(binds, b);
      if i.Some? {
        dirty := true;
        binds := RemoveAt(binds, i.value);
      }
      gone, err := bi.Remove(BindToString(b));
      if old(Valid()) && ':' !in b.hostPath && ':' !in b.containerPath {
        RemoveBindEffectDescribes(binds0, ix0, b, binds, bi.Snapshot(), gone, err);
      }
    }

    /** `UpdateDeviceQos`: upsert by device number; it never fails. */
    method UpdateDeviceQos(q: Qos, t: QosType) returns (err: Option<string>)
      modifies this
      ensures var e := QosUpsert(QosOf(old(Doc()), t), q);
              Doc() == WithQos(old(Doc()), t, e.list) && dirty == (old(dirty) || e.changed)
      ensures err.None?
    {
      var e := QosUpsert(QosOf(Doc(), t), q);
      SetQos(t, e.list);
      dirty := dirty || e.changed;
      return None;
    }

    /** `RemoveDeviceQos`: drop the first entry with the device's numbers;
      * the result says whether there was one, and it never fails. */
    method RemoveDeviceQos(d: Device, t: QosType) returns (found: bool, err: Option<string>)
      modifies this
      ensures var e := QosRemove(QosOf(old(Doc()), t), d.major, d.minor);
              Doc() == WithQos(old(Doc()), t, e.list) && dirty == (old(dirty) || e.changed) && found == e.changed
      ensures err.None?
    {
      var e := QosRemove(QosOf(Doc(), t), d.major, d.minor);
      SetQos(t, e.list);
      dirty := dirty || e.changed;
      return e.changed, None;
    }

    /** `SetConfigDirty`: the next `Flush` writes the store. */
    method SetConfigDirty()
      modifies this
      ensures Doc() == old(Doc()) && dirty
    {
      dirty := true;
    }

    /** `UpdateQosDevNum` on the entry at position `i` of a QoS list: new
      * numbers, and dirty, only when they differ. */
    method UpdateQosDevNum(t: QosType, i: nat, major: int, minor: int)
      modifies this
      requires i < |QosOf(Doc(), t)|
      ensures var l := QosOf(old(Doc()), t);
              var changed := l[i].major != major || l[i].minor != minor;
              Doc() == WithQos(old(Doc()), t, if changed then l[i := l[i].(major := major, minor := minor)] else l) &&
              dirty == (old(dirty) || changed)
    {
      var l := QosOf(Doc(), t);
      if l[i].major != major || l[i].minor != minor {
        SetQos(t, l[i := l[i].(major := major, minor := minor)]);
        dirty := true;
      }
    }

    /** `UpdateDeviceNode`: new numbers in every device and QoS entry for the
      * host path; dirty as soon as one entry is for it, changed or not. */
    method UpdateDeviceNode(path: string, major: int, minor: int)
      modifies this
      ensures Doc() == old(Doc()).(
                devices := RenumberedDevices(old(devices), path, major, minor),
                readIOPS := RenumberedQos(old(readIOPS), path, major, minor),
                writeIOPS := RenumberedQos(old(writeIOPS), path, major, minor),
                readBps := RenumberedQos(old(readBps), path, major, minor),
                writeBps := RenumberedQos(old(writeBps), path, major, minor),
                blkioWeight := RenumberedQos(old(blkioWeight), path, major, minor))
      ensures dirty == (old(dirty) || AnyDeviceOn(old(devices), path) ||
                        AnyQosOn(old(readIOPS), path) || AnyQosOn(old(writeIOPS), path) ||
                        AnyQosOn(old(readBps), path) || AnyQosOn(old(writeBps), path) ||
                        AnyQosOn(old(blkioWeight), path))
    {
      var d, hit := RenumberDeviceList(devices, path, major, minor);
      var q1, h1 := RenumberQosList(readIOPS, path, major, minor);
      var q2, h2 := RenumberQosList(writeIOPS, path, major, minor);
      var q3, h3 := RenumberQosList(readBps, path, major, minor);
      var q4, h4 := RenumberQosList(writeBps, path, major, minor);
      var q5, h5 := RenumberQosList(blkioWeight, path, major, minor);
      devices, readIOPS, writeIOPS, readBps, writeBps, blkioWeight := d, q1, q2, q3, q4, q5;
      dirty := dirty || hit || h1 || h2 || h3 || h4 || h5;
    }

    /** `UpdateNetworkInterface`: append on add, drop the first match on
      * remove; dirty when the list changed; it never fails. */
    method UpdateNetworkInterface(nic: N.InterfaceConf, isAdd: bool) returns (err: Option<string>)
      modifies this
      ensures Doc() == old(Doc()).(nics := CN.UpdatedNics(old(nics), nic, isAdd))
      ensures dirty == (old(dirty) || isAdd || CN.IsSameInterface(old(nics), nic))
      ensures err.None?
    {
      if isAdd {
        dirty := true;
        nics := nics + [nic];
        return None;
      }
      var i := CN.NicRemove(nics, nic);
      if i.Some? {
        dirty := true;
        nics := RemoveAt(nics, i.value);
      }
      return None;
    }

    /** `UpdateNetworkRoutes`. */
    method UpdateNetworkRoutes(route: N.Route, isAdd: bool) returns (err: Option<string>)
      modifies this
      ensures Doc() == old(Doc()).(routes := CN.UpdatedRoutes(old(routes), route, isAdd))
      ensures dirty == (old(dirty) || isAdd || CN.IsRouteExist(old(routes), route))
      ensures err.None?
    {
      if isAdd {
        dirty := true;
        routes := routes + [route];
        return None;
      }
      var i := CN.RouteRemove(routes, route);
      if i.Some? {
        dirty := true;
        routes := RemoveAt(routes, i.value);
      }
      return None;
    }

    method SetQos(t: QosType, l: seq<Qos>)
      modifies this
      ensures Doc() == WithQos(old(Doc()), t, l) && dirty == old(dirty)
    {
      match t
      case ReadIOPS => readIOPS := l;
      case WriteIOPS => writeIOPS := l;
      case ReadBps => readBps := l;
      case WriteBps => writeBps := l;
      case BlkioWeight => blkioWeight := l;
    }
  }

  /** What `addBind` does to the stored binds and the index. */
  ghost predicate AddBindEffect(binds: seq<string>, ix: Index, b: Bind,
                                binds': seq<string>, ix': Index, exist: bool, err: Option<string>)
  {
    var o := IndexAdd(ix, BindToString(b));
    ix' == o.index && exist == o.flag && err == o.err &&
    binds' == (if o.err.None? && BindIndexInArray(binds, b).None? then binds + [BindToString(b)] else binds)
  }

  /** What `removeBind` does to the stored binds and the index. */
  ghost predicate RemoveBindEffect(binds: seq<string>, ix: Index, b: Bind,
                                   binds': seq<string>, ix': Index, gone: bool, err: Option<string>)
  {
    var o := IndexRemove(ix, BindToString(b));
    ix' == o.index && gone == o.flag && err == o.err &&
    binds' == (match BindIndexInArray(binds, b) case Some(i) => RemoveAt(binds, i) case None => binds)
  }

  /** `RemoveBindDescription` restated over the effect of a removal. */
  lemma RemoveBindEffectDescribes(binds: seq<string>, ix: Index, b: Bind,
                                  binds': seq<string>, ix': Index, gone: bool, err: Option<string>)
    requires Describes(binds, ix)
    requires ':' !in b.hostPath && ':' !in b.containerPath
    requires RemoveBindEffect(binds, ix, b, binds', ix', gone, err)
    ensures BindIndexInArray(binds, b).Some? ==> err.None? && Describes(binds', ix')
    ensures BindIndexInArray(binds, b).None? && b.hostPath in ix.hosts ==> err.None? && binds' == binds && !Describes(binds', ix')
  {
    RemoveBindDescription(binds, ix, b);
  }

  /** Removing a stored bind keeps the index describing the list; removing
    * one that is not stored while its host path is in use leaves an index
    * that no longer describes the unchanged list. */
  lemma RemoveBindDescription(binds: seq<string>, ix: Index, b: Bind)
    requires Describes(binds, ix)
    requires ':' !in b.hostPath && ':' !in b.containerPath
    ensures var o := IndexRemove(ix, BindToString(b));
            var i := BindIndexInArray(binds, b);
            (i.Some? ==> o.err.None? && Describes(RemoveAt(binds, i.value), o.index)) &&
            (i.None? && b.hostPath in ix.hosts ==> o.err.None? && !Describes(binds, o.index))
  {
    ParseMappingOfFields(b.hostPath, b.containerPath, b.mountOption);
    var i := BindIndexInArray(binds, b);
    if i.Some? {
      DescribesRemoveAt(binds, ix, i.value, BindToString(b));
    } else if b.hostPath in ix.hosts {
      RemoveUnrecordedDesyncs(binds, ix, BindToString(b));
    }
  }

  /** While the index describes the stored binds, a bind that is already
    * stored cannot be added again: its container path is taken. */
  lemma StoredBindBlocksAdd(binds: seq<string>, ix: Index, b: Bind)
    requires Describes(binds, ix) && BindIndexInArray(binds, b).Some?
    requires ':' !in b.hostPath && ':' !in b.containerPath
    ensures IndexAdd(ix, BindToString(b)).err.Some?
  {
    var i := BindIndexInArray(binds, b).value;
    assert ContainerPaths(binds)[i] == b.containerPath;
    ParseMappingOfFields(b.hostPath, b.containerPath, b.mountOption);
  }

  /** `LoadContainerHookConfig`: a file that cannot be stat'ed gives an empty
    * store; a read or decode error is returned; otherwise the stored binds
    * are replayed into a fresh index, and the first one it rejects fails the
    * whole load. */
  method LoadContainerHookConfig(file: StoredFile) returns (cfg: ContainerHookConfig?, err: Option<string>)
    ensures err.None? <==> cfg != null
    ensures cfg != null ==> fresh(cfg) && fresh(cfg.bi) && !cfg.dirty && cfg.Valid()
    ensures file.Absent? ==> cfg != null && cfg.Doc() == EmptyDoc && cfg.bi.Snapshot() == EmptyIndex
    ensures (file.Unreadable? || file.Undecodable?) ==> err == Some(file.err)
    ensures file.Decoded? ==> (err.None? <==> Replay(file.doc.binds).Ok?)
    ensures file.Decoded? && Replay(file.doc.binds).Err? ==> err == Some(Replay(file.doc.binds).msg)
    ensures file.Decoded? && cfg != null ==> cfg.Doc() == file.doc && cfg.bi.Snapshot() == Replay(file.doc.binds).value
  {
    var bi := new BindsInfo();
    match file
    case Absent =>
      cfg := new ContainerHookConfig(EmptyDoc, bi);
      return cfg, None;
    case Unreadable(e) =>
      return null, Some(e);
    case Undecodable(e) =>
      return null, Some(e);
    case Decoded(doc) =>
      var binds := doc.binds;
      var i := 0;
      while i < |binds|
        invariant 0 <= i <= |binds|
        invariant Replay(binds[..i]) == Ok(bi.Snapshot()) && bi.Valid()
        invariant fresh(bi)
      {
        ghost var before := bi.Snapshot();
        var _, e := bi.Add(binds[i]);
        ReplayStep(binds, i, before);
        if e.Some? {
          ReplayStopsAtError(binds, i + 1);
          return null, e;
        }
        i := i + 1;
      }
      assert binds[..i] == binds;
      cfg := new ContainerHookConfig(doc, bi);
      ReplayDescribes(binds);
      return cfg, None;
  }

  /** One more bind of a replay that has not failed. */
  lemma ReplayStep(binds: seq<string>, i: nat, ix: Index)
    requires i < |binds| && Replay(binds[..i]) == Ok(ix)
    ensures var o := IndexAdd(ix, binds[i]);
            Replay(binds[..i + 1]) == if o.err.Some? then Err(o.err.value) else Ok(o.index)
  {
    assert binds[..i + 1][..i] == binds[..i];
  }

  /** A replay that fails on a prefix fails on the whole list, with the same
    * error. */
  lemma {:induction false} ReplayStopsAtError(binds: seq<string>, n: nat)
    requires n <= |binds| && Replay(binds[..n]).Err?
    ensures Replay(binds) == Replay(binds[..n])
    decreases |binds| - n
  {
    if n < |binds| {
      assert binds[..n + 1][..n] == binds[..n];
      ReplayStopsAtError(binds, n + 1);
    } else {
      assert binds[..n] == binds;
    }
  }
}

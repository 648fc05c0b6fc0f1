// The hook binary's entry point (hooks/syscontainer-hooks/main.go) and its
// poststart phase (hooks/syscontainer-hooks/poststart.go): reading the hook
// state, the container's runtime configuration and its hook store, running
// the phase the command line names, and writing the store back under the
// container's lock.
module HookMain {
  import opened Wrappers
  import opened Paths
  import opened OciSpec
  import opened BindIndex
  import opened HookConfig
  import opened Hooks
  import UtilsHooks
  import Prestart
  import Poststop

  // ---------------------------------------------------------------------
  // The runtime configuration

  /** The older layout of the runtime configuration: the process settings
    * are kept apart, with one capability list standing for all five sets. */
  datatype CompatSpec = CompatSpec(spec: Spec, env: seq<string>, caps: seq<string>)

  /** What opening `config.json` finds: no file, a file that cannot be
    * opened, or contents that decode (or not) in each of the two layouts. */
  datatype ConfigJson = Missing | Unopenable(err: string) | Contents(asSpec: Result<Spec>, asCompat: Result<CompatSpec>)

  /** `bundleConfigFile` and `defaultHookConfigFile`. */
  const BundleConfigFile: string := "config.json"
  const DefaultHookConfigFile: string := "device_hook.json"

  function NotFound(path: string): string
  {
    "config file " + path + " not found"
  }

  /** `LoadSpec` (utils/hooks.go). */
  function LoadSpec(path: string, f: ConfigJson): Result<Spec>
  {
    match f
    case Missing => Err(NotFound(path))
    case Unopenable(e) => Err(e)
    case Contents(s, _) => s
  }

  /** `LoadCompatSpec` (utils/hooks.go). */
  function LoadCompatSpec(path: string, f: ConfigJson): Result<CompatSpec>
  {
    match f
    case Missing => Err(NotFound(path))
    case Unopenable(e) => Err(e)
    case Contents(_, c) => c
  }

  /** The older layout as a runtime configuration: its process settings,
    * with the one capability list copied into every set. */
  function FromCompat(c: CompatSpec): Spec
  {
    c.spec.(env := c.env, capabilities := Capabilities(c.caps, c.caps, c.caps, c.caps, c.caps))
  }

  /** The configuration is read in the current layout, and only when that
    * fails in the older one, whose error is then the one reported. */
  function ConfigSpec(path: string, f: ConfigJson): Result<Spec>
  {
    match LoadSpec(path, f)
    case Ok(s) => Ok(s)
    case Err(_) =>
      match LoadCompatSpec(path, f)
      case Err(e) => Err(e)
      case Ok(c) => Ok(FromCompat(c))
  }

  // ---------------------------------------------------------------------
  // prepareHookData

  /** Everything the entry point asks of the outside world, with the
    * answers. */
  datatype MainEnv = MainEnv(
    raw: string,                       // the hook state on standard input
    parsed: Result<HookState>,         // ... decoded as a hook state
    compatBundle: Result<string>,      // ... the bundle path of its older layout
    config: string -> ConfigJson,      // the runtime configuration file at a path
    stored: string -> StoredFile,      // the hook store at a path (Absent: it cannot be stat'ed)
    hooks: HookEnv,                    // what the phases meet; its state is the parsed one
    lock: string -> Option<string>,    // locking a container's directory
    writeErr: Option<string>)          // writing the store back

  /** What `prepareHookData` gathers; the store as its document. */
  datatype Prepared = Prepared(state: HookState, spec: Spec, storagePath: string, doc: HookDoc)

  /** `hookData`: as `Prepared`, with the store as an object. */
  datatype HookData = HookData(state: HookState, spec: Spec, storagePath: string, cfg: ContainerHookConfig)

  function Snapshot(d: HookData): Prepared
    reads d.cfg
  {
    Prepared(d.state, d.spec, d.storagePath, d.cfg.Doc())
  }

  function ConfigPath(st: HookState): string
  {
    JoinPath([st.bundle, BundleConfigFile])
  }

  function StorePath(storage: string, id: string): string
  {
    JoinPath([storage, id, DefaultHookConfigFile])
  }

  /** `prepareHookData`: the first failure among parsing the state, reading
    * the configuration, finding the storage path and loading the store is
    * returned; a store that cannot be stat'ed is an empty one. */
  function PrepareSpec(env: MainEnv): Result<Prepared>
  {
    match UtilsHooks.ParseHookState(env.raw, env.parsed, env.compatBundle)
    case Err(e) => Err(e)
    case Ok(st) =>
      match ConfigSpec(ConfigPath(st), env.config(ConfigPath(st)))
      case Err(e) => Err(e)
      case Ok(spec) =>
        match env.hooks.storagePath
        case Err(e) => Err(e)
        case Ok(sp) =>
          match env.stored(StorePath(sp, st.id))
          case Absent => Ok(Prepared(st, spec, sp, EmptyDoc))
          case Unreadable(e) => Err(e)
          case Undecodable(e) => Err(e)
          case Decoded(doc) =>
            match Replay(doc.binds)
            case Err(e) => Err(e)
            case Ok(_) => Ok(Prepared(st, spec, sp, doc))
  }

  /** Whether a stored file loads into a store. */
  predicate Loads(f: StoredFile)
  {
    f.Absent? || (f.Decoded? && Replay(f.doc.binds).Ok?)
  }

  /** Preparation succeeds exactly when each of its four steps does; the
    * store it yields is the decoded file, or an empty one when there is no
    * file. */
  lemma PrepareOutcome(env: MainEnv)
    ensures var r := PrepareSpec(env);
            var st := UtilsHooks.ParseHookState(env.raw, env.parsed, env.compatBundle);
            (r.Ok? <==> st.Ok? && ConfigSpec(ConfigPath(st.value), env.config(ConfigPath(st.value))).Ok? &&
                        env.hooks.storagePath.Ok? &&
                        Loads(env.stored(StorePath(env.hooks.storagePath.value, st.value.id)))) &&
            (r.Ok? ==> r.value.state == st.value && r.value.storagePath == env.hooks.storagePath.value &&
                       r.value.spec == ConfigSpec(ConfigPath(st.value), env.config(ConfigPath(st.value))).value &&
                       var f := env.stored(StorePath(r.value.storagePath, r.value.state.id));
                       r.value.doc == if f.Absent? then EmptyDoc else f.doc)
  {
  }

  /** A configuration in the current layout is used as it is; one in the
    * older layout only gives its process settings, and its capability
    * list becomes all five capability sets. */
  lemma ConfigLayouts(path: string, f: ConfigJson)
    requires ConfigSpec(path, f).Ok?
    ensures var spec := ConfigSpec(path, f).value;
            f.Contents? &&
            (f.asSpec.Ok? ==> spec == f.asSpec.value) &&
            (f.asSpec.Err? ==>
               f.asCompat.Ok? &&
               var c := f.asCompat.value;
               spec.capabilities.bounding == c.caps && spec.capabilities.effective == c.caps &&
               spec.capabilities.inheritable == c.caps && spec.capabilities.permitted == c.caps &&
               spec.capabilities.ambient == c.caps && spec.env == c.env &&
               spec.namespaces == c.spec.namespaces && spec.uidMappings == c.spec.uidMappings &&
               spec.gidMappings == c.spec.gidMappings && spec.mounts == c.spec.mounts &&
               spec.devices == c.spec.devices)
  {
  }

  /** A missing configuration file is reported by name (the error of the
    * second attempt, in the older layout). */
  lemma MissingConfigReported(env: MainEnv)
    requires UtilsHooks.ParseHookState(env.raw, env.parsed, env.compatBundle).Ok?
    requires var st := UtilsHooks.ParseHookState(env.raw, env.parsed, env.compatBundle).value;
             env.config(ConfigPath(st)).Missing?
    ensures var st := UtilsHooks.ParseHookState(env.raw, env.parsed, env.compatBundle).value;
            PrepareSpec(env) == Err(NotFound(JoinPath([st.bundle, "config.json"])))
  {
  }

  /** `prepareHookData` as the source runs it: the store is loaded from its
    * file, or made empty when the file cannot be stat'ed. */
  method PrepareHookData(env: MainEnv) returns (data: Option<HookData>, err: Option<string>)
    ensures err.None? <==> data.Some?
    ensures data.Some? <==> PrepareSpec(env).Ok?
    ensures PrepareSpec(env).Err? ==> err == Some(PrepareSpec(env).msg)
    ensures data.Some? ==> PrepareSpec(env) == Ok(Snapshot(data.value))
    ensures data.Some? ==> fresh(data.value.cfg) && !data.value.cfg.dirty
  {
    var st := UtilsHooks.ParseHookState(env.raw, env.parsed, env.compatBundle);
    if st.Err? {
      return None, Some(st.msg);
    }
    var path := ConfigPath(st.value);
    var spec := ConfigSpec(path, env.config(path));
    if spec.Err? {
      return None, Some(spec.msg);
    }
    if env.hooks.storagePath.Err? {
      return None, Some(env.hooks.storagePath.msg);
    }
    var sp := env.hooks.storagePath.value;
    var file := env.stored(StorePath(sp, st.value.id));
    var cfg, e := LoadContainerHookConfig(file);
    if e.Some? {
      return None, e;
    }
    return Some(HookData(st.value, spec.value, sp, cfg)), None;
  }

  // ---------------------------------------------------------------------
  // updateHookData

  /** What writing the store back gives: the document written, if any, and
    * the error returned. */
  datatype Updated = Updated(written: Option<HookDoc>, err: Option<string>)

  /** `updateHookData`: the container's directory is locked (its error is
    * returned); the store is then flushed, and a flush error is only
    * logged.  The storage path is looked up again when none was kept. */
  function UpdateSpec(env: MainEnv, storagePath: string, id: string, doc: HookDoc, dirty: bool): Updated
  {
    var sp := if storagePath != "" then Ok(storagePath) else env.hooks.storagePath;
    if sp.Err? then Updated(None, Some(sp.msg))
    else if env.lock(JoinPath([sp.value, id])).Some? then Updated(None, env.lock(JoinPath([sp.value, id])))
    else Updated(if dirty && env.writeErr.None? then Some(doc) else None, None)
  }

  /** The store is written only when it is dirty, the lock is taken and the
    * write goes through, and then it is written as it stands; a write
    * error never reaches the caller. */
  lemma UpdateWrites(env: MainEnv, storagePath: string, id: string, doc: HookDoc, dirty: bool)
    requires storagePath != ""
    ensures var u := UpdateSpec(env, storagePath, id, doc, dirty);
            (u.written.Some? <==> dirty && env.lock(JoinPath([storagePath, id])).None? && env.writeErr.None?) &&
            (u.written.Some? ==> u.written.value == doc) &&
            u.err == env.lock(JoinPath([storagePath, id]))
  {
  }

  /** `updateHookData` as the source runs it. */
  method UpdateHookData(env: MainEnv, data: HookData) returns (written: Option<HookDoc>, err: Option<string>)
    ensures Updated(written, err) == UpdateSpec(env, data.storagePath, data.state.id, data.cfg.Doc(), data.cfg.dirty)
  {
    var sp := data.storagePath;
    if sp == "" {
      if env.hooks.storagePath.Err? {
        return None, Some(env.hooks.storagePath.msg);
      }
      sp := env.hooks.storagePath.value;
    }
    var lockErr := env.lock(JoinPath([sp, data.state.id]));
    if lockErr.Some? {
      return None, lockErr;
    }
    var flushErr;
    written, flushErr := data.cfg.Flush(env.writeErr);
    return written, None;
  }

  // ---------------------------------------------------------------------
  // poststartHook

  /** `poststartHook`'s list of actions is empty. */
  function PoststartActions(withRelabel: bool): seq<Prestart.Action>
  {
    []
  }

  function PoststartSpec(env: HookEnv, spec: Spec, withRelabel: bool, s: Prestart.Run): Prestart.Run
    requires Prestart.UdevPre(env)
  {
    Prestart.RunActions(env, spec, PoststartActions(withRelabel), s)
  }

  /** `poststartHook` as the source runs it.  Its list of actions is
    * empty, so the loop over it never runs an action and the phase ends
    * without error, leaving the store as it was. */
  method PoststartHook(env: HookEnv, spec: Spec, cfg: ContainerHookConfig, withRelabel: bool, steps0: seq<Step>)
    returns (steps: seq<Step>, err: Option<string>)
    requires Prestart.UdevPre(env)
    ensures Prestart.State(cfg, steps, err) == PoststartSpec(env, spec, withRelabel, Prestart.State(cfg, steps0, None))
  {
    steps, err := steps0, None;
  }

  // ---------------------------------------------------------------------
  // main

  /** The phase named by the `-state` flag. */
  datatype Mode = PrestartMode | PoststartMode | PoststopMode | OtherMode

  function ModeOf(flag: string): Mode
  {
    if flag == "prestart" then PrestartMode
    else if flag == "poststart" then PoststartMode
    else if flag == "poststop" then PoststopMode
    else OtherMode
  }

  /** How a run of the binary ends: its exit status, the calls the phase
    * made, and the store document written back, if any. */
  datatype Exit = Exit(code: nat, steps: seq<Step>, written: Option<HookDoc>)

  /** What the phases meet, with the parsed hook state. */
  function PhaseEnv(env: MainEnv, st: HookState): HookEnv
  {
    env.hooks.(state := st)
  }

  /** The udev rules compare container ids by their first 8 characters:
    * the container of a prepared run has an id at least that long, and so
    * do the rules on file. */
  predicate PhasePre(env: MainEnv, r: Result<Prepared>)
  {
    r.Ok? ==> Prestart.UdevPre(PhaseEnv(env, r.value.state))
  }

  predicate MainPre(env: MainEnv)
  {
    PhasePre(env, PrepareSpec(env))
  }

  /** The prestart phase, or the poststart one, on the prepared store. */
  function PhaseRun(env: MainEnv, p: Prepared, prestart: bool, withRelabel: bool): Prestart.Run
    requires Prestart.UdevPre(PhaseEnv(env, p.state))
  {
    var s0 := Prestart.Run(p.doc, false, [], None);
    if prestart then Prestart.PrestartSpec(PhaseEnv(env, p.state), p.spec, withRelabel, s0)
    else PoststartSpec(PhaseEnv(env, p.state), p.spec, withRelabel, s0)
  }

  /** After the prestart or poststart phase: a failure exits with status 1
    * (`fatal`) and nothing is written; otherwise the store is written back,
    * and a lock failure exits with status 1. */
  function Finish(env: MainEnv, p: Prepared, r: Prestart.Run): Exit
  {
    if r.err.Some? then Exit(1, r.steps, None)
    else
      var u := UpdateSpec(env, p.storagePath, p.state.id, r.doc, r.dirty);
      Exit(if u.err.Some? then 1 else 0, r.steps, u.written)
  }

  /** `main` once `prepareHookData` has answered: a failed preparation ends
    * the run quietly; prestart and poststart need a live process; poststop
    * runs to the end and writes nothing back; any other mode does nothing. */
  function RunPrepared(env: MainEnv, r: Result<Prepared>, flag: string, withRelabel: bool): Exit
    requires PhasePre(env, r)
  {
    match r
    case Err(_) => Exit(0, [], None)
    case Ok(p) =>
      match ModeOf(flag)
      case PrestartMode => if p.state.pid <= 0 then Exit(0, [], None) else Finish(env, p, PhaseRun(env, p, true, withRelabel))
      case PoststartMode => if p.state.pid <= 0 then Exit(0, [], None) else Finish(env, p, PhaseRun(env, p, false, withRelabel))
      case PoststopMode => Exit(0, Poststop.PoststopSpec(PhaseEnv(env, p.state), p.spec, p.doc, withRelabel, []).steps, None)
      case OtherMode => Exit(0, [], None)
  }

  /** `main`, after the command line is read. */
  function RunHookSpec(env: MainEnv, flag: string, withRelabel: bool): Exit
    requires MainPre(env)
  {
    RunPrepared(env, PrepareSpec(env), flag, withRelabel)
  }

  /** The poststart phase changes nothing and cannot fail. */
  lemma PoststartRunsNothing(env: MainEnv, p: Prepared, withRelabel: bool)
    requires Prestart.UdevPre(PhaseEnv(env, p.state))
    ensures PhaseRun(env, p, false, withRelabel) == Prestart.Run(p.doc, false, [], None)
  {
  }

  /** After a phase, the run exits with status 1 exactly when the phase
    * failed or writing the store back returned an error. */
  lemma FinishStatus(env: MainEnv, p: Prepared, ph: Prestart.Run)
    ensures var x := Finish(env, p, ph);
            x.code <= 1 &&
            (x.code == 1 <==> ph.err.Some? || UpdateSpec(env, p.storagePath, p.state.id, ph.doc, ph.dirty).err.Some?)
  {
  }

  /** The run exits with status 1 exactly when a prestart or poststart
    * phase with a live process fails, or writing its store back returns an
    * error (the container cannot be locked). */
  lemma ExitStatus(env: MainEnv, r: Result<Prepared>, flag: string, withRelabel: bool)
    requires PhasePre(env, r)
    ensures var x := RunPrepared(env, r, flag, withRelabel);
            x.code <= 1 &&
            (x.code == 1 <==>
               r.Ok? && (ModeOf(flag) == PrestartMode || ModeOf(flag) == PoststartMode) &&
               var p := r.value;
               var ph := PhaseRun(env, p, ModeOf(flag) == PrestartMode, withRelabel);
               p.state.pid > 0 && (ph.err.Some? || UpdateSpec(env, p.storagePath, p.state.id, ph.doc, ph.dirty).err.Some?))
  {
    if r.Ok? && r.value.state.pid > 0 && (ModeOf(flag) == PrestartMode || ModeOf(flag) == PoststartMode) {
      var p := r.value;
      FinishStatus(env, p, PhaseRun(env, p, ModeOf(flag) == PrestartMode, withRelabel));
    }
  }

  /** Only a prestart phase with a live process that ends well ever writes
    * the store back, and what it writes is the store as that phase left
    * it: the loaded store's binds, interfaces and routes, and as many
    * devices. */
  lemma WrittenStore(env: MainEnv, r: Result<Prepared>, flag: string, withRelabel: bool)
    requires PhasePre(env, r)
    ensures var x := RunPrepared(env, r, flag, withRelabel);
            x.written.Some? ==>
              r.Ok? && ModeOf(flag) == PrestartMode &&
              var p := r.value;
              var ph := PhaseRun(env, p, true, withRelabel);
              p.state.pid > 0 && ph.err.None? && ph.dirty && env.writeErr.None? &&
              x.written.value == ph.doc &&
              x.written.value.binds == p.doc.binds && x.written.value.nics == p.doc.nics &&
              x.written.value.routes == p.doc.routes && |x.written.value.devices| == |p.doc.devices|
  {
    if r.Ok? && r.value.state.pid > 0 {
      var p := r.value;
      var m := ModeOf(flag);
      if m == PrestartMode {
        var ph := PhaseRun(env, p, true, withRelabel);
        Prestart.PrestartKeeps(PhaseEnv(env, p.state), p.spec, Prestart.PrestartActions(withRelabel),
                               Prestart.Run(p.doc, false, [], None));
        FinishWritten(env, p, ph);
      } else if m == PoststartMode {
        PoststartRunsNothing(env, p, withRelabel);
        FinishWritten(env, p, PhaseRun(env, p, false, withRelabel));
      }
    }
  }

  /** What is written after a phase is the store as the phase left it,
    * and only when the phase ended well with the store dirty. */
  lemma FinishWritten(env: MainEnv, p: Prepared, ph: Prestart.Run)
    ensures var x := Finish(env, p, ph);
            x.written.Some? ==> ph.err.None? && ph.dirty && env.writeErr.None? && x.written.value == ph.doc
  {
  }

  /** Poststop runs whatever the hook state's pid, always exits with status
    * 0 and never writes the store back. */
  lemma PoststopWritesNothing(env: MainEnv, r: Result<Prepared>, flag: string, withRelabel: bool)
    requires PhasePre(env, r) && ModeOf(flag) == PoststopMode
    ensures var x := RunPrepared(env, r, flag, withRelabel);
            x.code == 0 && x.written.None? &&
            (r.Ok? ==> x.steps == Poststop.PoststopSpec(PhaseEnv(env, r.value.state), r.value.spec, r.value.doc, withRelabel, []).steps)
  {
  }

  /** A failed preparation, a prestart or poststart without a live process,
    * and a mode the binary does not know all end the run with nothing done. */
  lemma NothingDone(env: MainEnv, r: Result<Prepared>, flag: string, withRelabel: bool)
    requires PhasePre(env, r)
    requires r.Err? || ModeOf(flag) == OtherMode || (ModeOf(flag) != PoststopMode && r.value.state.pid <= 0)
    ensures RunPrepared(env, r, flag, withRelabel) == Exit(0, [], None)
  {
  }

  /** The prestart or poststart phase with a live process, then writing
    * the store back, as `main` runs them. */
  method RunPhase(env: MainEnv, d: HookData, prestart: bool, withRelabel: bool)
    returns (code: nat, steps: seq<Step>, written: Option<HookDoc>)
    modifies d.cfg
    requires Prestart.UdevPre(PhaseEnv(env, d.state)) && !d.cfg.dirty
    ensures Exit(code, steps, written) == Finish(env, old(Snapshot(d)), PhaseRun(env, old(Snapshot(d)), prestart, withRelabel))
  {
    var h := PhaseEnv(env, d.state);
    var e;
    if prestart {
      steps, e := Prestart.PrestartHook(h, d.spec, d.cfg, withRelabel, []);
    } else {
      steps, e := PoststartHook(h, d.spec, d.cfg, withRelabel, []);
    }
    if e.Some? {
      return 1, steps, None;
    }
    var ue;
    written, ue := UpdateHookData(env, d);
    code := if ue.Some? then 1 else 0;
  }

  /** `main`'s switch on the mode, on the prepared data. */
  method RunData(env: MainEnv, d: HookData, flag: string, withRelabel: bool)
    returns (code: nat, steps: seq<Step>, written: Option<HookDoc>)
    modifies d.cfg
    requires Prestart.UdevPre(PhaseEnv(env, d.state)) && !d.cfg.dirty
    ensures Exit(code, steps, written) == RunPrepared(env, Ok(old(Snapshot(d))), flag, withRelabel)
  {
    var mode := ModeOf(flag);
    if mode == OtherMode {
      return 0, [], None;
    }
    if mode == PoststopMode {
      var logged;
      steps, logged := Poststop.PostStopHook(PhaseEnv(env, d.state), d.spec, d.cfg, withRelabel, []);
      return 0, steps, None;
    }
    if d.state.pid <= 0 {
      return 0, [], None;
    }
    code, steps, written := RunPhase(env, d, mode == PrestartMode, withRelabel);
  }

  /** The binary as the source runs it, after the command line is read. */
  method RunHook(env: MainEnv, flag: string, withRelabel: bool) returns (code: nat, steps: seq<Step>, written: Option<HookDoc>)
    requires MainPre(env)
    ensures Exit(code, steps, written) == RunHookSpec(env, flag, withRelabel)
  {
    var data, err := PrepareHookData(env);
    if err.Some? {
      return 0, [], None;
    }
    ghost var p := Snapshot(data.value);
    assert PrepareSpec(env) == Ok(p);
    code, steps, written := RunData(env, data.value, flag, withRelabel);
    assert Exit(code, steps, written) == RunPrepared(env, Ok(p), flag, withRelabel);
  }
}

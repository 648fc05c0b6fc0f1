// Helpers the hooks share (utils/hooks.go): user-namespace ID translation,
// the owner of files created for a container, the hook-state fallback and
// where the container engine keeps its containers.
module UtilsHooks {
  import opened Wrappers
  import opened Strs
  import opened Paths
  import opened Seqs
  import opened OciSpec

  const Uint32: nat := 0x1_0000_0000

  /** The range test of `hostIDFromMapping` as written: the upper bound
    * `ContainerID + Size - 1` is computed in uint32 and wraps. */
  predicate InRangeAsWritten(id: nat, m: IdMapping)
  {
    m.containerID <= id && id <= (m.containerID + m.size - 1) % Uint32
  }

  /** The range a mapping describes: `Size` IDs from `ContainerID` on. */
  predicate InRange(id: nat, m: IdMapping)
  {
    m.containerID <= id < m.containerID + m.size
  }

  /** The host ID of the first mapping accepted by `inRange`, computed in
    * uint32, or -1 when none is. */
  function TranslateID(id: nat, maps: seq<IdMapping>, inRange: IdMapping -> bool): (r: int)
    ensures r == -1 <==> forall i :: 0 <= i < |maps| ==> !inRange(maps[i])
    ensures r != -1 ==> 0 <= r < Uint32
    ensures r != -1 ==> exists i :: 0 <= i < |maps| && inRange(maps[i]) &&
                                    (forall j :: 0 <= j < i ==> !inRange(maps[j])) &&
                                    r == HostIDOf(id, maps[i])
  {
    match FirstIndex(maps, inRange)
    case None => -1
    case Some(i) => HostIDOf(id, maps[i])
  }

  /** The host ID a mapping gives `id`, computed in uint32. */
  function HostIDOf(id: nat, m: IdMapping): (r: nat)
    ensures r < Uint32
  {
    (m.hostID + (id - m.containerID)) % Uint32
  }

  /** `hostIDFromMapping` exactly as written. */
  function HostIDFromMappingAsWritten(id: nat, maps: seq<IdMapping>): (r: int)
    ensures r == -1 <==> forall i :: 0 <= i < |maps| ==> !InRangeAsWritten(id, maps[i])
  {
    TranslateID(id, maps, m => InRangeAsWritten(id, m))
  }

  /** `hostIDFromMapping` with the range test the mapping means. */
  function HostIDFromMapping(id: nat, maps: seq<IdMapping>): (r: int)
    ensures r == -1 <==> forall i :: 0 <= i < |maps| ==> !InRange(id, maps[i])
    ensures r != -1 ==> 0 <= r < Uint32
  {
    TranslateID(id, maps, m => InRange(id, m))
  }

  /** With ContainerID 0 and Size 0 the written bound wraps to 2^32 - 1,
    * so an empty mapping claims every ID. */
  lemma EmptyMappingMatchesAll()
    ensures HostIDFromMappingAsWritten(5, [IdMapping(0, 1000, 0)]) == 1005
    ensures HostIDFromMapping(5, [IdMapping(0, 1000, 0)]) == -1
  {
    assert InRangeAsWritten(5, IdMapping(0, 1000, 0));
    assert !InRange(5, IdMapping(0, 1000, 0));
  }

  /** The two tests agree on every mapping that is non-empty and whose range
    * stays within uint32. */
  lemma AsWrittenAgrees(id: nat, maps: seq<IdMapping>)
    requires id < Uint32
    requires forall i :: 0 <= i < |maps| ==> maps[i].size >= 1 && maps[i].containerID + maps[i].size <= Uint32
    ensures HostIDFromMappingAsWritten(id, maps) == HostIDFromMapping(id, maps)
  {
    assert forall i :: 0 <= i < |maps| ==> (InRangeAsWritten(id, maps[i]) <==> InRange(id, maps[i]));
    SameTest(id, maps, m => InRangeAsWritten(id, m), m => InRange(id, m));
  }

  lemma SameTest(id: nat, maps: seq<IdMapping>, p: IdMapping -> bool, q: IdMapping -> bool)
    requires forall i :: 0 <= i < |maps| ==> p(maps[i]) == q(maps[i])
    ensures TranslateID(id, maps, p) == TranslateID(id, maps, q)
  {
    FirstIndexAgree(maps, p, q);
  }

  /** A translated ID lies in the host range of the mapping that took it,
    * when that range does not wrap. */
  lemma MappedIntoHostRange(id: nat, maps: seq<IdMapping>)
    requires forall i :: 0 <= i < |maps| ==> maps[i].hostID + maps[i].size <= Uint32
    requires HostIDFromMapping(id, maps) != -1
    ensures exists i :: 0 <= i < |maps| && InRange(id, maps[i]) &&
                        maps[i].hostID <= HostIDFromMapping(id, maps) < maps[i].hostID + maps[i].size
  {
    var r := HostIDFromMapping(id, maps);
    var i :| 0 <= i < |maps| && InRange(id, maps[i]) &&
             r == HostIDOf(id, maps[i]);
    HostIDOfInRange(id, maps[i]);
  }

  /** A mapping that stays below 2^32 sends an ID of its range into its host range. */
  lemma HostIDOfInRange(id: nat, m: IdMapping)
    requires InRange(id, m) && m.hostID + m.size <= Uint32
    ensures m.hostID <= HostIDOf(id, m) < m.hostID + m.size
  {
    SmallMod(m.hostID + (id - m.containerID), Uint32);
  }

  lemma SmallMod(v: int, n: int)
    requires 0 <= v < n
    ensures v % n == v
  {
  }

  /** The container uses a user namespace. */
  predicate HasUserNamespace(spec: Spec)
  {
    "user" in spec.namespaces
  }

  /** `GetUIDGid`: the host IDs of container root, or -1 each without a user
    * namespace. */
  function GetUIDGid(spec: Spec): (r: (int, int))
    ensures !HasUserNamespace(spec) ==> r == (-1, -1)
    ensures r.0 == -1 <==> !HasUserNamespace(spec) || forall i :: 0 <= i < |spec.uidMappings| ==> !InRange(0, spec.uidMappings[i])
    ensures r.1 == -1 <==> !HasUserNamespace(spec) || forall i :: 0 <= i < |spec.gidMappings| ==> !InRange(0, spec.gidMappings[i])
    ensures -1 <= r.0 < Uint32 && -1 <= r.1 < Uint32
  {
    if HasUserNamespace(spec) then (HostIDFromMapping(0, spec.uidMappings), HostIDFromMapping(0, spec.gidMappings))
    else (-1, -1)
  }

  /** The IDs files are created with: -1 ("no mapping") becomes root. */
  function OwnerIDs(spec: Spec): (r: (int, int))
    ensures 0 <= r.0 < Uint32 && 0 <= r.1 < Uint32
    ensures !HasUserNamespace(spec) ==> r == (0, 0)
  {
    var (uid, gid) := GetUIDGid(spec);
    (if uid == -1 then 0 else uid, if gid == -1 then 0 else gid)
  }

  /** `ParseHookState` over its two decodings: the current record and, when
    * its bundle is empty, the bundle of the legacy "bundlePath" record. */
  function ParseHookState(raw: string, state: Result<HookState>, compatBundle: Result<string>): (r: Result<HookState>)
    ensures state.Err? ==> r == state
    ensures r.Ok? ==> r.value.bundle != "" && state.Ok? && r.value == state.value.(bundle := r.value.bundle)
    ensures state.Ok? && state.value.bundle != "" ==> r == state
    ensures state.Ok? && state.value.bundle == "" && compatBundle.Ok? ==>
              if compatBundle.value == "" then r == Err("unmarshal hook state failed " + raw)
              else r == Ok(state.value.(bundle := compatBundle.value))
  {
    match state
    case Err(e) => Err(e)
    case Ok(s) =>
      if s.bundle != "" then Ok(s)
      else
        match compatBundle
        case Err(e) => Err(e)
        case Ok(b) =>
          if b == "" then Err("unmarshal hook state failed " + raw)
          else Ok(s.(bundle := b))
  }

  /** `getGraphDriverPath`: two levels above the hook binary. */
  function GetGraphDriverPath(executable: Result<string>): Result<string>
  {
    match executable
    case Err(e) => Err(e)
    case Ok(p) => Ok(Dir(Dir(p)))
  }

  /** Installed as ".../<root>/hooks/<binary>", the hook finds the engine
    * root. */
  lemma GraphDriverOfHookPath(root: seq<string>, hooks: string, binary: string)
    requires |root| >= 1 && PlainName(hooks) && PlainName(binary)
    requires forall i :: 0 <= i < |root| ==> PlainName(root[i])
    ensures GetGraphDriverPath(Ok("/" + Join(root + [hooks, binary], '/'))) == Ok("/" + Join(root, '/'))
  {
    var mid := root + [hooks];
    assert root + [hooks, binary] == mid + [binary];
    PlainSnoc(root, hooks);
    DirOfPlain(mid, binary);
    DirOfPlain(root, hooks);
    TwoLevelsUp("/" + Join(mid + [binary], '/'), "/" + Join(mid, '/'), "/" + Join(root, '/'));
  }

  lemma PlainSnoc(root: seq<string>, last: string)
    requires PlainName(last)
    requires forall i :: 0 <= i < |root| ==> PlainName(root[i])
    ensures forall i :: 0 <= i < |root + [last]| ==> PlainName((root + [last])[i])
  {
  }

  lemma TwoLevelsUp(p: string, q: string, r: string)
    requires Dir(p) == q && Dir(q) == r
    ensures GetGraphDriverPath(Ok(p)) == Ok(r)
  {
  }

  /** `GetContainerStoragePath`: "<engine root>/engines/lcr", which must
    * be a directory (`isDir` reports what stat finds). */
  function GetContainerStoragePath(executable: Result<string>, isDir: string -> Result<bool>): (r: Result<string>)
    ensures r.Ok? ==> GetGraphDriverPath(executable).Ok? && isDir(r.value) == Ok(true) &&
                      r.value == JoinPath([GetGraphDriverPath(executable).value, "engines", "lcr"])
    ensures GetGraphDriverPath(executable).Ok? ==>
              var base := JoinPath([GetGraphDriverPath(executable).value, "engines", "lcr"]);
              isDir(base) == Ok(false) ==> r == Err("Container Path:" + base + " is not a directory")
  {
    match GetGraphDriverPath(executable)
    case Err(e) => Err(e)
    case Ok(g) =>
      var base := JoinPath([g, "engines", "lcr"]);
      match isDir(base)
      case Err(e) => Err(e)
      case Ok(d) => if !d then Err("Container Path:" + base + " is not a directory") else Ok(base)
  }
}

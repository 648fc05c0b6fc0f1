// The parts of the OCI runtime configuration and hook state that the hooks
// read: namespaces, user-namespace ID mappings, sysctls, environment,
// mounts, devices, the cgroups path and the process capabilities.
module OciSpec {
  /** One user-namespace ID range (config-linux.md of the OCI Runtime
    * Specification, "User namespace mappings"); every field is a uint32. */
  datatype IdMapping = IdMapping(containerID: nat, hostID: nat, size: nat)

  datatype Mount = Mount(destination: string, typ: string, source: string, options: seq<string>)

  datatype LinuxDevice = LinuxDevice(typ: string, path: string, major: int, minor: int)

  datatype Capabilities = Capabilities(
    bounding: seq<string>,
    effective: seq<string>,
    inheritable: seq<string>,
    permitted: seq<string>,
    ambient: seq<string>)

  /** The runtime configuration.  Go iterates the sysctl map in an
    * unspecified order; here the pairs are listed in the order visited. */
  datatype Spec = Spec(
    namespaces: seq<string>,
    uidMappings: seq<IdMapping>,
    gidMappings: seq<IdMapping>,
    sysctl: seq<(string, string)>,
    env: seq<string>,
    mounts: seq<Mount>,
    devices: seq<LinuxDevice>,
    cgroupsPath: string,
    capabilities: Capabilities)

  /** The state record a hook receives on its standard input. */
  datatype HookState = HookState(id: string, pid: int, root: string, bundle: string)
}

# syscontainer-tools core, modelled in Dafny

syscontainer-tools (isulad-tools) changes a running system container from the host. It adds
and removes devices, bind-mounted paths, network interfaces and routes, and device QoS
limits. Every change is recorded in a per-container hook configuration. The OCI hooks
replay that configuration when the container restarts: prestart re-adds everything,
poststop undoes it. This project models that core:

- the hook configuration store and its bind index (`config/`);
- the device, bind, QoS, network and route records and their text forms (`types/`);
- parsing of device and bind arguments and of QoS options, and the device-number bit packing (`libdevice/`);
- the add/remove/update orchestration, with rollback and error aggregation (`libdevice/libdevice.go`, `libnetwork/`);
- the namespace driver's namespace and work-code choice, and the handlers of the worker that joins the container (`libdevice/nsexec`, `libdevice/container_work.go`);
- the udev rule list and its file format (`pkg/udevd`);
- the transfer-path scheme that shares host paths into the container (`utils/transfer.go`);
- the container-info and mount helpers, and SELinux config editing;
- the prestart, poststart and poststop hooks and the hook entry point (`hooks/`).

How it is modelled:

- Each Go file becomes one module.
- Objects that the Go code updates in place are classes whose methods carry `modifies` clauses:
  - `HookConfig.ContainerHookConfig`, the store;
  - `BindIndex.BindsInfo`, the bind index;
  - `UdevController.Controller`;
  - `ContainerWork.Rootfs`;
  - `NicDriver.Driver`;
  - `SELinux.Context`.
- Loops are `while` loops. Each is proved equal to a specification function, usually a fold over the input list, and the lemmas about that function state what the source promises.
- Everything the code asks of the host becomes a function parameter whose answers are arbitrary, so every proof holds for every answer. That covers lsblk, stat, the cgroup files, the namespace driver, netlink, modprobe, the file system and the SHA-256 digest.
- Errors are `Option<string>` or `Result<T>` values that carry the source's messages.

## Model

| member | source | states |
|---|---|---|
| DevNumber.Major | libdevice/number.go:30-32 | the major number is bits 8..19 of the device number, so it is below 4096 |
| DevNumber.Minor | libdevice/number.go:35-37 | the minor number is the low byte joined with bits 20..31 moved down by 12, so it is below 2^20 |
| DevNumber.MkdevRoundTrip | types/device.go:174-176 | unpacking the number `Mkdev` packs gives back the major (< 4096) and minor (< 2^20) numbers |
| DevNumber.PackUnpack | libdevice/number.go:30-37 | `Major` and `Minor` invert the packing that puts the major in bits 8-19, the minor's low byte in bits 0-7 and the rest of the minor from bit 20 up |
| DevNumber.MajorBits | libdevice/number.go:30-32 | `Major` depends only on bits 8..19 |
| DevNumber.MinorIgnoresMajorBits | libdevice/number.go:30-37 | rewriting bits 8..19 changes `Major` to the new value and leaves `Minor` alone: the two read disjoint bit ranges |
| DeviceTypes.DeviceNumberString | types/device.go:179-184 | "*" exactly for -1, otherwise decimal text that parses back to the number and has no ' ' or ':' |
| DeviceTypes.CgroupStringFields | types/device.go:141-145 | the cgroup line "<type> <major>:<minor> <perms>" splits back into type, the two numbers and the permissions |
| DeviceTypes.QosStringFields | types/device.go:96-98 | the blkio line "<major>:<minor> <value>" splits at the first space and at ':' back into both numbers and the value |
| NetworkTypes.IsConflictNic | types/network.go:64-79 | an error iff same container name, same host name, same non-empty MAC or same IP text; the name errors take precedence in that order |
| NetworkTypes.IsConflictRoute | types/network.go:111-116 | an "alread exist" error exactly when `IsSameRoute(r1, r2)` holds |
| NetworkTypes.IsSameNicIsFill | types/network.go:82-108 | `IsSameNic(obj, src)` iff filling obj's empty/zero fields from src gives src: every empty field of obj is a wildcard |
| NetworkTypes.IsSameRouteIsFill | types/network.go:119-133 | `IsSameRoute(obj, src)` iff filling obj's empty fields from src gives src |
| NetworkTypes.SameReflexive | types/network.go:82-133 | every interface and route matches itself, and the all-empty filter matches everything |
| NetworkTypes.SameNotSymmetric | types/network.go:82-133 | the wildcard is on the obj side only: there are pairs matching one way and not the other |
| NetworkTypes.EmptyFieldsClash | types/network.go:72-77 | two empty IPs clash, two empty MACs do not |
| NetworkTypes.ValidNetworkConfig | types/network.go:135-175 | valid iff the trimmed IP parses, a given MAC parses, and the record is a veth with a host name no host link has and a non-blank bridge, or an eth with an existing host link and no bridge; the checked record is the given one with IP, MAC (and a veth's bridge) trimmed |
| NetworkTypes.ValidNetworkConfigIdempotent | types/network.go:135-175 | a checked record passes the check again unchanged |
| BindIndex.ParseMapping | config/config_device.go:39-52 | a bind string without two ':' is the "bind must have two : in string" error |
| BindIndex.ParseMappingIsSplitN | config/config_device.go:40-51 | the fields are the pieces of `SplitN(bind, ":", 3)`, and parsing fails exactly when there are fewer than three |
| BindIndex.ParseMappingCount | config/config_device.go:40-45 | a bind string parses exactly when it holds at least two ':' |
| BindIndex.ParseMappingFields | config/config_device.go:46-50 | the two parsed paths hold no ':', the permission keeps any further ':', and the three fields rebuild the string |
| BindIndex.ParseMappingOfFields | types/device.go:58-60 | `Bind.ToString` text "host:container:option" parses back into its three fields when the paths hold no ':' |
| BindIndex.CheckEqualIsSpaceless | config/config.go:116-121 | `checkEuqal` holds iff the two option texts agree once every space is removed |
| BindIndex.CheckEqualOrdered | config/config.go:116-121 | two different options in swapped order ("rw,rslave" vs "rslave,rw") are not equal |
| BindIndex.AddRejectsMalformed | config/config.go:132-135 | `add` of a string with fewer than two ':' errors and leaves both maps unchanged |
| BindIndex.AddRejectsTakenContainerPath | config/config.go:137-139 | `add` of a container path already indexed errors and leaves both maps unchanged |
| BindIndex.AddMismatchKeepsContainerPath | config/config.go:141-146 | on a permission mismatch `add` errors, the container path stays registered and the host map is unchanged |
| BindIndex.AddCounts | config/config.go:141-152 | a successful `add` registers the container path; a known host path gets count+1 and result true, a new one count 1 and result false; other hosts unchanged |
| BindIndex.RemoveCounts | config/config.go:155-176 | `remove` always frees the container path; a known host's count drops, its entry goes and the result is true iff the count reaches 0; an unknown host gives (true, "not in memory datebase") |
| BindIndex.CountsStayPositive | config/config.go:147-172 | neither `add` nor `remove` leaves an indexed host path with count below 1 |
| BindIndex.BindsInfo.constructor | config/config.go:197-201 | the index starts with both maps empty |
| BindIndex.BindsInfo.Add | config/config.go:125-153 | the maps are updated in place exactly as `IndexAdd` says, and positive counts are kept |
| BindIndex.BindsInfo.Remove | config/config.go:155-176 | the maps are updated in place exactly as `IndexRemove` says, and positive counts are kept |
| BindIndex.DescribesAppend | config/config_device.go:198-209 | a successful `add` keeps the index describing the stored bind list with the bind appended (distinct container paths, host counts = number of binds) |
| BindIndex.ReplayDescribes | config/config.go:216-220 | replaying the stored binds, when it succeeds, builds an index that describes them |
| BindIndex.DescribesRemoveAt | config/config_device.go:211-219 | deleting a stored bind and removing the same paths from the index keeps the description, with no error |
| BindIndex.RemoveUnrecordedDesyncs | config/config_device.go:211-219 | removing a bind that is not stored but whose host path is in use lowers that count anyway: the index stops describing the list |
| ConfigDevice.ToDeviceRoundTrip | config/config_device.go:112-158 | the record handed back for a stored entry stores back as the same entry |
| ConfigDevice.ToMappingRoundTrip | config/config_device.go:112-158 | storing a device and reading it back keeps every field the store records |
| ConfigDevice.DeviceIndexInArray | config/config_device.go:88-99 | the first stored entry the query matches (empty host or container path is a wildcard), none iff no entry matches |
| ConfigDevice.QueryWildcards | config/config_device.go:91-95 | an empty host path finds by container path, an empty container path by host path, otherwise both must agree |
| ConfigDevice.ConflictIndex | config/config_device.go:101-109 | the first stored entry sharing the host or the container path (no earlier entry shares one), none iff no entry does |
| ConfigDevice.FindDeviceByMapping | config/config_device.go:111-127 | a stored entry with both paths, as a device record; none iff no entry has both |
| ConfigDevice.FindSubPartition | config/config_device.go:129-146 | the stored entries whose parent is the device's host path, and only those |
| ConfigDevice.FindSubPartitionSnoc | config/config_device.go:129-146 | one more stored entry adds its partition, if it is one of the disk, at the end: the answer keeps the stored order and lists an entry as often as it is stored |
| ConfigDevice.UpdateDevice | config/config_device.go:148-180 | add: fails iff an entry shares a path, else appends exactly one entry at the end; remove: fails iff nothing matches, else deletes the first match keeping the others' order |
| ConfigDevice.UpdateDeviceKeepsDistinct | config/config_device.go:160-177 | the store never holds two devices with the same host path or container path |
| ConfigDevice.AddThenFind | config/config_device.go:160-169 | a device just added is found again by its two paths |
| ConfigDevice.RemoveThenNotFound | config/config_device.go:170-177 | in a store without shared paths, a device removed by its two paths is no longer found |
| ConfigDevice.BindIndexInArray | config/config_device.go:75-86 | the first stored bind string that parses and has the bind's host and container path; unparsable strings are skipped |
| ConfigDevice.IsBindInConfig | config/config_device.go:182-188 | true iff some stored bind string has the bind's two paths |
| ConfigDevice.GetBindInConfig | config/config_device.go:190-196 | the parsed stored bind with the two paths (its permission is the stored option), an error iff there is none; the error prints the bind as `%v` of a `*types.Bind` does (`BindVerbose`) |
| ConfigDevice.CheckPathNum | config/config_device.go:299-305 | an error iff more than 128 binds are stored |
| ConfigDevice.QosUpsert | config/config_device.go:241-255 | dirty iff the recorded value differs; same value: list unchanged; absent: appended |
| ConfigDevice.UpsertInPlace | config/config_device.go:241-255 | for a device already listed, the value of its first entry is overwritten in place: same length and position, every other entry unchanged |
| ConfigDevice.QosRemove | config/config_device.go:272-282 | found iff an entry has the numbers; then exactly one entry is dropped, otherwise the list is unchanged |
| ConfigDevice.UpsertThenLookup | config/config_device.go:241-255 | after an upsert the device's value is the new one and other devices' entries are untouched |
| ConfigDevice.RemoveKeepsOthers | config/config_device.go:272-282 | removal leaves every other device's entries as they were |
| ConfigDevice.RenumberedFacts | config/config_device.go:322-370 | entries for the host path carry the new numbers with other fields kept, others are unchanged, and a second pass changes nothing |
| ConfigDevice.RenumberDeviceList | config/config_device.go:323-329 | the device loop rewrites every entry on the host path, and reports whether any was |
| ConfigDevice.RenumberQosList | config/config_device.go:331-337 | one QoS loop rewrites every entry on the host path, and reports whether any was |
| HookConfig.WithQos | config/config_device.go:256-267 | replacing the list of one QoS kind leaves the other four kinds and every other list unchanged |
| HookConfig.ContainerHookConfig.Flush | config/config_device.go:54-73 | a clean store writes nothing; a dirty one writes the whole document or returns the write error; dirty is never reset |
| HookConfig.ContainerHookConfig.UpdateDevice | config/config_device.go:148-180 | on success the device list is the edited one and dirty is set; on error nothing changes |
| HookConfig.ContainerHookConfig.UpdateBind | config/config_device.go:222-228 | add or remove as below; a successful add keeps the index valid; removing a stored bind keeps it valid; removing an unstored bind whose host is in use breaks it |
| HookConfig.ContainerHookConfig.AddBind | config/config_device.go:198-209 | the string is appended only if the index accepted it and no stored string has the same two paths; dirty only then |
| HookConfig.ContainerHookConfig.RemoveBind | config/config_device.go:211-219 | the first stored string with the two paths is dropped, then the index is always asked to remove the bind |
| HookConfig.ContainerHookConfig.UpdateDeviceQos | config/config_device.go:240-269 | the kind's list becomes the upsert, dirty only on change, never an error |
| HookConfig.ContainerHookConfig.RemoveDeviceQos | config/config_device.go:271-297 | the kind's list loses its first entry with the numbers; found/dirty iff there was one; never an error |
| HookConfig.ContainerHookConfig.SetConfigDirty | config/config_device.go:307-310 | the document is unchanged and the store is dirty |
| HookConfig.ContainerHookConfig.UpdateQosDevNum | config/config_device.go:312-319 | the entry gets the new numbers, and dirty is set, only when they differ |
| HookConfig.ContainerHookConfig.UpdateDeviceNode | config/config_device.go:321-370 | every device and QoS entry on the host path is renumbered, and dirty is set as soon as one entry is on it, changed or not |
| HookConfig.ContainerHookConfig.UpdateNetworkInterface | config/config_network.go:79-97 | add appends unconditionally; remove drops the first wildcard match; dirty iff add or a match; never an error |
| HookConfig.ContainerHookConfig.UpdateNetworkRoutes | config/config_network.go:131-149 | add appends unconditionally; remove drops the first wildcard match; dirty iff add or a match; never an error |
| HookConfig.RemoveBindDescription | config/config_device.go:211-219 | removing a stored bind keeps the index describing the list; an unstored one with its host in use desynchronises it |
| HookConfig.StoredBindBlocksAdd | config/config_device.go:198-207 | while the index describes the binds, a stored bind cannot be added again: its container path is taken |
| HookConfig.LoadContainerHookConfig | config/config.go:194-225 | a missing file gives an empty store and empty index; read/decode errors are returned; the binds are replayed and the first rejected one fails the load; the loaded store is clean and its index describes its binds |
| HookConfig.ReplayStopsAtError | config/config.go:216-220 | a replay that fails on a prefix fails on the whole list with the same error |
| ConfigNetwork.FindInterfaceByName | config/config_network.go:32-46 | the first stored interface of the query's type (if given) matching by container name (host name empty or equal) or by host name (container name empty or equal); none iff no entry matches |
| ConfigNetwork.NameMatchShares | config/config_network.go:38-43 | a name match always shares the container name or the host name |
| ConfigNetwork.AppendThenFind | config/config_network.go:32-85 | an interface just appended is found by its own names |
| ConfigNetwork.GetNics | config/config_network.go:48-57 | exactly the stored interfaces the filter matches under `IsSameNic` |
| ConfigNetwork.GetRoutes | config/config_network.go:119-129 | exactly the stored routes the filter matches under `IsSameRoute` |
| ConfigNetwork.EmptyFilterListsAll | config/config_network.go:48-57 | the all-empty filter lists every interface and route, in stored order; the same filter is applied to routes at lines 119-129 |
| ConfigNetwork.GetAfterAppend | config/config_network.go:48-57 | listing after an append lists the old matches, then the new entry if the filter takes it; the same holds for routes, lines 119-129 |
| ConfigNetwork.IsConflictInterface | config/config_network.go:59-67 | nil iff no stored interface clashes; otherwise the `IsConflictNic` error of the first clashing one; nil for an empty store |
| ConfigNetwork.IsSameInterface | config/config_network.go:69-77 | true iff some stored interface matches the query as a filter |
| ConfigNetwork.IsRouteExist | config/config_network.go:98-107 | true iff some stored route matches the query as a filter |
| ConfigNetwork.IsConflictRoute | config/config_network.go:109-117 | nil iff no stored route matches; otherwise the "alread exist" error; nil for an empty store |
| ConfigNetwork.ConflictIsExist | config/config_network.go:98-117 | a route conflicts with the store exactly when it already exists there |
| ConfigNetwork.NicRemove | config/config_network.go:87-93 | the position of the first wildcard match, none iff no stored interface matches |
| ConfigNetwork.RouteRemove | config/config_network.go:139-145 | the position of the first wildcard match, none iff no stored route matches |
| ConfigNetwork.AddIsUnchecked | config/config_network.go:81-85 | adding an interface has no duplicate check: it always grows the list by one; removing it again takes out exactly one copy |
| ConfigNetwork.AddRouteIsUnchecked | config/config_network.go:133-137 | adding a route always grows the list by one; removing it again takes out exactly one copy |
| ConfigNetwork.CheckNicNum | config/config_network.go:150-156 | an error iff more than 128 interfaces are stored (strict >) |
| DeviceParse.CheckDeviceMode | libdevice/devices_unix.go:101-120 | accepts exactly the non-empty strings over {r,w,m} with no letter repeated |
| DeviceParse.DefaultModeValid | libdevice/devices_unix.go:101-120 | "rwm", its reorderings and "r" are valid; "", "rr" and "rwx" are not |
| DeviceParse.ParseMapping | libdevice/devices_unix.go:48-99 | more than three ':'-fields is the "invalid device specification" error; a result has a valid mode, at least one path, and each non-empty path absolute and cleaned |
| DeviceParse.ParseMappingResult | libdevice/devices_unix.go:58-98 | a successful parse keeps the chosen permission text and sets only the two cleaned paths |
| DeviceParse.ParseHostOnly | libdevice/devices_unix.go:52-81 | a lone host path gets "rwm" and no container path |
| DeviceParse.ParseTwoFields | libdevice/devices_unix.go:65-71 | with two fields the second is the permission iff `CheckDeviceMode` accepts it, otherwise the container path (which must be absolute) |
| DeviceParse.ParseThreeFields | libdevice/devices_unix.go:59-75 | with three fields an empty third keeps "rwm", a valid one is used, an invalid one is the "invalid permission" error; the second field is the container path |
| DeviceParse.ParseNoPaths | libdevice/devices_unix.go:88-90 | an argument with neither path is refused |
| DeviceParse.DeviceStringRoundTrip | types/device.go:136-138 | the stored text "host:container:perms" of a device with clean absolute paths parses back to its paths and permissions |
| DeviceParse.ParseDevice | libdevice/devices_unix.go:122-134 | a mapping error is returned as is; otherwise the node at the host path describes the device, with the argument's container path |
| DeviceParse.GetDeviceNum | libdevice/devices_unix.go:155-163 | the major/minor of the node at the path, or the lookup's error |
| DeviceParse.SetDefaultPath | libdevice/devices_unix.go:338-346 | an empty `Path` is filled from `PathOnHost` and then an empty `PathOnHost` from `Path`; nothing else changes |
| DeviceParse.SetDefaultPathFacts | libdevice/devices_unix.go:338-346 | defaulting is idempotent, never changes a non-empty field, and leaves both paths set when either was |
| BindParse.ValidMountOption | libdevice/binds_unix.go:175-196 | accepts exactly comma lists of ro, rw, private, rprivate, rslave with no item repeated |
| BindParse.UseEachOnce | libdevice/binds_unix.go:188-195 | the table loop accepts iff every item is in the table and none appears twice |
| BindParse.DefaultOptionAccepted | libdevice/binds_unix.go:176-196 | the default "rw,rslave" and "ro" are accepted; the default is the constant at line 36 |
| BindParse.PairAccepted | libdevice/binds_unix.go:176-196 | any two different allowed items joined by ',' are accepted |
| BindParse.OptionsRefused | libdevice/binds_unix.go:176-196 | "", "shared", "slave" and "rshared" are refused |
| BindParse.ItemRefused | libdevice/binds_unix.go:189-192 | a single item outside the allowed set is refused |
| BindParse.RepeatRefused | libdevice/binds_unix.go:189-194 | an allowed item given twice is refused |
| BindParse.ParseBind | libdevice/binds_unix.go:31-112 | only 2 or 3 ':'-fields are accepted; paths are absolute, the option accepted; in create mode with a spec the owner comes from `GetUIDGid` with -1 as 0; a found source gives its kind, a missing one a directory in create mode and `IsDir` false otherwise; a failing stat is an error |
| BindParse.ParseBindFields | libdevice/binds_unix.go:39-50 | three fields give the cleaned first two paths and the third field as option |
| BindParse.BindStringRoundTrip | types/device.go:58-60 | the stored text of a bind parses back to its paths and option for clean absolute paths and an accepted option |
| BindParse.TwoFieldsDefault | libdevice/binds_unix.go:36-47 | two fields take the default option "rw,rslave" and the cleaned paths |
| BindParse.BadOptionRefused | libdevice/binds_unix.go:39-42 | a third field the option check refuses is the "invalid permissions" error |
| DeviceOptions.ParseTarget | libdevice/options.go:63-81 | a value without ':' is "Bad format"; a target is the text before the first ':', a device that is not a char device and whose lsblk type is not "part", and the rest is the value |
| DeviceOptions.ParseAll | libdevice/options.go:59-137 | on success one record per option in input order; on failure the error of some option, the first failing one; all options parse ⇒ success |
| DeviceOptions.ParseAllErrPrefix | libdevice/options.go:62-92 | once a prefix fails, the whole list fails with the same error (fail-fast) |
| DeviceOptions.ParseAddDeviceQosOption | libdevice/options.go:58-94 | the loop returns `ParseAll` of the rate parser |
| DeviceOptions.ParseAddDeviceBlkioWeight | libdevice/options.go:96-137 | the loop returns `ParseAll` of the weight parser |
| DeviceOptions.ParseList | libdevice/options.go:62-135 | the shared append-or-stop loop computes `ParseAll` |
| DeviceOptions.NoColonBadFormat | libdevice/options.go:63-66 | the first value without ':' fails the list with "Bad format" |
| DeviceOptions.WeightRange | libdevice/options.go:121-133 | for a whole disk a weight is accepted iff it is 0 or 10..1000, and the record has the raw path, the device's numbers and the weight in decimal |
| DeviceOptions.RateAccepted | libdevice/options.go:82-91 | for a whole disk a rate is accepted iff the size parser gives a non-negative count, stored in decimal with the raw path and the device's numbers |
| DeviceOptions.QosOfTarget | libdevice/options.go:82-91 | once the target is known the rate record is built from it |
| DeviceOptions.TargetOfWholeDisk | libdevice/options.go:63-81 | a whole disk's option names that disk and carries the text after the first ':' |
| UtilsHooks.TranslateID | utils/hooks.go:125-135 | -1 iff no mapping passes the range test; otherwise HostID + (id − ContainerID) in uint32 of the first mapping that does |
| UtilsHooks.HostIDFromMappingAsWritten | utils/hooks.go:125-135 | -1 iff no mapping's written range test (upper bound computed in uint32) accepts the id |
| UtilsHooks.HostIDFromMapping | utils/hooks.go:125-135 | -1 iff no mapping's range [ContainerID, ContainerID+Size) holds the id; otherwise a uint32 host ID |
| UtilsHooks.EmptyMappingMatchesAll | utils/hooks.go:128 | a mapping with ContainerID 0 and Size 0 claims id 5 as written (bound wraps to 2^32−1), and claims nothing under the intended test |
| UtilsHooks.AsWrittenAgrees | utils/hooks.go:128 | the written and intended tests agree on non-empty mappings whose range stays within uint32 |
| UtilsHooks.MappedIntoHostRange | utils/hooks.go:128-131 | a translated id lies in the host range of the first mapping that took it, when that range does not wrap |
| UtilsHooks.GetUIDGid | utils/hooks.go:137-145 | (-1,-1) without a user namespace; otherwise container id 0 mapped through the UID and the GID mappings, -1 for no match |
| UtilsHooks.OwnerIDs | libdevice/binds_unix.go:74-84 | the owner of created files: `GetUIDGid` with -1 mapped to 0, root without a user namespace |
| UtilsHooks.ParseHookState | utils/hooks.go:65-89 | a decode error is returned; a non-empty bundle is kept; an empty one is taken from the legacy `bundlePath` record, and both empty is an error |
| UtilsHooks.GraphDriverOfHookPath | utils/hooks.go:30-39 | installed as ".../<root>/hooks/<binary>", the engine root is the grandparent of the executable |
| UtilsHooks.TwoLevelsUp | utils/hooks.go:37 | `getGraphDriverPath` is `Dir(Dir(executable))` |
| UtilsHooks.GetContainerStoragePath | utils/hooks.go:41-57 | success iff the grandparent is known and "<root>/engines/lcr" is a directory, which is then the result |
| SyslogService.ParseSyslogServiceAsWritten | utils/utils.go:99-104 | as written, every accepted "udp://" service has Addr "" (the address goes to a shadowing local) |
| SyslogService.ParseErrors | utils/utils.go:92-118 | exactly the empty text and the udp://, tcp://, unix:// prefixes are accepted; anything else is "Unspported syslog network" |
| SyslogService.ParseThenText | utils/utils.go:92-118 | every result is "default" with "", udp/tcp with a non-empty address, or unix (type ""); its text is the input unless an empty udp/tcp address was defaulted to "localhost:541" |
| SyslogService.TextThenParse | utils/utils.go:92-118 | parsing the text of such a service gives it back |
| SyslogService.UdpAddressLost | utils/utils.go:101 | "udp://h" gives Addr "" as written and Addr "h" when corrected |
| SyslogService.AsWrittenAgrees | utils/utils.go:96-118 | away from udp the written parser and the corrected one agree |
| ContainerInfo.NameShape | container/container.go:33-39 | a name matching ^/?[a-zA-Z0-9][a-zA-Z0-9_.-]+$ has at least two characters and no '/' after the first |
| ContainerInfo.SlashOptional | container/container.go:39 | one leading '/' is optional, two are refused |
| ContainerInfo.GraphDriverPath | container/container.go:216-235 | an error iff `isula info` failed or has no "iSulad Root Dir:" line |
| ContainerInfo.MarkerLineHasColon | container/container.go:225-228 | the line from the marker on always has a second ':'-field |
| ContainerInfo.GraphDriverFromLine | container/container.go:223-232 | the root dir is the space-trimmed text between the marker's ':' and the next ':' of the first marker line |
| ContainerInfo.PidOf | container/container.go:177-190 | the newline-trimmed pid text must parse as an int |
| ContainerInfo.ContainerIDOfJson | container/container.go:167-175 | the quoted, newline-ended id `isula inspect` prints reads back as the id (newlines then quotes trimmed) |
| ContainerInfo.PidOfJson | container/container.go:184-189 | the printed pid reads back as the pid |
| ContainerInfo.New | container/container.go:52-85 | a name outside the pattern is refused; otherwise success iff the id and an integer pid are read; the spec is optional and the config directory is `<root>/engines/lcr/<id>` |
| ContainerInfo.GetCgroupPath | container/container.go:141-160 | an error iff `isula inspect` failed |
| ContainerInfo.CgroupPathOfJson | container/container.go:149-157 | the quoted parent loses its newline and quotes, empty becomes "/lxc", and the container id is joined |
| NicCommand.ParseNicNameWithoutHost | network.go:188-192 | a name without ':' is ("", name) |
| NicCommand.ParseNicNameOfPair | network.go:188-195 | "host:container" splits at the first ':', the container part keeping further ':' |
| NicCommand.GeneratedHostNameFits | network.go:117-123 | the generated host name is the container name cut to 9 characters, "_" and 5 random characters: at most 15 characters |
| NicCommand.AddNicConfig | network.go:60-127 | refused iff the container name is empty or `ValidNetworkConfig` refuses the record; MTU 1500 and qlen 1000 by default; IP and MAC trimmed; type veth or eth; the host name is the given one or generated |
| NicCommand.UpdateNicConfig | network.go:252-272 | an empty name is refused; an unset qlen is −1 and an unset MTU 0, meaning "keep"; the type and host name are left empty |
| NsExec.Code | libdevice/nsexec/nsexec.go:31-45 | every kind of work is sent as one of the message codes 1..7 |
| NsExec.WorkOfCode | libdevice/nsexec/nsexec.go:31-45 | exactly the codes 1..7 name a kind of work |
| NsExec.CodesDistinct | libdevice/nsexec/nsexec.go:31-45 | the child decodes each code back to the work it was sent for, so no two kinds share a code |
| NsExec.CodeOfWork | libdevice/nsexec/nsexec.go:31-45 | every code 1..7 is the code of the work it names |
| NsExec.Namespaces | libdevice/nsexec/nsexec.go:123-181 | every driver method joins only "mnt", except UpdateSysctl, which joins "ipc", "net", "mnt" in that order |
| NsExec.BuildNSString | libdevice/nsexec/nsexec.go:183-192 | the loop builds the ','-joined "<ns>:/proc/<pid>/ns/<ns>" entries, one per namespace, in order |
| NsExec.NsPathsEntries | libdevice/nsexec/nsexec.go:183-192 | no namespaces give ""; otherwise splitting at ',' gives back exactly one entry per namespace |
| NsExec.DriverNsPaths | libdevice/nsexec/nsexec.go:123-181 | the string each driver method sends, for a container pid |
| NsExec.ChildEnv | libdevice/nsexec/nsexec.go:71-79 | the child's environment has exactly two entries, the init pipe and the work type |
| NsExec.ChildEnvWorkType | libdevice/nsexec/nsexec.go:75-76 | the work-type entry reads back, as an integer, as the work's code |
| NsExec.Exec | libdevice/nsexec/nsexec.go:66-121 | success iff every step up to the wait succeeded and the child's error record decoded to an empty text; the first failing step is the error; a non-empty text from the child is the error |
| NsExec.PidRecordIgnored | libdevice/nsexec/nsexec.go:105-109 | a pid record that fails to decode never changes the outcome |
| NsExec.AbortBeforeRead | libdevice/nsexec/nsexec.go:66-103 | once a step before the wait fails, nothing the child answers matters |
| ContainerWork.Missing | libdevice/container_work.go:214-224 | the directories the stat walk collects: none of them exists, and there are none exactly when the start directory exists |
| ContainerWork.Top | libdevice/container_work.go:216-224 | the walk stops at a path that exists |
| ContainerWork.MissingLinks | libdevice/container_work.go:216-224 | each collected directory's parent is the next one collected |
| ContainerWork.MissingEnds | libdevice/container_work.go:216-224 | the walk starts at the device's (or bind's) directory and ends just below the first existing ancestor |
| ContainerWork.MkdirAll | libdevice/container_work.go:282-288 | a failure changes nothing; a success leaves a directory at the path and every earlier node as it was; the same call is made at lines 227-229 and 324-326 |
| ContainerWork.Chown | libdevice/container_work.go:296-303 | chowning changes no node and no mount, and succeeds iff the path exists and the system allows it; the same call is made at lines 231-235 |
| ContainerWork.ChownEach | libdevice/container_work.go:299-303 | chowning each collected directory, failures only logged, changes no node and no mount; the same loop is at lines 231-235 |
| ContainerWork.Chmod | libdevice/container_work.go:193-195 | chmod changes no node and succeeds iff the path exists and the system allows it |
| ContainerWork.Remove | libdevice/container_work.go:205-207 | removal succeeds iff the node exists, holds nothing and the system allows it, and takes exactly that node away; a failure changes nothing; the same call is made at line 260 |
| ContainerWork.CreateFile | libdevice/container_work.go:289-293 | a failure changes nothing; a success leaves a non-directory node at the path; the same call is made at lines 157-161 |
| ContainerWork.MknodDevice | libdevice/devices_unix.go:236-251 | a success adds exactly the device node with the requested type and numbers, mode and owner; an occupied path fails |
| ContainerWork.MountVia | libdevice/container_work.go:305 | mounting changes no node; the same call is made at line 327 |
| ContainerWork.MakeBindTarget | libdevice/container_work.go:281-294 | a success leaves the bind's container path present |
| ContainerWork.Rootfs.constructor | libdevice/container_work.go:59-107 | the worker starts from the given container filesystem |
| ContainerWork.Rootfs.MissingAncestors | libdevice/container_work.go:269-279 | the stat loop collects exactly the missing ancestors of the path, nearest first; the same loop is at lines 214-224 |
| ContainerWork.Rootfs.ChownAll | libdevice/container_work.go:299-303 | the chown loop leaves the filesystem as chowning each directory in turn does; the same loop is at lines 231-235 |
| ContainerWork.Rootfs.DoAddDevice | libdevice/container_work.go:180-241 | the step-by-step add-device leaves the filesystem and returns the error the specification of doAddDevice gives |
| ContainerWork.Rootfs.DoAddBind | libdevice/container_work.go:263-309 | the step-by-step add-bind leaves the filesystem and returns the error the specification of doAddBind gives |
| ContainerWork.Rootfs.WorkInContainer | libdevice/container_work.go:39-107 | the worker leaves the filesystem and writes the record the specification of WorkInContainer gives |
| ContainerWork.AddLeaf | libdevice/container_work.go:237 | adding a node in an existing directory keeps every node inside an existing directory; the same step is at line 289 |
| ContainerWork.MkdirAllKeepsTree | libdevice/container_work.go:282-286 | MkdirAll keeps every node inside an existing directory; the same calls are made at lines 227 and 324 |
| ContainerWork.MissingKeepsTree | libdevice/container_work.go:214-229 | making every missing directory on the way keeps the tree |
| ContainerWork.RemoveKeepsTree | libdevice/container_work.go:205 | removing keeps the tree; the same call is made at line 260 |
| ContainerWork.CreateFileKeepsTree | libdevice/container_work.go:289 | creating a file keeps the tree; the same call is made at line 157 |
| ContainerWork.MknodKeepsTree | libdevice/devices_unix.go:236-251 | mknod keeps the tree |
| ContainerWork.AddDeviceKeepsTree | libdevice/container_work.go:180-241 | doAddDevice keeps the tree, whatever fails |
| ContainerWork.MakeBindTargetKeepsTree | libdevice/container_work.go:281-294 | making a bind's mount point keeps the tree |
| ContainerWork.AddBindKeepsTree | libdevice/container_work.go:263-309 | doAddBind keeps the tree |
| ContainerWork.AddTransferBaseKeepsTree | libdevice/container_work.go:319-332 | doAddTransferBase keeps the tree |
| ContainerWork.DoMountKeepsTree | libdevice/container_work.go:124-178 | doMount keeps the tree for every mount type |
| ContainerWork.MoveKeepsTree | libdevice/container_work.go:130-139 | a "move" mount keeps the tree |
| ContainerWork.BindMountKeepsTree | libdevice/container_work.go:140-164 | a "bind" mount keeps the tree |
| ContainerWork.LinkKeepsTree | libdevice/container_work.go:165-176 | a "link" request keeps the tree |
| ContainerWork.HandleKeepsTree | libdevice/container_work.go:86-104 | every handler the work type selects keeps the tree |
| ContainerWork.HandleUnchangedNodes | libdevice/container_work.go:109-122 | unmounting a bind and writing a sysctl value change no node; the bind removal at lines 311-317 is the same |
| ContainerWork.HandleAddDeviceKeepsTree | libdevice/container_work.go:88-89 | the add-device handler keeps the tree |
| ContainerWork.HandleRemoveDeviceKeepsTree | libdevice/container_work.go:243-261 | the remove-device handler keeps the tree; dispatched from lines 90-91 |
| ContainerWork.HandleAddBindKeepsTree | libdevice/container_work.go:92-93 | the add-bind handler keeps the tree |
| ContainerWork.HandleAddTransferBaseKeepsTree | libdevice/container_work.go:96-97 | the transfer-base handler keeps the tree |
| ContainerWork.HandleMountKeepsTree | libdevice/container_work.go:100-101 | the mount handler keeps the tree |
| ContainerWork.WorkKeepsTree | libdevice/container_work.go:59-107 | whatever the worker is asked and whatever fails, every node still sits in an existing directory |
| ContainerWork.AddExistingDevice | libdevice/container_work.go:189-200 | the wanted device already at the path: success, no node or mount changes, chmod/chown failures only logged |
| ContainerWork.AddDeviceCreates | libdevice/container_work.go:210-240 | a successful add of a new device leaves the node with the requested numbers, mode and owner inside an existing directory |
| ContainerWork.AddDeviceOccupied | libdevice/container_work.go:202-239 | without force, a different node at the path makes the add fail |
| ContainerWork.RemoveDeviceCases | libdevice/container_work.go:243-261 | nothing at the path is success; something that is not a device is refused; a device is unlinked |
| ContainerWork.DeviceHasNoChildren | libdevice/container_work.go:260 | nothing lies inside a device node, so its removal never meets "directory not empty" |
| ContainerWork.RemoveAfterAddDevice | libdevice/container_work.go:180-261 | removing a device just added takes exactly its node, owner and mode away again |
| ContainerWork.SysctlPathOfKey | libdevice/container_work.go:109-114 | "a.b.c" is written to /proc/sys/a/b/c |
| ContainerWork.DottedKey | libdevice/container_work.go:112 | the key's dots become the slashes between its names |
| ContainerWork.TransferBaseCalls | libdevice/container_work.go:319-332 | the transfer base is mounted "ro,bind,rslave": a bind mount, then its read-only remount |
| ContainerWork.AddBindTarget | libdevice/container_work.go:281-294 | after a successful add-bind the mount point exists, a directory for a directory bind and a non-directory otherwise |
| ContainerWork.LinkOutcome | libdevice/container_work.go:165-176 | a link request fails iff the destination exists or its parent is not a directory; a link made points at the source |
| ContainerWork.WorkRecord | libdevice/container_work.go:59-107 | a record is written iff the pipe number parses; it is empty iff a known work type was handled without error; an unknown work type changes nothing and writes an error |
| ContainerWork.DriverSeesHandler | libdevice/container_work.go:70-79 | driver and worker together: the driver reports success iff the worker's handler succeeded, and otherwise exactly the handler's error |
| UdevRules.TrimContainerID | pkg/udevd/udevd_controller.go:44-47 | the short id is the container id's first eight characters |
| UdevRules.RuleLines | pkg/udevd/udevd.go:47-51 | one rule line per rule, in order |
| UdevRules.KernelName | pkg/udevd/udevd.go:94-101 | the name is the KERNEL value without its last character (the "*"); an empty value gives no name |
| UdevRules.KernelNameAsWritten | pkg/udevd/udevd.go:98-99 | the written slice fails exactly on an empty KERNEL value |
| UdevRules.RunStep | pkg/udevd/udevd.go:103-114 | a RUN tag never touches the name, and what it sets (the third and fifth command words) holds no space |
| UdevRules.TagStep | pkg/udevd/udevd.go:90-115 | only a tag starting "KERNEL" sets the name, only one starting "RUN" sets the id and the container device |
| UdevRules.TagStepAgrees | pkg/udevd/udevd.go:90-115 | where the written tag step does not panic it agrees with the model's; it panics only on a KERNEL tag with an empty quoted value |
| UdevRules.EmptyKernelPanics | pkg/udevd/udevd.go:95-100 | the tag KERNEL=="" makes the written step panic; the model gives no rule for that line |
| UdevRules.ScanTags | pkg/udevd/udevd.go:84-115 | the container id and device read from a line are empty or free of spaces |
| UdevRules.ParseRuleLine | pkg/udevd/udevd.go:75-124 | a comment line gives nothing; a rule read has a non-empty, space-free container id and container device |
| UdevRules.LoadRules | pkg/udevd/udevd.go:60-128 | a missing file gives no rules, an open error is returned, otherwise the rules of the scanned lines in order |
| UdevRules.ReadRuleLine | pkg/udevd/udevd.go:75-124 | the line body computes the rule of the line |
| UdevRules.ReadTags | pkg/udevd/udevd.go:84-115 | the tag loop computes the fields of the tags read left to right |
| UdevRules.SaveLoadRoundTrip | pkg/udevd/udevd.go:35-128 | the file `saveRules` writes loads back as the saved rules, normalised (name "/dev/"+base, id cut to eight characters), in order |
| UdevRules.HeaderSkipped | pkg/udevd/udevd.go:45-46 | the two comment lines and the blank line in front change nothing |
| UdevRules.SavedLinesScan | pkg/udevd/udevd.go:45-51 | scanning the saved file gives the header lines and then the rule lines |
| UdevRules.RuleLinesParse | pkg/udevd/udevd.go:74-125 | the rule lines read back as the normalised rules, one each |
| UdevRules.RuleLineParses | pkg/udevd/udevd_controller.go:38-42 | one written rule line reads back as the normalised rule |
| UdevRules.RuleLineSplits | pkg/udevd/udevd_controller.go:38-42 | a rule line is not a comment and splits at ',' into its five tags |
| UdevRules.ScanRuleTags | pkg/udevd/udevd.go:90-115 | reading a rule line's tags gives the disk's base name, the short id and the container device |
| UdevRules.RuleTagsJoin | pkg/udevd/udevd_controller.go:38-42 | a rule line is its five tags joined by ',', none holding a comma or a line break |
| UdevRules.RuleLineShape | pkg/udevd/udevd_controller.go:38-42 | a rule line has no line break and ends in a quote |
| UdevRules.ScanLinesOfLines | pkg/udevd/udevd.go:45-74 | text written line by line scans back to the lines, when none holds a line break or ends in a carriage return |
| UdevRules.CommentLineSkipped | pkg/udevd/udevd.go:75-80 | a line starting with '#' gives no rule |
| UdevRules.BlankLineSkipped | pkg/udevd/udevd.go:116-119 | a blank line gives no rule |
| UdevRules.KernelTagReads | pkg/udevd/udevd.go:95-101 | the KERNEL tag written for a base name reads back as that name |
| UdevRules.RunTagReads | pkg/udevd/udevd.go:104-114 | the RUN tag written for an id and a device reads back as them |
| UdevRules.CommandWords | pkg/udevd/udevd_controller.go:40-41 | the helper's command is six quote-free words, the third the short id and the fifth the container device |
| UdevController.SameRuleSymmetric | pkg/udevd/udevd_controller.go:137-153 | the rule comparison is symmetric |
| UdevController.AddedHolds | pkg/udevd/udevd_controller.go:130-144 | after adding, an equal rule is in the list |
| UdevController.AddIdempotent | pkg/udevd/udevd_controller.go:130-144 | adding the same rule twice is adding it once |
| UdevController.RemoveAfterAdd | pkg/udevd/udevd_controller.go:130-160 | removing a rule just added to a list without it gives the list back |
| UdevController.AddKeepsNoDuplicates | pkg/udevd/udevd_controller.go:130-144 | adding keeps the list free of equal rules |
| UdevController.RemoveLeavesNone | pkg/udevd/udevd_controller.go:146-160 | in a list without duplicates, removing leaves no equal rule and no duplicates |
| UdevController.RemoveDropsOne | pkg/udevd/udevd_controller.go:146-160 | removal drops exactly the first equal rule and keeps the others in order; with none nothing changes |
| UdevController.Controller.constructor | pkg/udevd/udevd_controller.go:59-71 | the controller is on iff asking whether udevd is used succeeded with true; no rules, not dirty |
| UdevController.Controller.LoadRules | pkg/udevd/udevd_controller.go:116-128 | off: nothing; an open error is returned and keeps the list; otherwise the file's rules replace the list; the dirty flag is untouched |
| UdevController.Controller.AddRule | pkg/udevd/udevd_controller.go:130-144 | off: nothing; otherwise a new rule is appended and makes the controller dirty, an equal one changes nothing |
| UdevController.Controller.RemoveRule | pkg/udevd/udevd_controller.go:146-160 | off: nothing; otherwise the first equal rule is dropped and makes the controller dirty |
| UdevController.Controller.ToDisk | pkg/udevd/udevd_controller.go:162-172 | off or clean: nothing written; otherwise the saved file holds the rules and the save's or the reload's error is returned; dirty is never reset |
| LibDevice.CheckDevice | libdevice/libdevice.go:33-65 | success iff every read/write bps and iops option names the numbers of a device of the batch (of the store for an empty batch); otherwise the error names an offending option's path |
| LibDevice.UpdateDeviceOwner | libdevice/libdevice.go:67-81 | only the owner changes; without a spec or user namespace nothing changes; an ID changes only when container root is mapped, and then to a 32-bit host ID |
| LibDevice.ListDevice | libdevice/libdevice.go:366-387 | all stored devices, and exactly those stored devices without a parent |
| LibDevice.Aggregate | libdevice/libdevice.go:194-200 | no error iff nothing failed |
| LibDevice.AggregateText | libdevice/libdevice.go:197-200 | the collected errors are reported space-joined when the text does not start or end with a bracket |
| LibDevice.QosLoopStopped | libdevice/libdevice.go:532-606 | after the first failure nothing more is done |
| LibDevice.QosLoopStopsAt | libdevice/libdevice.go:532-606 | the QoS loop returns at its first failure |
| LibDevice.LookupKeptByUpsert | libdevice/libdevice.go:538 | recording a QoS value leaves the entries of other device numbers unchanged |
| LibDevice.QosLoopError | libdevice/libdevice.go:534-545 | a failing QoS loop fails with the error of its last cgroup write or store update, of its own kind |
| LibDevice.QosLoopFrame | libdevice/libdevice.go:534-545 | a QoS loop touches only its own kind's list and only appends calls |
| LibDevice.QosLoopRecords | libdevice/libdevice.go:534-545 | after a successful loop, the last value written for a device is the one recorded |
| LibDevice.UpdateQosOne | libdevice/libdevice.go:534-545 | one option: the cgroup write and the store update the specification gives |
| LibDevice.UpdateQosKind | libdevice/libdevice.go:534-545 | the loop over one kind's options leaves the store, calls and error of the QoS specification |
| LibDevice.UpdateQos | libdevice/libdevice.go:532-606 | read iops, write iops, read bps, write bps, then blkio weights (only where CFQ is enabled), stopping at the first error |
| LibDevice.RemoveQosKindsStopped | libdevice/libdevice.go:608-651 | after the first failure nothing more is done |
| LibDevice.RemoveQosKindEffect | libdevice/libdevice.go:609-617 | removing one kind drops at most the device's entry, keeps the others, touches no other kind, and a failing write of "major:minor 0" is the error |
| LibDevice.RemoveQosOne | libdevice/libdevice.go:610-617 | one kind's removal as the specification gives |
| LibDevice.RemoveQosFrom | libdevice/libdevice.go:608-651 | the kinds' removals in order, stopping at the first error |
| LibDevice.RemoveQos | libdevice/libdevice.go:608-651 | read iops, write iops, read bps, write bps, blkio weight: each recorded value is dropped and its cgroup reset to 0 |
| LibDevice.LongIdsKept | pkg/udevd/udevd_controller.go:130-160 | adding and removing a rule keeps every stored id at least eight characters long |
| LibDevice.RemoveUndoesAdd | libdevice/libdevice.go:142-156 | the rollback store update removes exactly the device the add stored |
| LibDevice.InsertOutcome | libdevice/libdevice.go:163-184 | inserting either succeeds without new error or records one error and rolls back the store and the udev rule |
| LibDevice.ClassifyOutcome | libdevice/libdevice.go:152-162 | a failing device-type query records one error and rolls back the store |
| LibDevice.AddStepOutcome | libdevice/libdevice.go:140-188 | one device: only the device list changes; success appends the device's mapping, failure adds exactly one error and leaves the list as it was |
| LibDevice.AddStepRollsBackRule | libdevice/libdevice.go:168-182 | a device that fails after its udev rule was added leaves the rules as before |
| LibDevice.AddStepQuiet | libdevice/libdevice.go:163-166 | with update-config-only or a stopped container no driver or cgroup call is made |
| LibDevice.AddAllQuiet | libdevice/libdevice.go:140-188 | with update-config-only or a stopped container the whole loop makes no call |
| LibDevice.AddAllLast | libdevice/libdevice.go:140-188 | the last device of the batch either adds its mapping or one error |
| LibDevice.AddAllCounts | libdevice/libdevice.go:140-188 | every device of the batch is either stored or reported: stored devices plus errors grow by the batch size |
| LibDevice.AddAllNoErrors | libdevice/libdevice.go:140-188 | no error means every device's mapping was appended in order |
| LibDevice.AddAllClean | libdevice/libdevice.go:140-188 | no error iff the device list became the old list plus the batch's mappings |
| LibDevice.Undo | libdevice/libdevice.go:170-172 | rollback removes the device from the store and its udev rule |
| LibDevice.InsertOne | libdevice/libdevice.go:163-184 | the driver and cgroup steps of one device as the specification gives |
| LibDevice.AddOne | libdevice/libdevice.go:140-188 | one iteration as the specification step gives |
| LibDevice.ClassifyOne | libdevice/libdevice.go:147-162 | the rule and device-type step as the specification gives |
| LibDevice.AddLoop | libdevice/libdevice.go:138-188 | the loop leaves the store, the rules, the errors and the calls of the specification fold over the batch |
| LibDevice.AddDevice | libdevice/libdevice.go:84-201 | owners updated, check refused first, then the loop, then QoS; the result is the specification's store, rules and aggregated error |
| LibDevice.UpdateDevice | libdevice/libdevice.go:204-238 | a failing check changes nothing and is the error; otherwise the QoS update's store, calls and error |
| LibDevice.FollowSubsAdds | libdevice/libdevice.go:288-306 | following partitions only appends stored devices, each new one not already listed |
| LibDevice.FollowSubsCovers | libdevice/libdevice.go:288-306 | every stored partition of the device ends up listed |
| LibDevice.CollectErrors | libdevice/libdevice.go:279-285 | one "not added" error per requested device not in the store, in order |
| LibDevice.CollectStepErrors | libdevice/libdevice.go:280-285 | one device adds an error iff it is not in the store |
| LibDevice.CollectStored | libdevice/libdevice.go:279-307 | every collected device is a stored one |
| LibDevice.CollectGrows | libdevice/libdevice.go:279-307 | collection only appends |
| LibDevice.CollectCovers | libdevice/libdevice.go:279-307 | each requested device found in the store is collected, with all its stored partitions when partitions are followed |
| LibDevice.IsListed | libdevice/libdevice.go:295-301 | the search finds a device with the same paths iff one is listed |
| LibDevice.JoinPartitions | libdevice/libdevice.go:289-305 | the partition loop computes the specification's list |
| LibDevice.CollectDevices | libdevice/libdevice.go:277-307 | the collection loop computes the specification's devices and errors |
| LibDevice.CollectOne | libdevice/libdevice.go:280-306 | one requested device as the specification step gives |
| LibDevice.RemoveDeviceSpecSplit | libdevice/libdevice.go:241-364 | removal is the collection followed by the removal loop over what was collected |
| LibDevice.ReAddAfterRemove | libdevice/libdevice.go:311-325 | re-adding a removed device puts its mapping back at the end |
| LibDevice.RemoveStepStored | libdevice/libdevice.go:309-320 | a device removed from the store has its udev rule dropped before the driver runs |
| LibDevice.RestoreOnce | libdevice/libdevice.go:325-331 | the second re-add of a failed removal fails harmlessly: the store holds the device once and one error is added |
| LibDevice.RemoveStepDriverFails | libdevice/libdevice.go:323-339 | a failing driver puts the device back in the store (at the end) and reports one error |
| LibDevice.RemoveStepDenyFails | libdevice/libdevice.go:341-346 | a failing cgroup deny is reported and nothing is rolled back: the device stays out of the store |
| LibDevice.RemoveQosKindKept | libdevice/libdevice.go:610-617 | QoS removal touches only the device's own entries |
| LibDevice.RemoveQosKindsKept | libdevice/libdevice.go:608-651 | removing all kinds touches only the device's own entries |
| LibDevice.ClearQosKept | libdevice/libdevice.go:352-354 | clearing QoS touches only the device's own entries |
| LibDevice.DetachClears | libdevice/libdevice.go:322-354 | a detach that succeeds is the driver call, the cgroup call and the QoS clearing |
| LibDevice.RestoreKeepsDistinct | libdevice/libdevice.go:325-331 | rollback keeps the stored devices distinct |
| LibDevice.StoreKeepsDistinct | libdevice/libdevice.go:325 | storing keeps the stored devices distinct |
| LibDevice.DetachKeepsDistinct | libdevice/libdevice.go:322-354 | detaching keeps the stored devices distinct |
| LibDevice.RemoveStepClean | libdevice/libdevice.go:309-354 | a successful removal takes the device out of the store and clears only its own QoS |
| LibDevice.RemoveStepKeepsDistinct | libdevice/libdevice.go:309-354 | one removal keeps the stored devices distinct |
| LibDevice.RemoveAllKeepsDistinct | libdevice/libdevice.go:309-355 | the removal loop keeps the stored devices distinct |
| LibDevice.ClearQosOne | libdevice/libdevice.go:352-354 | QoS clearing as the specification gives, errors appended |
| LibDevice.RestoreOne | libdevice/libdevice.go:325-338 | the rollback of a failed driver call as the specification gives |
| LibDevice.DetachOne | libdevice/libdevice.go:322-354 | the driver, cgroup and QoS steps as the specification gives |
| LibDevice.RemoveOne | libdevice/libdevice.go:309-355 | one iteration as the specification step gives |
| LibDevice.RemoveLoop | libdevice/libdevice.go:309-355 | the loop leaves the store, rules, errors and calls of the specification fold |
| LibDevice.RemoveDevice | libdevice/libdevice.go:241-364 | collection, then the removal loop; the error is the aggregate of all errors |
| LibPath.AddBindOne | libdevice/libdevice.go:413 | the store update of one bind as the specification gives; only the bind list changes |
| LibPath.RemoveBindOne | libdevice/libdevice.go:484 | the store removal of one bind as the specification gives; only the bind list changes |
| LibPath.AddBindAppends | libdevice/libdevice.go:413 | a successful bind update appends the bind's string and keeps the index describing the list |
| LibPath.AddRemoveMapping | libdevice/libdevice.go:413-421 | removing a host mapping just added gives the index back |
| LibPath.IndexAddRemove | libdevice/libdevice.go:413-421 | removing a bind just added to the index gives the index back, whatever permission is named |
| LibPath.AppendedFoundLast | libdevice/libdevice.go:413-421 | a new bind is found at the end of the list, and removing it gives the old list |
| LibPath.UnstoreRestores | libdevice/libdevice.go:413-435 | the rollback of an added bind restores both the bind list and the index |
| LibPath.AddPathStepRollsBack | libdevice/libdevice.go:418-436 | a bind whose transfer path or driver call fails leaves the store as before the bind |
| LibPath.MountFails | libdevice/libdevice.go:429-435 | a failing driver call rolls the bind back out of the store |
| LibPath.LoggedKeepsStore | libdevice/libdevice.go:421-425 | the transfer-path cleanup calls do not change what the rollback does to the store |
| LibPath.UnprepareKeepsStore | libdevice/libdevice.go:420-427 | a failing transfer preparation rolls the bind back out of the store |
| LibPath.AddPathStepOk | libdevice/libdevice.go:410-441 | a successful bind changes the store exactly as its bind update does |
| LibPath.MountOk | libdevice/libdevice.go:429-437 | a successful driver call changes no store |
| LibPath.AddPathStepStores | libdevice/libdevice.go:410-441 | a successful bind appends its string and keeps the index describing the list |
| LibPath.AddPathsFirst | libdevice/libdevice.go:410-442 | a successful run has a successful first bind and then runs on the rest |
| LibPath.AddPathsStores | libdevice/libdevice.go:410-442 | a successful run appends every bind's string in order and keeps the index describing the list |
| LibPath.UnprepareOne | libdevice/libdevice.go:420-427 | the rollback of a failed transfer preparation as the specification gives |
| LibPath.MountOne | libdevice/libdevice.go:429-436 | the driver call and its rollback as the specification gives |
| LibPath.AddPathOne | libdevice/libdevice.go:411-441 | one iteration as the specification step gives |
| LibPath.AddPath | libdevice/libdevice.go:390-450 | the path-count check first; then each bind in turn, the first failure returned; the store, calls and error of the specification |
| LibPath.SamePathsSameIndex | libdevice/libdevice.go:470-481 | a bind is looked up by its paths only, so replacing its mount option keeps its position |
| LibPath.RemovePathStepMissing | libdevice/libdevice.go:476-480 | a bind not in the store adds one error, "fail to find bind: " and the bind as `%v` prints it, and changes nothing else |
| LibPath.RemoveStoredBind | libdevice/libdevice.go:481-487 | a stored bind is removed from the list at its position and the index still describes the list |
| LibPath.RemovePathStepClean | libdevice/libdevice.go:469-506 | a stored bind whose unbind succeeds leaves the store without it and adds no error |
| LibPath.RemovePathStepDriverFails | libdevice/libdevice.go:490-495 | a failing unbind adds one error and puts the bind (with its stored permission) back at the end of the list |
| LibPath.UnmountOne | libdevice/libdevice.go:491-501 | the unbind and transfer-path removal as the specification gives |
| LibPath.RemovePathOne | libdevice/libdevice.go:469-506 | one iteration as the specification step gives |
| LibPath.RemovePath | libdevice/libdevice.go:453-516 | the loop over the binds, errors collected, the aggregated error returned; the store, calls and error of the specification |
| LibNic.DriverValidates | libnetwork/interfaces.go:68-80 | a driver is created only for a known type, an MTU of at least the minimum and a non-negative qlen |
| LibNic.AddNicToContainer | libnetwork/interfaces.go:68-89 | success iff the driver is built from the options, the interface is created, and it is moved into the namespace and configured |
| LibNic.UpdateNicInContainer | libnetwork/interfaces.go:91-107 | success iff the driver is built from the options and the interface is configured |
| LibNic.DelNicFromContainer | libnetwork/interfaces.go:148-163 | success iff the driver is built from the options without the qlen and the interface is deleted |
| LibNic.ContainerOpsValidate | libnetwork/interfaces.go:68-107 | adding or updating a NIC inside the container succeeds only for a valid configuration |
| LibNic.DelIgnoresQlen | libnetwork/interfaces.go:148-163 | deleting a NIC does not hand the qlen to the driver, so it never matters |
| LibNic.OwnRecordFindsItself | libnetwork/interfaces.go:126 | in a store of distinct NICs, a stored NIC is removed at its own position |
| LibNic.RestoreKeepsWellFormed | libnetwork/interfaces.go:134 | putting a removed NIC back at the end keeps the store well formed and is a permutation of the old one |
| LibNic.AppendUnclashed | libnetwork/interfaces.go:45-57 | a NIC that clashes with none keeps the store well formed when appended, and its rollback gives the old store |
| LibNic.AddNicEffect | libnetwork/interfaces.go:29-64 | success appends exactly the NIC; any failure leaves the store as it was; the store stays well formed |
| LibNic.DelNicEffect | libnetwork/interfaces.go:110-145 | an unknown NIC is an error that changes nothing; otherwise the stored NIC is removed, and put back at the end when the driver fails (other than "failed to get host link by name") |
| LibNic.RemoveKeepsWellFormed | libnetwork/interfaces.go:126 | removing a NIC keeps the store well formed |
| LibNic.Merge | libnetwork/interfaces.go:176-229 | the merged NIC keeps the requested name and the stored type and host name |
| LibNic.MergeNothing | libnetwork/interfaces.go:184-229 | a request that sets nothing merges to the stored NIC itself |
| LibNic.FindByCtrName | libnetwork/interfaces.go:176-182 | the lookup by container name alone finds a NIC of that name |
| LibNic.UpdateNothing | libnetwork/interfaces.go:231-234 | a request that sets nothing changes nothing and flushes nothing |
| LibNic.UpdateNicEffect | libnetwork/interfaces.go:166-261 | a flush happens iff the store was touched without error; a touched store has the old NIC replaced (moved to the end) by the merge on success, or moved back unchanged on failure; otherwise it is unchanged; it stays well formed |
| LibNic.FoundIsStored | libnetwork/interfaces.go:180-182 | a NIC found by name is a stored NIC |
| LibNic.AddNic | libnetwork/interfaces.go:29-64 | the store and error of the add specification; the dirty flag is set when the store was touched |
| LibNic.DelNic | libnetwork/interfaces.go:110-145 | the store and error of the delete specification |
| LibNic.UpdateNic | libnetwork/interfaces.go:166-261 | the store, error and flush of the update specification |
| LibNic.ListNic | libnetwork/interfaces.go:264-275 | exactly the stored NICs that the filter matches |
| LibRoute.RuleAsWritten | libnetwork/route.go:72-105 | as written, the rule is refused only when src, gw and dev are all blank or the destination does not parse; an unparsable src or gw is dropped |
| LibRoute.RouteRule | libnetwork/route.go:72-105 | the intended rule has a src iff one was given and a gw iff one was given, and names at least one of src, gw, dev |
| LibRoute.IntendedRefinesWritten | libnetwork/route.go:72-105 | a rule the intended reading accepts is the one the written code builds; whatever the written code refuses, the intended reading refuses the same way |
| LibRoute.UnparsedSourceSlipsThrough | libnetwork/route.go:93-98 | a route whose only field is an unparsable src becomes an empty rule as written, and "failed to parse src ip" as intended |
| LibRoute.ContainerOpsNeedTarget | libnetwork/route.go:78-80 | adding or deleting a route with blank src, gw and dev fails with "src or gw or dev name is required"; the delete path checks the same at lines 181-183 |
| LibRoute.AddRouteToContainer | libnetwork/route.go:72-125 | a route the rule refuses fails with the rule's error before the namespace is entered; otherwise success iff entering the namespace, finding the link and adding the route all succeed |
| LibRoute.DelRouteFromContainer | libnetwork/route.go:175-231 | a route the rule refuses fails with the rule's error; otherwise success iff entering the namespace and finding the link succeed and the deletion succeeds or answers "no such process" |
| LibRoute.RollbackRestores | libnetwork/route.go:50-60 | the rollback of a route just stored gives the old route list |
| LibRoute.AddStepShape | libnetwork/route.go:46-66 | one route either is appended (and counted) or leaves the list unchanged with an error |
| LibRoute.AddRoutesPrefix | libnetwork/route.go:46-67 | the stored routes grow by exactly the routes added before the first failure; no error iff all were added |
| LibRoute.AddRoutesWith | libnetwork/route.go:46-67 | the loop leaves the route list, dirty flag and error of the specification fold |
| LibRoute.AddRoutes | libnetwork/route.go:33-68 | routes inserted into the container only when not update-config-only and running; store and error of the specification |
| LibRoute.SameRouteTransitive | libnetwork/route.go:147 | route matching is transitive |
| LibRoute.StepDrop | libnetwork/route.go:147-151 | removing each matched route in turn finds it and drops the next match |
| LibRoute.DelEachDrops | libnetwork/route.go:147-163 | after the matched routes, all matches are gone except those whose container deletion failed, which are re-appended in order with their errors |
| LibRoute.DelOneDrops | libnetwork/route.go:148-160 | one matched route is dropped, and re-appended with its error when its deletion fails |
| LibRoute.DropAllMatches | libnetwork/route.go:147 | dropping all matches in turn is filtering them out |
| LibRoute.DelFilterEffect | libnetwork/route.go:141-164 | an unknown route adds one "not added" error; otherwise the matches are filtered out, the failed ones re-appended, their errors collected |
| LibRoute.DelFilterConfigOnly | libnetwork/route.go:147-163 | with update-config-only every match is simply removed and no error added |
| LibRoute.DelMatched | libnetwork/route.go:147-163 | the inner loop as the specification gives |
| LibRoute.DelOneFilter | libnetwork/route.go:141-164 | one requested route as the specification gives |
| LibRoute.DelRoutesWith | libnetwork/route.go:141-164 | the outer loop as the specification fold gives |
| LibRoute.DelRoutes | libnetwork/route.go:127-172 | the store and the aggregated error of the specification |
| NicDriver.Driver.constructor | libnetwork/drivers/driver.go:54 | a new driver has every field blank |
| NicDriver.Driver.Apply | libnetwork/drivers/driver.go:83-167 | one option sets the driver's fields as the option specification gives, or leaves them and returns its error |
| NicDriver.ApplyOption | libnetwork/drivers/driver.go:83-167 | an option fails exactly when its check fails, with that check's error |
| NicDriver.BlankOptionsSetNothing | libnetwork/drivers/driver.go:84-167 | a blank MAC or namespace path sets nothing; a blank bridge or container name sets the empty text |
| NicDriver.NumericBounds | libnetwork/drivers/driver.go:139-159 | an MTU is accepted iff at least 68 and a qlen iff non-negative, and then stored as given |
| NicDriver.FirstError | libnetwork/drivers/driver.go:74-81 | no error iff every option passes; otherwise the error of the first failing option |
| NicDriver.ApplyAllError | libnetwork/drivers/driver.go:74-81 | processing the options returns exactly the first option error |
| NicDriver.ProcessOptions | libnetwork/drivers/driver.go:74-81 | the loop leaves the fields and error of applying the options in order, stopping at the first failure |
| NicDriver.KindOf | libnetwork/drivers/driver.go:59-68 | "" and "veth" are veth, "eth" is eth, anything else (sriov, dpdk included) is "network interface type not supported" |
| NicDriver.NewOutcome | libnetwork/drivers/driver.go:53-69 | an option error comes first; otherwise success iff the type is known, else the unsupported-type error |
| NicDriver.New | libnetwork/drivers/driver.go:53-69 | the driver or error the specification gives |
| Transfer.SpecDirOf | utils/transfer.go:157-160 | a container's spec directory is /.sharedpath/master/<id> |
| Transfer.MidDirOf | utils/transfer.go:162-165 | a container's middle directory is /.sharedpath/midpath/<id> |
| Transfer.RelativePathOf | utils/transfer.go:145-147 | the path the container sees is /.sharedpath/<digest of the host path> |
| Transfer.MidPathOf | utils/transfer.go:148-152 | the middle path is /.sharedpath/midpath/<id>/<digest> |
| Transfer.TransferPathOf | utils/transfer.go:148-152 | the transfer path is /.sharedpath/master/<id>/<digest> |
| Transfer.TransferPathsDistinct | utils/transfer.go:148-155 | host paths with different digests get different middle and transfer paths |
| Transfer.PrepareMountpoint | utils/transfer.go:93-115 | a directory mount point is made with MkdirAll, a file one in its made parent; nothing is mounted unless the target is known unmounted; success mounts the source there unless it already was mounted |
| Transfer.ReleaseMountpoint | utils/transfer.go:55-67 | a missing path is success with nothing done; otherwise an unmount (failure only logged) and a RemoveAll whose error is returned |
| Transfer.RemoveTransferPath | utils/transfer.go:69-79 | always success; releases the middle path, then the transfer path; nothing done when neither exists |
| Transfer.PrepareTransferPath | utils/transfer.go:117-143 | the bind gets ",bind" and its resolved path; without mounting nothing is done; a propagation error stops first; then the middle and the transfer mount points in order, the first failure returned |
| Transfer.MarkedIsBind | utils/transfer.go:121 | the marked bind's mount options always include "bind" |
| Transfer.MarkedTwice | utils/transfer.go:121 | marking is not idempotent: a second call appends ",bind" again |
| Mounter.MountCalls | pkg/mount/mounter_linux.go:26-44 | the first call has the flags without propagation flags; a read-only bind is then remounted; otherwise propagation flags get their own call on "none" |
| Mounter.Mount | pkg/mount/mounter_linux.go:26-44 | the calls made are a prefix of the planned ones, stopping at the first failing call, whose error is returned |
| Mounter.ReadOnlyBindNoPropagationCall | pkg/mount/mounter_linux.go:36-39 | a read-only bind never makes a propagation-only call |
| Mounter.MountFlagsCovered | pkg/mount/mounter_linux.go:26-44 | every non-propagation flag is in the first call, and every flag in some call |
| Mounter.NearestMount | pkg/mount/mounter_linux.go:105-115 | the mount found is one of the listed mounts |
| Mounter.FirstMountAt | pkg/mount/mounter_linux.go:106-110 | the first listed mount at exactly the path, or none |
| Mounter.GetSource | pkg/mount/mounter_linux.go:94-117 | symlink and mount-table errors are returned; otherwise the nearest mounted ancestor and its optional fields, or "Could not find mount" |
| Mounter.FirstTagMeaning | pkg/mount/mounter_linux.go:75-84 | the source mount counts as shared iff a "shared:" field comes before any "master:" field, and as untagged iff there is neither |
| Mounter.PropagationItems | pkg/mount/mounter_linux.go:55-65 | the option loop records "bind", "shared" and "slave" exactly when that exact item occurs |
| Mounter.MountTags | pkg/mount/mounter_linux.go:75-84 | the optional-field loop stops at the first "shared:" or "master:" field and reports which one it was |
| Mounter.PropagationVerdict | pkg/mount/mounter_linux.go:52-92 | no "bind": fine; a lookup error is returned; "shared" needs a shared source; "slave" a shared or slave source; otherwise fine |
| Mounter.ValidMountPropagation | pkg/mount/mounter_linux.go:52-92 | the option loop and checks give the verdict |
| Mounter.RecursiveVariantsUnchecked | pkg/mount/mounter_linux.go:55-65 | "rshared" and "rslave" are not checked at all |
| SELinux.SeconfigGet | utils/selinux.go:46-70 | the value of the first non-comment line that splits at '=' into exactly the key and one value; no such line is "Parse SELinux config file err" |
| SELinux.SeconfigSet | utils/selinux.go:72-106 | the text written is every line followed by "\n", each setting of the key replaced by "key=value" |
| SELinux.TextLineCount | utils/selinux.go:82-101 | the text written has one line break per line read |
| SELinux.SetKeepsOtherLines | utils/selinux.go:82-101 | every setting of the key is replaced, every other line (comments included) kept, and no line added or dropped |
| SELinux.WrittenIsSetting | utils/selinux.go:92-94 | the written line is a setting of the key whose value reads back as the new value |
| SELinux.SetIdempotent | utils/selinux.go:72-106 | setting the same value twice is setting it once |
| SELinux.GetAfterSet | utils/selinux.go:46-106 | after setting a key that was present, reading it gives the new value |
| SELinux.FirstSettingAt | utils/selinux.go:55-65 | the first setting line of the key decides the value read |
| SELinux.ContextRoundTrip | utils/selinux.go:152-179 | a context with at least four ':'-parts prints back as the text it was made from |
| SELinux.SetTypeText | utils/selinux.go:152-160 | after setting the type, the text has the new third part and the other parts unchanged |
| SELinux.EmptyContextText | utils/selinux.go:152-172 | an empty context prints as ":::" |
| SELinux.Context.constructor | utils/selinux.go:167-179 | the context holds the four parts of the text (none for the empty text) |
| SELinux.Context.SetType | utils/selinux.go:157-165 | only the type changes, and reading it gives the new type |
| SELinux.GetSelinuxMountPoint | utils/selinux.go:123-135 | "/sys/fs/selinux" exactly when "/selinux" does not exist under the rootfs and "/sys/fs/selinux" does; "/selinux" otherwise |
| Hooks.CalcPathForDeviceParses | hooks/isulad-hooks/prestart.go:55-58 | the stored device, re-rooted, parses back to its host path, its container path under the root file system, and its stored permissions ("rwm" when none were stored) |
| Hooks.CalcPathForBindFields | hooks/isulad-hooks/prestart.go:60-69 | re-rooting a stored bind fails exactly when the text holds fewer than two ':' |
| Hooks.CalcPathForStoredBind | hooks/isulad-hooks/prestart.go:60-69 | a stored "host:container:options" bind whose paths hold no ':' is re-rooted field by field, host path and options unchanged |
| Hooks.UdevLock | pkg/udevd/udevd_controller.go:84-105 | locking fails only for a controller that uses udevd, and then exactly when opening or locking the lock file fails |
| Hooks.StringToBind | hooks/syscontainer-hooks/poststop.go:109-123 | a successful re-parse has absolute host and container paths and no resolved path, and needs two ':' in the stored text; a text with fewer fails with the "Re-Calculate bind" error |
| Hooks.StoredBindRerooted | hooks/syscontainer-hooks/poststop.go:109-123 | a stored bind that parses again keeps its cleaned host path and options, and its container path is the stored one under the root file system |
| Prestart.CallsStopAtFirstFailure | hooks/isulad-hooks/prestart.go:339-344 | a loop of calls that returns on the first error makes every call up to and including the first failing one and returns its error; with no failure it makes them all and succeeds |
| Prestart.MakeCalls | hooks/isulad-hooks/prestart.go:339-344 | the loop makes exactly the calls, and returns exactly the error, of the stop-at-first-failure fold |
| Prestart.SharePath | hooks/isulad-hooks/prestart.go:166-182 | sharing the path leaves the stored configuration and its dirty flag as they were |
| Prestart.SharedBindPaths | hooks/isulad-hooks/prestart.go:172-176 | the shared bind is a directory whose host path is the container's directory under the transfer master path |
| Prestart.AdjustUsernsSpec | hooks/isulad-hooks/prestart.go:331-446 | adjusting the user namespace leaves the stored configuration and its dirty flag as they were |
| Prestart.AdjustUsernsOutcome | hooks/isulad-hooks/prestart.go:331-352 | without uid or gid mappings nothing is done; otherwise every sysctl is written up to the first failure, whose error is returned; after all succeed the only error left is the storage path lookup's |
| Prestart.AdjustUserns | hooks/isulad-hooks/prestart.go:331-446 | the calls and error are those of the specification; on success the device list is the spec's, grown by runc's two devices once per /dev tmpfs mount when /dev is remounted |
| Prestart.Remount | hooks/isulad-hooks/prestart.go:354-443 | the mounts made are those of each /dev tmpfs mount in order, each seeing the device list grown so far, and the device list is grown by runc's devices once per such mount |
| Prestart.DeviceCalls | hooks/isulad-hooks/prestart.go:111-136 | the calls for one device leave the stored configuration untouched and keep every udev rule's container id at least 8 characters long |
| Prestart.DeviceCallsFacts | hooks/isulad-hooks/prestart.go:111-136 | for any pass, the calls for one device keep the configuration and the udev rule ids, and when they succeed they are: add the device owned by the container's root, then allow it in the cgroup |
| Prestart.DevicesLoop | hooks/isulad-hooks/prestart.go:95-137 | the device loop changes only the stored device list, keeps its length, and leaves the entries not yet visited as they were |
| Prestart.DevicesLongIds | hooks/isulad-hooks/prestart.go:116-122 | every udev rule added over the loop carries a container id at least 8 characters long |
| Prestart.DevicesHealed | hooks/isulad-hooks/prestart.go:104-109 | after a loop that succeeds, every visited entry resolved and now carries its device's current major and minor |
| Prestart.DevicesDirty | hooks/isulad-hooks/prestart.go:104-109 | after a loop that succeeds, the configuration is dirty exactly when it was before or some visited entry had stale numbers |
| Prestart.DevicesSteps | hooks/isulad-hooks/prestart.go:95-137 | after a loop that succeeds, the calls made are, in order, those for each visited entry |
| Prestart.AddDevicesSpec | hooks/isulad-hooks/prestart.go:72-139 | adding the devices changes only the stored device list and keeps its length |
| Prestart.AddDevicesHeals | hooks/isulad-hooks/prestart.go:72-139 | when the hook succeeds, every stored device carries its current numbers and the dirty flag is set exactly when some stored numbers were stale |
| Prestart.AddDevicesCalls | hooks/isulad-hooks/prestart.go:72-139 | when the hook succeeds, its calls begin with, for every stored device in order, the device add then the cgroup permission update |
| Prestart.MakeDeviceCalls | hooks/isulad-hooks/prestart.go:111-136 | the calls made for one device, and the udev controller's new rules and dirty flag, are those of the specification, and rule ids stay long |
| Prestart.AddDeviceOne | hooks/isulad-hooks/prestart.go:96-136 | one turn of the device loop updates the hook configuration and the udev controller as the specification's step does |
| Prestart.AddDevicesLoop | hooks/isulad-hooks/prestart.go:95-137 | the loop leaves the hook configuration, the calls, the error and the udev controller as the device-loop fold does |
| Prestart.SaveOnExit | hooks/isulad-hooks/prestart.go:89-93 | the rules are written on exit exactly when udevd is in use and the rules changed |
| Prestart.AddDevices | hooks/isulad-hooks/prestart.go:72-139 | the new hook configuration, calls and error are those of the specification |
| Prestart.BindStepsBind | hooks/isulad-hooks/prestart.go:146-161 | a stored bind that parses is bind-mounted once, with its transfer-marked form; one that does not parse is skipped |
| Prestart.AddBindsBindEach | hooks/isulad-hooks/prestart.go:146-161 | the binds mounted are exactly, in order, the marked forms of the stored binds that parse |
| Prestart.AddBind | hooks/isulad-hooks/prestart.go:147-160 | the calls for one stored bind are those of the specification |
| Prestart.AddBinds | hooks/isulad-hooks/prestart.go:142-163 | the calls are those of every stored bind in order, and the step never fails |
| Prestart.QosStep | hooks/isulad-hooks/prestart.go:190-199 | one QoS entry's turn touches only that entry of that kind |
| Prestart.QosLoop | hooks/isulad-hooks/prestart.go:190-199 | the loop over one kind touches only that kind and leaves the entries not yet visited as they were |
| Prestart.KindsLoop | hooks/isulad-hooks/prestart.go:185-245 | the loops over the kinds touch only those kinds |
| Prestart.QosLoopHealed | hooks/isulad-hooks/prestart.go:472-481 | after a loop that succeeds, every visited entry carries its path's current major and minor |
| Prestart.QosLoopDirty | hooks/isulad-hooks/prestart.go:472-481 | after a loop that succeeds, the configuration is dirty exactly when it was before or some visited entry had stale numbers |
| Prestart.QosLoopSteps | hooks/isulad-hooks/prestart.go:190-199 | after a loop that succeeds, one blkio write is made per visited entry, with its renumbered value |
| Prestart.QosKindSucceeds | hooks/isulad-hooks/prestart.go:190-199 | a whole kind that succeeds is renumbered, marks the configuration dirty when any entry was stale, and writes every entry |
| Prestart.KindsHealed | hooks/isulad-hooks/prestart.go:185-245 | over distinct kinds that succeed, every kind is renumbered |
| Prestart.KindsDirty | hooks/isulad-hooks/prestart.go:185-245 | over distinct kinds that succeed, the configuration is dirty exactly when it was before or some entry of some kind was stale |
| Prestart.KindsSteps | hooks/isulad-hooks/prestart.go:185-245 | over distinct kinds that succeed, the writes are every kind's entries in turn |
| Prestart.QosOrderComplete | hooks/isulad-hooks/prestart.go:185-245 | the hook visits each of the five QoS kinds, and each once |
| Prestart.UpdateQosHeals | hooks/isulad-hooks/prestart.go:185-245 | updating the QoS never changes the binds, devices, interfaces or routes; when it succeeds every QoS entry of every kind carries its current numbers and the dirty flag is set exactly when some entry was stale |
| Prestart.UpdateQosWrites | hooks/isulad-hooks/prestart.go:185-245 | when the update succeeds, the writes are read IOPS, write IOPS, read bps, write bps then weight, each entry once |
| Prestart.UpdateQosEntry | hooks/isulad-hooks/prestart.go:191-198 | one entry's turn updates the hook configuration, calls and error as the specification's step |
| Prestart.UpdateQosTurn | hooks/isulad-hooks/prestart.go:191-198 | one turn of the loop over a kind takes the hook configuration, calls and error from the fold over the first i entries to the fold over i + 1 entries |
| Prestart.UpdateQosKind | hooks/isulad-hooks/prestart.go:190-199 | the loop over one kind leaves the hook configuration, calls and error as the one-kind fold |
| Prestart.UpdateQos | hooks/isulad-hooks/prestart.go:185-245 | the new hook configuration, calls and error are those of the specification |
| Prestart.UpdateNetworkSpec | hooks/isulad-hooks/prestart.go:248-283 | updating the network leaves the stored configuration and its dirty flag as they were |
| Prestart.UpdateNetworkSucceeds | hooks/isulad-hooks/prestart.go:248-283 | the update succeeds exactly when the netns file is made and mounted and every stored interface and route is added; then the calls are the netns bind, every interface, then every route |
| Prestart.UpdateNetworkSteps | hooks/isulad-hooks/prestart.go:264-281 | a successful update makes the netns bind, then adds every interface in order, then every route |
| Prestart.UpdateNetworkStopsAtNic | hooks/isulad-hooks/prestart.go:269-274 | the first interface that fails to be added ends the update with its error, after the interfaces before it, and no route is added |
| Prestart.UpdateNetwork | hooks/isulad-hooks/prestart.go:248-283 | the calls and error are those of the specification |
| Prestart.ModuleArgsItems | hooks/isulad-hooks/prestart.go:294-304 | the module list is the non-empty items in order when every one is a valid name; otherwise it is the error naming the first invalid item |
| Prestart.KeptItemsValid | hooks/isulad-hooks/prestart.go:324-328 | every module kept is a non-empty name of letters, digits, '-' and '_' |
| Prestart.DynLoadModuleArgs | hooks/isulad-hooks/prestart.go:286-322 | without a KERNEL_MODULES entry nothing is done; with one, an invalid item is an error naming it, no module does nothing, and otherwise modprobe is called once with "-a" and the valid modules |
| Prestart.DynLoadModuleFirstEntry | hooks/isulad-hooks/prestart.go:289-307 | only the first KERNEL_MODULES entry counts: entries after it change nothing |
| Prestart.ModuleList | hooks/isulad-hooks/prestart.go:294-304 | the loop over the items computes the module list of the specification |
| Prestart.DynLoadModule | hooks/isulad-hooks/prestart.go:286-322 | the calls and error are those of the specification |
| Prestart.RunActionKeeps | hooks/isulad-hooks/prestart.go:463-468 | no prestart action changes the stored binds, interfaces or routes, or the number of stored devices |
| Prestart.PrestartKeeps | hooks/isulad-hooks/prestart.go:449-470 | the whole prestart hook keeps the stored binds, interfaces and routes and the number of stored devices |
| Prestart.PrestartStops | hooks/isulad-hooks/prestart.go:463-468 | once an action fails, no later action runs and the hook returns that error |
| Prestart.PrestartRelabelLast | hooks/isulad-hooks/prestart.go:460-462 | with relabelling, the relabel runs last and only when every other action succeeded |
| Prestart.RunOne | hooks/isulad-hooks/prestart.go:464-467 | one action updates the hook configuration, calls and error as the specification |
| Prestart.PrestartHook | hooks/isulad-hooks/prestart.go:449-470 | the new hook configuration, calls and error are those of the specification |
| Poststop.UnruleStep | hooks/syscontainer-hooks/poststop.go:48-71 | removing one stored device's rule keeps every remaining rule's container id at least 8 characters long |
| Poststop.UnruleLoop | hooks/syscontainer-hooks/poststop.go:48-72 | the loop over the stored devices keeps every remaining rule's container id long |
| Poststop.UnruleLoopFails | hooks/syscontainer-hooks/poststop.go:48-72 | the loop succeeds exactly when no stored block device's type lookup fails; devices that do not parse, and character devices, are skipped |
| Poststop.RemovedFrom | pkg/udevd/udevd_controller.go:130-160 | removing a rule adds no rule |
| Poststop.RemovedKeeps | pkg/udevd/udevd_controller.go:130-160 | removing a rule keeps every rule that is not the same rule |
| Poststop.UnruleClears | hooks/syscontainer-hooks/poststop.go:48-72 | when the loop succeeds over a list without duplicates, the list stays without duplicates and holds no rule of a stored disk |
| Poststop.UnruleKeeps | hooks/syscontainer-hooks/poststop.go:48-72 | the loop removes rules only: every remaining rule was there before, and every rule that is not a stored disk's stays |
| Poststop.UnruleDirty | hooks/syscontainer-hooks/poststop.go:65-71 | the rule list never grows, and it is marked dirty exactly when it was before or it shrank |
| Poststop.UnruleAll | hooks/syscontainer-hooks/poststop.go:37-75 | after the rules are loaded and the devices visited, every rule's container id is at least 8 characters long |
| Poststop.RemoveUdevRuleFails | hooks/syscontainer-hooks/poststop.go:37-75 | removing the rules succeeds exactly when locking succeeds (it can fail only when udevd is in use), the rules load when udevd is in use, and no stored block device's type lookup fails |
| Poststop.RemoveUdevRuleEffect | hooks/syscontainer-hooks/poststop.go:37-75 | when it succeeds with udevd in use, the rules kept are exactly the loaded rules other than the stored disks', and they are saved exactly when some rule was removed |
| Poststop.UdevAppends | hooks/syscontainer-hooks/poststop.go:37-75 | removing the rules appends its calls to the earlier ones and what it does does not depend on them |
| Poststop.UnruleOne | hooks/syscontainer-hooks/poststop.go:49-71 | one device's turn updates the controller's rules, dirty flag and error as the specification's step |
| Poststop.UnruleDevices | hooks/syscontainer-hooks/poststop.go:48-72 | the loop leaves the controller's rules, dirty flag and error as the fold over the stored devices |
| Poststop.RemoveUdevRule | hooks/syscontainer-hooks/poststop.go:37-75 | the calls and error are those of the specification |
| Poststop.NicsAdded | hooks/isulad-hooks/prestart.go:248-283 | the prestart network step mounts the container's netns file first, then adds exactly the stored interfaces, in order |
| Poststop.NicsDeleted | hooks/syscontainer-hooks/poststop.go:78-107 | once the netns file opens, every stored interface is deleted in order, whatever fails, and then the netns file is unmounted and removed |
| Poststop.NetworkUndone | hooks/syscontainer-hooks/poststop.go:78-107 | the interfaces the poststop hook deletes are exactly those the prestart hook added, and the file it unmounts is the one prestart mounted |
| Poststop.RemoveNetworkDevices | hooks/syscontainer-hooks/poststop.go:78-107 | the calls and error are those of the specification |
| Poststop.RemoveNetworkDevicesSpec | hooks/syscontainer-hooks/poststop.go:78-107 | an error iff the netns file cannot be opened or unmounted; the calls follow the earlier ones, and once the file is open every stored interface is deleted, in order, before the unmount and the removal |
| Poststop.ReleaseWithin | utils/transfer.go:70-80 | releasing a bind's transfer path touches only paths inside the container's own transfer directories |
| Poststop.SpecPathWithin | utils/transfer.go:82-91 | removing the container's spec path touches only paths inside the container's own directories |
| Poststop.UnshareWithin | hooks/syscontainer-hooks/poststop.go:127-138 | undoing one stored bind touches only paths inside the container's own transfer directories |
| Poststop.RemoveSharedPathWithin | hooks/syscontainer-hooks/poststop.go:125-142 | removing the shared paths never fails, and every call it makes is a host call inside the container's own transfer directories |
| Poststop.SharedPathsMatch | hooks/syscontainer-hooks/poststop.go:125-142 | the transfer path the poststop hook removes for a stored bind is the one the prestart hook prepared for it |
| Poststop.Unshare | hooks/syscontainer-hooks/poststop.go:128-137 | the calls for one stored bind are those of the specification |
| Poststop.RemoveSharedPath | hooks/syscontainer-hooks/poststop.go:125-142 | the calls and error are those of the specification |
| Poststop.StopLoopFold | hooks/syscontainer-hooks/poststop.go:151-155 | each poststop action runs on its own: the loop is the fold that appends every action's calls and logs every action's error |
| Poststop.PoststopRunsAll | hooks/syscontainer-hooks/poststop.go:145-156 | every action runs whatever fails before it: the calls are the udev, network and shared-path calls then the relabel, and the errors logged are every action's, in order |
| Poststop.RelabelAlone | hooks/syscontainer-hooks/poststop.go:148-150 | the relabel action makes the relabel call and reports its error |
| Poststop.RunStopAction | hooks/syscontainer-hooks/poststop.go:152-154 | one action's calls and error are those of the specification |
| Poststop.PostStopHook | hooks/syscontainer-hooks/poststop.go:145-156 | the calls made and the errors logged are those of the specification |
| HookMain.PrepareOutcome | hooks/syscontainer-hooks/main.go:74-139 | preparing the hook data succeeds exactly when the state parses, the bundle's config.json loads in one of its two layouts, the storage path is known and any stored configuration loads; the data is then that state, spec and storage path, with an empty configuration when none is stored |
| HookMain.ConfigLayouts | hooks/syscontainer-hooks/main.go:89-109 | a config.json in the current layout is taken as it is; one in the compatible layout gives its spec with the one capability list copied into all five sets |
| HookMain.MissingConfigReported | hooks/syscontainer-hooks/main.go:89-96 | a bundle without config.json fails with the error naming that file |
| HookMain.PrepareHookData | hooks/syscontainer-hooks/main.go:74-139 | exactly one of data and error is returned, as the specification says; the data holds a fresh configuration that is not dirty |
| HookMain.UpdateWrites | hooks/syscontainer-hooks/main.go:200-231 | the configuration is written back exactly when it is dirty, the container lock is taken and the write succeeds, and then it is the configuration as the phase left it; the error returned is the lock's |
| HookMain.UpdateHookData | hooks/syscontainer-hooks/main.go:200-231 | what is written and the error are those of the specification |
| HookMain.PoststartHook | hooks/syscontainer-hooks/poststart.go:23-33 | the configuration, calls and error are those of the specification |
| HookMain.PoststartRunsNothing | hooks/syscontainer-hooks/poststart.go:23-33 | the poststart phase makes no call, changes nothing and never fails |
| HookMain.FinishStatus | hooks/syscontainer-hooks/main.go:175-181 | the exit status is 0 or 1, and 1 exactly when the phase or the write-back fails |
| HookMain.ExitStatus | hooks/syscontainer-hooks/main.go:141-198 | the hook exits with 1 exactly when prestart or poststart runs with a positive pid and the phase or the write-back fails; otherwise it exits with 0 |
| HookMain.WrittenStore | hooks/syscontainer-hooks/main.go:169-181 | a configuration is written back only after a prestart with a positive pid that succeeded and made it dirty, and it keeps the stored binds, interfaces and routes and the number of stored devices |
| HookMain.PoststopWritesNothing | hooks/syscontainer-hooks/main.go:195-196 | the poststop phase always exits with 0, writes nothing back and makes exactly the poststop hook's calls |
| HookMain.NothingDone | hooks/syscontainer-hooks/main.go:160-186 | when the data cannot be prepared, the mode is unknown, or prestart or poststart see a pid that is not positive, the hook exits with 0 without a call |
| HookMain.RunPhase | hooks/syscontainer-hooks/main.go:175-193 | running a phase and writing back gives the exit status, calls and written configuration of the specification |
| HookMain.RunData | hooks/syscontainer-hooks/main.go:169-197 | dispatching on the mode gives the exit status, calls and written configuration of the specification |
| HookMain.RunHook | hooks/syscontainer-hooks/main.go:141-198 | the whole hook gives the exit status, calls and written configuration of the specification |

## Left out

- JSON encoding and decoding (`Flush`, `LoadContainerHookConfig`, worker payloads, `ParseHookState`): the model works on the decoded records, and a decode failure is an oracle answer.
- The `flock` locks of the container and of the udev controller: taking the container's lock is a fallible oracle answer, and so is taking the udev controller's lock when udevd is in use (without udevd, `Lock` does nothing and cannot fail); releasing a lock is not modelled.
- Concurrency: the mutex in the bind index and the locks between processes are not modelled; everything runs single-threaded.
- Self-reexec, socket pairs and the netlink framing of namespace paths are not modelled. The worker's request and reply are records, and the exchange's failures are oracle answers.
- Cgroup file writes, lsblk, `DeviceFromPath`, readlink, stat, sysfs and `/proc/self/mountinfo` reads, `isula inspect`/`info`, modprobe, `udevadm` and `ovs-vsctl` are oracles. The model keeps only the decisions made around them.
- The syscalls inside the worker's handlers (mknod, mount, umount, chown, chmod, symlink, unlink) act on an abstract map from paths to nodes with injected faults. The handlers set the umask to 0, so the umask is not part of the state. Ownership and mode bits beyond what the handlers check are not modelled.
- Network link mechanics (eth and veth drivers, bridges, netlink, ethtool): interface and route calls inside the container are fallible oracles.
- `parseSize` works in floating point and is not modelled: the parsed size is an oracle answer.
- SHA-256 in the transfer paths is a function parameter. Where two paths must not collide, the lemmas ask for it to be injective.
- Random names (`RandomID`, `GenerateRandomName`) are parameters.
- The SELinux relabel actions (xattrs, setenforce, service files) are one step whose answer is a parameter. `BindMount`, `IsSystemdInit` and `Fatal` in utils/selinux.go are not part of this model.
- `PrepareHostPath` is one fallible step whose answer is a parameter.
- The command-line wiring of the tool, logging, syslog hooks and printed messages are not modelled. The exceptions are the flag defaults that `add-nic` and `update-nic` apply, which are in `NicCommand`.
- `ListPath` and `ListRoutes` only read the store back and are not modelled separately. The route filter they use is `ConfigNetwork.GetRoutes`.
- Go map iteration order (sysctl keys in `AdjustUserns`, the bind index maps) is fixed as the order of a sequence. The properties proved hold for every such order.
- A read error of the udev rule file's scanner is not modelled: the file is its list of lines.
- Hooks.StringToBind: the contract leaves the bind parser's own checks to `BindParse.ParseBind`'s lemmas and does not restate them.
- Prestart.AdjustUserns: the bind mounts and links made in the new /dev are fixed lists of calls whose failures are only logged. The contract covers the calls, the error and the device list, not the mount options' text.
- Rule files holding a rule whose container id is shorter than 8 characters make the Go code panic in `TrimContainerID`. The hooks and the udev controller require that every loaded rule's id has at least 8 characters (`UdevPre`, `LongIds`).
- BindParse.ParseBind: uses the corrected `UtilsHooks.HostIDFromMapping` (see Findings), so a mapping of Size 0 claims no id; as written, the uint32 bound at utils/hooks.go:128 lets the mapping {ContainerID 0, HostID 1000, Size 0} map container id 0 to host id 1000, which `UtilsHooks.HostIDFromMappingAsWritten` models.
- UtilsHooks.GetUIDGid: uses the corrected `UtilsHooks.HostIDFromMapping` (see Findings), so a mapping of Size 0 claims no id; as written, the uint32 bound at utils/hooks.go:128 lets the mapping {ContainerID 0, HostID 1000, Size 0} map container id 0 to host id 1000, which `UtilsHooks.HostIDFromMappingAsWritten` models.
- UtilsHooks.OwnerIDs: uses the corrected `UtilsHooks.HostIDFromMapping` (see Findings), so a mapping of Size 0 claims no id; as written, the uint32 bound at utils/hooks.go:128 lets the mapping {ContainerID 0, HostID 1000, Size 0} map container id 0 to host id 1000, which `UtilsHooks.HostIDFromMappingAsWritten` models.
- LibDevice.UpdateDeviceOwner: uses the corrected `UtilsHooks.HostIDFromMapping` (see Findings), so a mapping of Size 0 claims no id; as written, the uint32 bound at utils/hooks.go:128 lets the mapping {ContainerID 0, HostID 1000, Size 0} map container id 0 to host id 1000, which `UtilsHooks.HostIDFromMappingAsWritten` models.
- Prestart.AdjustUserns: uses the corrected `UtilsHooks.HostIDFromMapping` (see Findings), so a mapping of Size 0 claims no id; as written, the uint32 bound at utils/hooks.go:128 lets the mapping {ContainerID 0, HostID 1000, Size 0} map container id 0 to host id 1000, which `UtilsHooks.HostIDFromMappingAsWritten` models.
- Prestart.Remount: uses the corrected `UtilsHooks.HostIDFromMapping` (see Findings), so a mapping of Size 0 claims no id; as written, the uint32 bound at utils/hooks.go:128 lets the mapping {ContainerID 0, HostID 1000, Size 0} map container id 0 to host id 1000, which `UtilsHooks.HostIDFromMappingAsWritten` models.
- Prestart.DeviceCallsFacts: uses the corrected `UtilsHooks.HostIDFromMapping` (see Findings), so a mapping of Size 0 claims no id; as written, the uint32 bound at utils/hooks.go:128 lets the mapping {ContainerID 0, HostID 1000, Size 0} map container id 0 to host id 1000, which `UtilsHooks.HostIDFromMappingAsWritten` models.
- Prestart.AddDevices: uses the corrected `UtilsHooks.HostIDFromMapping` (see Findings), so a mapping of Size 0 claims no id; as written, the uint32 bound at utils/hooks.go:128 lets the mapping {ContainerID 0, HostID 1000, Size 0} map container id 0 to host id 1000, which `UtilsHooks.HostIDFromMappingAsWritten` models.
- UdevRules.ScanTags: uses the corrected `UdevRules.KernelName` and `UdevRules.TagStep` (see Findings), so a rule line whose KERNEL value is empty gives no rule; as written, pkg/udevd/udevd.go:95-100 panics on that line, which `UdevRules.TagStepAsWritten` models.
- UdevRules.ParseRuleLine: uses the corrected `UdevRules.KernelName` and `UdevRules.TagStep` (see Findings), so a rule line whose KERNEL value is empty gives no rule; as written, pkg/udevd/udevd.go:95-100 panics on that line, which `UdevRules.TagStepAsWritten` models.
- UdevRules.LoadRules: uses the corrected `UdevRules.KernelName` and `UdevRules.TagStep` (see Findings), so a rule line whose KERNEL value is empty gives no rule; as written, pkg/udevd/udevd.go:95-100 panics on that line, which `UdevRules.TagStepAsWritten` models.
- UdevRules.ReadRuleLine: uses the corrected `UdevRules.KernelName` and `UdevRules.TagStep` (see Findings), so a rule line whose KERNEL value is empty gives no rule; as written, pkg/udevd/udevd.go:95-100 panics on that line, which `UdevRules.TagStepAsWritten` models.
- UdevRules.ReadTags: uses the corrected `UdevRules.KernelName` and `UdevRules.TagStep` (see Findings), so a rule line whose KERNEL value is empty gives no rule; as written, pkg/udevd/udevd.go:95-100 panics on that line, which `UdevRules.TagStepAsWritten` models.
- UdevController.Controller.LoadRules: uses the corrected `UdevRules.KernelName` and `UdevRules.TagStep` (see Findings), so a rule line whose KERNEL value is empty gives no rule; as written, pkg/udevd/udevd.go:95-100 panics on that line, which `UdevRules.TagStepAsWritten` models.
- Prestart.AddDevices: loads the rule file, and so also uses the corrected `UdevRules.KernelName` and `UdevRules.TagStep` (see Findings), so a rule line whose KERNEL value is empty gives no rule; as written, pkg/udevd/udevd.go:95-100 panics on that line, which `UdevRules.TagStepAsWritten` models.
- Poststop.RemoveUdevRule: loads the rule file, and so uses the corrected `UdevRules.KernelName` and `UdevRules.TagStep` (see Findings), so a rule line whose KERNEL value is empty gives no rule; as written, pkg/udevd/udevd.go:95-100 panics on that line, which `UdevRules.TagStepAsWritten` models.
- LibRoute.AddRouteToContainer: uses the corrected `LibRoute.RouteRule` (see Findings), so a route with an unparsable source or gateway is refused; as written, libnetwork/route.go:93-105 and 196-208 drop that field and go on, which `LibRoute.RuleAsWritten` models.
- LibRoute.DelRouteFromContainer: uses the corrected `LibRoute.RouteRule` (see Findings), so a route with an unparsable source or gateway is refused; as written, libnetwork/route.go:93-105 and 196-208 drop that field and go on, which `LibRoute.RuleAsWritten` models.
- LibRoute.AddRoutes: uses the corrected `LibRoute.RouteRule` (see Findings), so a route with an unparsable source or gateway is refused; as written, libnetwork/route.go:93-105 and 196-208 drop that field and go on, which `LibRoute.RuleAsWritten` models.
- LibRoute.DelRoutes: uses the corrected `LibRoute.RouteRule` (see Findings), so a route with an unparsable source or gateway is refused; as written, libnetwork/route.go:93-105 and 196-208 drop that field and go on, which `LibRoute.RuleAsWritten` models.
- Prestart.UpdateNetworkSucceeds: uses the corrected `LibRoute.RouteRule` (see Findings), so a route with an unparsable source or gateway is refused; as written, libnetwork/route.go:93-105 and 196-208 drop that field and go on, which `LibRoute.RuleAsWritten` models.
- Prestart.UpdateNetwork: uses the corrected `LibRoute.RouteRule` (see Findings), so a route with an unparsable source or gateway is refused; as written, libnetwork/route.go:93-105 and 196-208 drop that field and go on, which `LibRoute.RuleAsWritten` models.
- LibRoute.AddRoutesWith: the loop is proved for any container operation; `LibRoute.AddRoutes` gives it the one built on the corrected `LibRoute.RouteRule` (see Findings), not the written rule of libnetwork/route.go:93-105.
- LibRoute.DelRoutesWith: the loop is proved for any container operation; `LibRoute.DelRoutes` gives it the one built on the corrected `LibRoute.RouteRule` (see Findings), not the written rule of libnetwork/route.go:196-208.
- ContainerInfo.PidOf: the error text is "failed to convert <text> to int"; Go quotes the text with `%q` and appends strconv's own error (container/container.go:185), which are library formatting and not modelled.

## Findings

| source | as written | input that shows it | evidently intended | confidence | as-written member | corrected member |
|---|---|---|---|---|---|---|
| utils/utils.go:99-104 | the udp branch declares a new `serviceAddr` with `:=`, shadowing the result, so the address and its default are lost | "udp://h" gives type "udp" with address "" | "udp://h" gives address "h"; "udp://" gives the default udp service | high; not executed | SyslogService.ParseSyslogServiceAsWritten, SyslogService.UdpAddressLost | SyslogService.ParseSyslogService |
| utils/hooks.go:128 | the upper bound `ContainerID + Size - 1` is uint32 arithmetic, so `Size` 0 with `ContainerID` 0 wraps to 2^32-1 and the empty mapping claims every id | id 5 with the mapping {ContainerID 0, HostID 1000, Size 0} maps to 1005 | an empty mapping claims no id, so the result is -1 | medium; not executed | UtilsHooks.HostIDFromMappingAsWritten, UtilsHooks.EmptyMappingMatchesAll | UtilsHooks.HostIDFromMapping |
| pkg/udevd/udevd.go:95-100 | the KERNEL tag's value is cut with `sub[:len(sub)-1]`, which panics on an empty value | a rule file line `KERNEL==""` | an incomplete line is skipped, as lines missing other fields are | medium; not executed | UdevRules.KernelNameAsWritten, UdevRules.EmptyKernelPanics | UdevRules.KernelName, UdevRules.TagStep |
| libnetwork/route.go:93-105 | after `net.ParseIP` of the source and of the gateway, the `err` tested is the one left over from the destination, so an unparsable source or gateway is silently dropped; the same code is at route.go:196-208 | a route whose only field is a source that `net.ParseIP` refuses, such as "x", becomes a rule with no destination, source, gateway or device | an unparsable source or gateway is refused with "failed to parse src ip" or "failed to parse gw ip" | high; not executed | LibRoute.RuleAsWritten, LibRoute.UnparsedSourceSlipsThrough | LibRoute.RouteRule |

// The searches and list edits behind the network part of the hook
// configuration (config/config_network.go), as functions over the stored
// interface and route lists.
module ConfigNetwork {
  import opened Wrappers
  import opened Seqs
  import opened NetworkTypes

  /** `MaxNicNum`: the cap on stored interfaces. */
  const MaxNicNum := 128

  /** The match of `FindInterfaceByName`: the type agrees unless the query
    * leaves it empty, and either the container name agrees (with the host
    * name empty or equal) or the host name agrees (with the container name
    * empty or equal). */
  predicate NameMatches(nic: InterfaceConf, e: InterfaceConf)
  {
    (nic.typ == e.typ || nic.typ == "") &&
    ((nic.ctrNicName == e.ctrNicName && (nic.hostNicName == "" || nic.hostNicName == e.hostNicName)) ||
     (nic.hostNicName == e.hostNicName && (nic.ctrNicName == "" || nic.ctrNicName == e.ctrNicName)))
  }

  /** `FindInterfaceByName`: the first stored interface the query names. */
  function FindInterfaceByName(nics: seq<InterfaceConf>, nic: InterfaceConf): (r: Option<InterfaceConf>)
    ensures r.None? <==> forall i :: 0 <= i < |nics| ==> !NameMatches(nic, nics[i])
    ensures r.Some? ==> exists i :: 0 <= i < |nics| && nics[i] == r.value && NameMatches(nic, nics[i]) &&
                                    forall j :: 0 <= j < i ==> !NameMatches(nic, nics[j])
  {
    match FirstIndex(nics, e => NameMatches(nic, e))
    case None => None
    case Some(i) => Some(nics[i])
  }

  /** A name match always shares the container name or the host name. */
  lemma NameMatchShares(nic: InterfaceConf, e: InterfaceConf)
    requires NameMatches(nic, e)
    ensures e.ctrNicName == nic.ctrNicName || e.hostNicName == nic.hostNicName
  {
  }

  /** An interface just appended is found by its own names. */
  lemma AppendThenFind(nics: seq<InterfaceConf>, nic: InterfaceConf)
    ensures FindInterfaceByName(nics + [nic], nic).Some?
  {
    assert NameMatches(nic, (nics + [nic])[|nics|]);
  }

  /** `GetNics`: the stored interfaces the filter matches, in stored order. */
  function GetNics(nics: seq<InterfaceConf>, filter: InterfaceConf): (r: seq<InterfaceConf>)
    ensures |r| <= |nics|
    ensures forall i :: 0 <= i < |r| ==> IsSameNic(filter, r[i]) && r[i] in nics
    ensures forall i :: 0 <= i < |nics| && IsSameNic(filter, nics[i]) ==> nics[i] in r
  {
    Filter(nics, e => IsSameNic(filter, e))
  }

  /** `GetRoutes`: the stored routes the filter matches, in stored order. */
  function GetRoutes(routes: seq<Route>, filter: Route): (r: seq<Route>)
    ensures |r| <= |routes|
    ensures forall i :: 0 <= i < |r| ==> IsSameRoute(filter, r[i]) && r[i] in routes
    ensures forall i :: 0 <= i < |routes| && IsSameRoute(filter, routes[i]) ==> routes[i] in r
  {
    Filter(routes, e => IsSameRoute(filter, e))
  }

  /** The all-empty filter lists everything. */
  lemma EmptyFilterListsAll(nics: seq<InterfaceConf>, routes: seq<Route>)
    ensures GetNics(nics, EmptyNic) == nics
    ensures GetRoutes(routes, EmptyRoute) == routes
  {
    FilterAll(nics, e => IsSameNic(EmptyNic, e));
    FilterAll(routes, e => IsSameRoute(EmptyRoute, e));
  }

  /** Listing after an append lists the old matches, then the new entry if
    * the filter takes it. */
  lemma GetAfterAppend(nics: seq<InterfaceConf>, nic: InterfaceConf, filter: InterfaceConf,
                       routes: seq<Route>, route: Route, rfilter: Route)
    ensures GetNics(nics + [nic], filter) ==
            GetNics(nics, filter) + (if IsSameNic(filter, nic) then [nic] else [])
    ensures GetRoutes(routes + [route], rfilter) ==
            GetRoutes(routes, rfilter) + (if IsSameRoute(rfilter, route) then [route] else [])
  {
    FilterAppend(nics, [nic], e => IsSameNic(filter, e));
    assert [nic][1..] == [];
    FilterAppend(routes, [route], e => IsSameRoute(rfilter, e));
    assert [route][1..] == [];
  }

  /** `IsConflictInterface`: the error for the first stored interface that
    * clashes with `nic`. */
  function IsConflictInterface(nics: seq<InterfaceConf>, nic: InterfaceConf): (r: Option<string>)
    ensures r.None? <==> forall i :: 0 <= i < |nics| ==> !NicsClash(nic, nics[i])
    ensures r.Some? ==> exists i :: 0 <= i < |nics| && r == IsConflictNic(nic, nics[i]) &&
                                    forall j :: 0 <= j < i ==> !NicsClash(nic, nics[j])
    decreases |nics|
  {
    if |nics| == 0 then None
    else
      match IsConflictNic(nic, nics[0])
      case Some(e) => Some(e)
      case None =>
        var r := IsConflictInterface(nics[1..], nic);
        assert forall i :: 1 <= i < |nics| ==> nics[i] == nics[1..][i - 1];
        r
  }

  /** `IsSameInterface`: some stored interface matches `nic` as a filter. */
  function IsSameInterface(nics: seq<InterfaceConf>, nic: InterfaceConf): (r: bool)
    ensures r <==> exists i :: 0 <= i < |nics| && IsSameNic(nic, nics[i])
  {
    FirstIndex(nics, e => IsSameNic(nic, e)).Some?
  }

  /** `IsRouteExist`: some stored route matches `route` as a filter. */
  function IsRouteExist(routes: seq<Route>, route: Route): (r: bool)
    ensures r <==> exists i :: 0 <= i < |routes| && IsSameRoute(route, routes[i])
  {
    FirstIndex(routes, e => IsSameRoute(route, e)).Some?
  }

  /** `IsConflictRoute` of the store: the "already exist" error of the first
    * stored route the new one matches. */
  function IsConflictRoute(routes: seq<Route>, route: Route): (r: Option<string>)
    ensures r.None? <==> forall i :: 0 <= i < |routes| ==> !IsSameRoute(route, routes[i])
    ensures r.Some? ==> r.value == "route " + RouteString(route) + " alread exist"
    decreases |routes|
  {
    if |routes| == 0 then None
    else
      match NetworkTypes.IsConflictRoute(route, routes[0])
      case Some(e) => Some(e)
      case None =>
        var r := IsConflictRoute(routes[1..], route);
        assert forall i :: 1 <= i < |routes| ==> routes[i] == routes[1..][i - 1];
        r
  }

  /** A route conflicts with the store exactly when it already exists there. */
  lemma ConflictIsExist(routes: seq<Route>, route: Route)
    ensures IsConflictRoute(routes, route).Some? <==> IsRouteExist(routes, route)
  {
  }

  /** The remove form of `UpdateNetworkInterface`: drop the first stored
    * interface `nic` matches as a filter, if any. */
  function NicRemove(nics: seq<InterfaceConf>, nic: InterfaceConf): (r: Option<nat>)
    ensures r.None? <==> !IsSameInterface(nics, nic)
    ensures r.Some? ==> r.value < |nics| && IsSameNic(nic, nics[r.value]) &&
                        forall j :: 0 <= j < r.value ==> !IsSameNic(nic, nics[j])
  {
    FirstIndex(nics, e => IsSameNic(nic, e))
  }

  /** The remove form of `UpdateNetworkRoutes`. */
  function RouteRemove(routes: seq<Route>, route: Route): (r: Option<nat>)
    ensures r.None? <==> !IsRouteExist(routes, route)
    ensures r.Some? ==> r.value < |routes| && IsSameRoute(route, routes[r.value]) &&
                        forall j :: 0 <= j < r.value ==> !IsSameRoute(route, routes[j])
  {
    FirstIndex(routes, e => IsSameRoute(route, e))
  }

  /** The list the update leaves: appended on add, first match dropped on
    * remove. */
  function UpdatedNics(nics: seq<InterfaceConf>, nic: InterfaceConf, isAdd: bool): seq<InterfaceConf>
  {
    if isAdd then nics + [nic]
    else match NicRemove(nics, nic)
      case None => nics
      case Some(i) => RemoveAt(nics, i)
  }

  function UpdatedRoutes(routes: seq<Route>, route: Route, isAdd: bool): seq<Route>
  {
    if isAdd then routes + [route]
    else match RouteRemove(routes, route)
      case None => routes
      case Some(i) => RemoveAt(routes, i)
  }

  /** Adding does no duplicate check: the same interface can be stored twice;
    * removing an interface just added takes out exactly one copy. */
  lemma AddIsUnchecked(nics: seq<InterfaceConf>, nic: InterfaceConf)
    ensures |UpdatedNics(nics, nic, true)| == |nics| + 1
    ensures IsSameInterface(UpdatedNics(nics, nic, true), nic)
    ensures |UpdatedNics(UpdatedNics(nics, nic, true), nic, false)| == |nics|
  {
    var n := nics + [nic];
    SameReflexive(nic, EmptyRoute);
    assert IsSameNic(nic, n[|nics|]);
  }

  lemma AddRouteIsUnchecked(routes: seq<Route>, route: Route)
    ensures |UpdatedRoutes(routes, route, true)| == |routes| + 1
    ensures IsRouteExist(UpdatedRoutes(routes, route, true), route)
    ensures |UpdatedRoutes(UpdatedRoutes(routes, route, true), route, false)| == |routes|
  {
    var n := routes + [route];
    SameReflexive(EmptyNic, route);
    assert IsSameRoute(route, n[|routes|]);
  }

  /** `CheckNicNum`: an error only once more than 128 interfaces are stored. */
  function CheckNicNum(nics: seq<InterfaceConf>): (r: Option<string>)
    ensures r.Some? <==> |nics| > MaxNicNum
  {
    if |nics| > MaxNicNum then Some("Nic already reach max limit") else None
  }
}

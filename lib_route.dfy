// Adding and removing a container's routes (libnetwork/route.go).  Adding
// is fail-fast: the first route that conflicts, or that the container
// refuses, ends the batch and the routes before it stay recorded.  Removing
// goes on past failures: every stored route a filter matches is taken out,
// one the container refuses to delete is stored again, and the errors are
// joined at the end.  Namespace entry, link lookup and the netlink route
// calls are parameters.
module LibRoute {
  import opened Wrappers
  import opened Strs
  import opened Seqs
  import opened NetworkTypes
  import CN = ConfigNetwork
  import opened HookConfig
  import LibDevice

  /** A netlink route rule: destination, source and gateway (None when
    * unset or, for source and gateway, when the address did not parse) and
    * the link index (0 when no device is named). */
  datatype Rule = Rule(dst: Option<string>, src: Option<string>, gw: Option<string>, link: int)

  /** The container and the netlink operations. */
  datatype RouteEnv = RouteEnv(
    running: bool,                           // ctr.Pid() > 0 && ctr.CheckPidExist()
    netNs: string,                           // ctr.NetNsPath()
    parseIPNet: string -> bool,              // netlink.ParseIPNet accepts the text
    parseIP: string -> bool,                 // net.ParseIP gives an address
    nsEnter: string -> Option<string>,       // nsutils.NsInvoke failing before the work runs
    linkIndex: string -> Result<int>,        // netlink.LinkByName, inside the namespace
    routeAdd: Rule -> Option<string>,
    routeDel: Rule -> Option<string>)

  /** `%q` of a text without characters that need escaping. */
  function Quote(s: string): string
  {
    "\"" + s + "\""
  }

  /** The trimmed destination, with "default" meaning none. */
  function DestOf(route: Route): string
  {
    var d := TrimSpace(route.dest);
    if d == "default" then "" else d
  }

  /** The rule `AddRouteToContainer` and `DelRouteFromContainer` build, as
    * written: the source and gateway are parsed with `net.ParseIP`, but the
    * error checked afterwards is the one left over from the destination, so
    * an unparsable source or gateway is silently dropped from the rule. */
  function RuleAsWritten(route: Route, env: RouteEnv): (r: Result<Rule>)
    ensures r.Err? <==> (TrimSpace(route.src) == "" && TrimSpace(route.gw) == "" && TrimSpace(route.dev) == "") ||
                        (DestOf(route) != "" && !env.parseIPNet(DestOf(route)))
  {
    var src, gw, dev := TrimSpace(route.src), TrimSpace(route.gw), TrimSpace(route.dev);
    if |src| == 0 && |gw| == 0 && |dev| == 0 then Err("src or gw or dev name is required")
    else
      var dest := DestOf(route);
      if |dest| != 0 && !env.parseIPNet(dest) then Err("failed to parse dest " + Quote(dest) + " of route rule")
      else Ok(Rule(if |dest| == 0 then None else Some(dest),
                   if |src| != 0 && env.parseIP(src) then Some(src) else None,
                   if |gw| != 0 && env.parseIP(gw) then Some(gw) else None,
                   0))
  }

  /** The rule as evidently intended: an unparsable source or gateway is an
    * error, as the messages the code carries say. */
  function RouteRule(route: Route, env: RouteEnv): (r: Result<Rule>)
    ensures r.Ok? ==> r.value.src.Some? || r.value.gw.Some? || TrimSpace(route.dev) != ""
    ensures r.Ok? ==> (r.value.src.Some? <==> TrimSpace(route.src) != "") &&
                      (r.value.gw.Some? <==> TrimSpace(route.gw) != "")
  {
    var src, gw, dev := TrimSpace(route.src), TrimSpace(route.gw), TrimSpace(route.dev);
    if |src| == 0 && |gw| == 0 && |dev| == 0 then Err("src or gw or dev name is required")
    else
      var dest := DestOf(route);
      if |dest| != 0 && !env.parseIPNet(dest) then Err("failed to parse dest " + Quote(dest) + " of route rule")
      else if |src| != 0 && !env.parseIP(src) then Err("failed to parse src ip")
      else if |gw| != 0 && !env.parseIP(gw) then Err("failed to parse gw ip")
      else Ok(Rule(if |dest| == 0 then None else Some(dest),
                   if |src| != 0 then Some(src) else None,
                   if |gw| != 0 then Some(gw) else None,
                   0))
  }

  /** The two readings differ only in refusing what the written one drops:
    * a rule the intended reading accepts is the one the written code builds,
    * and the written code refuses only what the intended reading refuses. */
  lemma IntendedRefinesWritten(route: Route, env: RouteEnv)
    ensures RouteRule(route, env).Ok? ==> RouteRule(route, env) == RuleAsWritten(route, env)
    ensures RuleAsWritten(route, env).Err? ==> RouteRule(route, env) == RuleAsWritten(route, env)
  {
  }

  /** As written, a route whose only field is an unparsable source passes
    * the "src or gw or dev" check and becomes a rule with none of them; the
    * intended reading refuses it. */
  lemma UnparsedSourceSlipsThrough(env: RouteEnv, src: string)
    requires TrimSpace(src) != "" && !env.parseIP(TrimSpace(src))
    ensures RuleAsWritten(Route("", src, "", ""), env) == Ok(Rule(None, None, None, 0))
    ensures RouteRule(Route("", src, "", ""), env) == Err("failed to parse src ip")
  {
    var route := Route("", src, "", "");
    assert TrimSpace("") == "";
    assert DestOf(route) == "";
  }

  /** The rule with the link index filled in, or the link lookup error. */
  function WithLink(env: RouteEnv, rule: Rule, route: Route): Result<Rule>
  {
    var dev := TrimSpace(route.dev);
    if |dev| == 0 then Ok(rule)
    else match env.linkIndex(dev)
      case Err(e) => Err(e)
      case Ok(i) => Ok(rule.(link := i))
  }

  /** `AddRouteToContainer`: a route the rule refuses fails before the
    * namespace is entered; otherwise it succeeds exactly when entering the
    * namespace, finding the link and adding the rule all succeed. */
  function AddRouteToContainer(env: RouteEnv, route: Route): (r: Option<string>)
    ensures RouteRule(route, env).Err? ==> r == Some(RouteRule(route, env).msg)
    ensures r.None? <==>
              RouteRule(route, env).Ok? && env.nsEnter(env.netNs).None? &&
              WithLink(env, RouteRule(route, env).value, route).Ok? &&
              env.routeAdd(WithLink(env, RouteRule(route, env).value, route).value).None?
  {
    match RouteRule(route, env)
    case Err(e) => Some(e)
    case Ok(rule) =>
      if env.nsEnter(env.netNs).Some? then env.nsEnter(env.netNs)
      else match WithLink(env, rule, route)
        case Err(e) => Some("failed to get link by name " + TrimSpace(route.dev) + ": " + e)
        case Ok(rl) =>
          if env.routeAdd(rl).Some? then Some("failed to add route: " + env.routeAdd(rl).value) else None
  }

  /** `DelRouteFromContainer`: a "no such process" answer means the route is
    * already gone and counts as success.  The link lookup error prints the
    * nil link with `%q`. */
  function DelRouteFromContainer(env: RouteEnv, route: Route): (r: Option<string>)
    ensures RouteRule(route, env).Err? ==> r == Some(RouteRule(route, env).msg)
    ensures r.None? <==>
              RouteRule(route, env).Ok? && env.nsEnter(env.netNs).None? &&
              WithLink(env, RouteRule(route, env).value, route).Ok? &&
              var e := env.routeDel(WithLink(env, RouteRule(route, env).value, route).value);
              e.None? || Contains(e.value, "no such process")
  {
    match RouteRule(route, env)
    case Err(e) => Some(e)
    case Ok(rule) =>
      if env.nsEnter(env.netNs).Some? then env.nsEnter(env.netNs)
      else match WithLink(env, rule, route)
        case Err(e) => Some("failed to get link by name %!q(<nil>): " + e)
        case Ok(rl) =>
          match env.routeDel(rl)
          case None => None
          case Some(e) => if Contains(e, "no such process") then None else Some("failed to remove route: " + e)
  }

  /** Both container operations refuse a route that names none of source,
    * gateway and device, before entering the namespace. */
  lemma ContainerOpsNeedTarget(env: RouteEnv, route: Route)
    requires TrimSpace(route.src) == "" && TrimSpace(route.gw) == "" && TrimSpace(route.dev) == ""
    ensures AddRouteToContainer(env, route) == Some("src or gw or dev name is required")
    ensures DelRouteFromContainer(env, route) == Some("src or gw or dev name is required")
  {
  }

  // ---------------------------------------------------------------------
  // AddRoutes

  /** The store's routes and dirty flag, how many routes of the batch have
    * been recorded, and the error that ended the batch. */
  datatype AddRun = AddRun(routes: seq<Route>, dirty: bool, done: nat, err: Option<string>)

  /** One route of `AddRoutes`: refuse a conflict, record the route, and for
    * an active container add it there, taking it out of the store again
    * when that fails. */
  function AddRouteStep(add: Route -> Option<string>, s: AddRun, r: Route, active: bool): AddRun
  {
    match CN.IsConflictRoute(s.routes, r)
    case Some(e) => s.(err := Some(e))
    case None =>
      var added := s.routes + [r];
      var e := if active then add(r) else None;
      if e.Some? then s.(routes := CN.UpdatedRoutes(added, r, false), dirty := true, err := e)
      else s.(routes := added, dirty := true, done := s.done + 1)
  }

  /** The batch, stopping at the first error. */
  function AddRoutesFold(add: Route -> Option<string>, s: AddRun, rs: seq<Route>, active: bool): AddRun
    decreases |rs|
  {
    if |rs| == 0 then s
    else
      var t := AddRouteStep(add, s, rs[0], active);
      if t.err.Some? then t else AddRoutesFold(add, t, rs[1..], active)
  }

  /** The container operations, as the folds take them. */
  function AddOp(env: RouteEnv): Route -> Option<string>
  {
    r => AddRouteToContainer(env, r)
  }

  function DelOp(env: RouteEnv): Route -> Option<string>
  {
    r => DelRouteFromContainer(env, r)
  }

  /** A route that matches nothing stored is the one its own removal finds
    * once appended, so the rollback gives the old list back. */
  lemma RollbackRestores(routes: seq<Route>, r: Route)
    requires CN.IsConflictRoute(routes, r).None?
    ensures CN.UpdatedRoutes(routes + [r], r, false) == routes
  {
    var t := routes + [r];
    SameReflexive(EmptyNic, r);
    assert IsSameRoute(r, t[|routes|]);
    assert forall i :: 0 <= i < |routes| ==> t[i] == routes[i] && !IsSameRoute(r, t[i]);
    assert RemoveAt(t, |routes|) == routes;
  }

  /** One route either is recorded, or ends the batch with the store as it
    * was before it. */
  lemma AddStepShape(add: Route -> Option<string>, s: AddRun, r: Route, active: bool)
    requires s.err.None?
    ensures var t := AddRouteStep(add, s, r, active);
            (t.err.None? ==> t.routes == s.routes + [r] && t.done == s.done + 1) &&
            (t.err.Some? ==> t.routes == s.routes && t.done == s.done)
  {
    if CN.IsConflictRoute(s.routes, r).None? {
      RollbackRestores(s.routes, r);
    }
  }

  /** `AddRoutes` records a prefix of the batch: the routes before the one
    * that failed stay recorded, the failing one does not, and the batch
    * succeeds exactly when every route was recorded. */
  lemma {:induction false} AddRoutesPrefix(add: Route -> Option<string>, s: AddRun, rs: seq<Route>, active: bool)
    requires s.err.None?
    ensures var o := AddRoutesFold(add, s, rs, active);
            s.done <= o.done <= s.done + |rs| &&
            o.routes == s.routes + rs[..o.done - s.done] &&
            (o.err.None? <==> o.done == s.done + |rs|)
    decreases |rs|
  {
    if |rs| == 0 {
      assert rs[..0] == [];
      assert s.routes + [] == s.routes;
    } else {
      var t := AddRouteStep(add, s, rs[0], active);
      AddStepShape(add, s, rs[0], active);
      if t.err.None? {
        AddRoutesPrefix(add, t, rs[1..], active);
        var o := AddRoutesFold(add, t, rs[1..], active);
        var k := o.done - t.done;
        assert rs[..k + 1] == [rs[0]] + rs[1..][..k];
        assert o.routes == (s.routes + [rs[0]]) + rs[1..][..k];
        assert o.routes == s.routes + rs[..k + 1];
      } else {
        assert rs[..0] == [];
        assert t.routes == s.routes + rs[..0];
      }
    }
  }

  /** The loop of `AddRoutes`, with the container operation as a parameter. */
  method AddRoutesWith(cfg: ContainerHookConfig, add: Route -> Option<string>, rs: seq<Route>, active: bool)
    returns (err: Option<string>)
    modifies cfg
    ensures var o := AddRoutesFold(add, AddRun(old(cfg.routes), old(cfg.dirty), 0, None), rs, active);
            cfg.Doc() == old(cfg.Doc()).(routes := o.routes) && cfg.dirty == o.dirty && err == o.err
  {
    ghost var whole := AddRoutesFold(add, AddRun(cfg.routes, cfg.dirty, 0, None), rs, active);
    var i := 0;
    while i < |rs|
      invariant 0 <= i <= |rs|
      invariant whole == AddRoutesFold(add, AddRun(cfg.routes, cfg.dirty, i, None), rs[i..], active)
      invariant cfg.Doc() == old(cfg.Doc()).(routes := cfg.routes)
    {
      assert rs[i..][1..] == rs[i + 1..];
      var r := rs[i];
      err := CN.IsConflictRoute(cfg.routes, r);
      if err.Some? {
        return;
      }
      var _ := cfg.UpdateNetworkRoutes(r, true);
      if active {
        err := add(r);
        if err.Some? {
          var _ := cfg.UpdateNetworkRoutes(r, false);
          return;
        }
      }
      i := i + 1;
    }
    return None;
  }

  /** `AddRoutes`: the container is touched only when it is running and the
    * call is not limited to the configuration. */
  method AddRoutes(cfg: ContainerHookConfig, env: RouteEnv, rs: seq<Route>, updateConfigOnly: bool)
    returns (err: Option<string>)
    modifies cfg
    ensures var o := AddRoutesFold(AddOp(env), AddRun(old(cfg.routes), old(cfg.dirty), 0, None), rs,
                                   !updateConfigOnly && env.running);
            cfg.Doc() == old(cfg.Doc()).(routes := o.routes) && cfg.dirty == o.dirty && err == o.err
  {
    err := AddRoutesWith(cfg, AddOp(env), rs, !updateConfigOnly && env.running);
  }

  // ---------------------------------------------------------------------
  // DelRoutes

  /** The store's routes and dirty flag, and the errors recorded so far. */
  datatype DelRun = DelRun(routes: seq<Route>, dirty: bool, errs: seq<string>)

  /** One stored route a filter matched: drop it, and for an active container
    * delete it there, storing it again (at the end) when that fails. */
  function DelOne(del: Route -> Option<string>, s: DelRun, route: Route, active: bool): DelRun
  {
    var removed := CN.UpdatedRoutes(s.routes, route, false);
    var e := if active then del(route) else None;
    if e.Some? then DelRun(removed + [route], true, s.errs + [e.value])
    else DelRun(removed, s.dirty || CN.IsRouteExist(s.routes, route), s.errs)
  }

  /** The matched routes of one filter, in order. */
  function DelEach(del: Route -> Option<string>, s: DelRun, xs: seq<Route>, active: bool): DelRun
    decreases |xs|
  {
    if |xs| == 0 then s
    else DelEach(del, DelOne(del, s, xs[0], active), xs[1..], active)
  }

  function NotAdded(r: Route): string
  {
    "Route(" + RouteString(r) + ") is not added by isulad-tools, can not remove it, please check input parameter."
  }

  /** One filter of `DelRoutes`: an error when nothing stored matches it,
    * otherwise every route that matched when the filter was reached. */
  function DelFilter(del: Route -> Option<string>, s: DelRun, r: Route, active: bool): DelRun
  {
    if !CN.IsRouteExist(s.routes, r) then s.(errs := s.errs + [NotAdded(r)])
    else DelEach(del, s, CN.GetRoutes(s.routes, r), active)
  }

  /** The filters, in order. */
  function DelRoutesFold(del: Route -> Option<string>, s: DelRun, rs: seq<Route>, active: bool): DelRun
    decreases |rs|
  {
    if |rs| == 0 then s
    else DelRoutesFold(del, DelFilter(del, s, rs[0], active), rs[1..], active)
  }

  /** The routes whose deletion in the container fails, and the errors. */
  function FailedRoute(del: Route -> Option<string>, active: bool): Route -> Option<Route>
  {
    x => if active && del(x).Some? then Some(x) else None
  }

  function FailedError(del: Route -> Option<string>, active: bool): Route -> Option<string>
  {
    x => if active then del(x) else None
  }

  /** The list with its first `j` entries matching `r` taken out. */
  function DropMatches(l: seq<Route>, r: Route, j: nat): seq<Route>
    decreases |l|
  {
    if |l| == 0 || j == 0 then l
    else if IsSameRoute(r, l[0]) then DropMatches(l[1..], r, j - 1)
    else [l[0]] + DropMatches(l[1..], r, j)
  }

  /** A route the filter matches is matched by every route it matches. */
  lemma SameRouteTransitive(a: Route, b: Route, c: Route)
    requires IsSameRoute(a, b) && IsSameRoute(b, c)
    ensures IsSameRoute(a, c)
  {
  }

  /** The `j`-th matched route, used as a removal filter on the list with
    * the first `j` matches already gone, finds itself: an earlier entry it
    * matched would have matched the filter too. */
  lemma {:induction false} StepDrop(l: seq<Route>, r: Route, j: nat)
    requires j < |CN.GetRoutes(l, r)|
    ensures var d := DropMatches(l, r, j);
            var x := CN.GetRoutes(l, r)[j];
            CN.RouteRemove(d, x).Some? && RemoveAt(d, CN.RouteRemove(d, x).value) == DropMatches(l, r, j + 1)
    decreases |l|
  {
    GetRoutesCons(l, r);
    var x := CN.GetRoutes(l, r)[j];
    if IsSameRoute(r, l[0]) {
      if j == 0 {
        DropFirstMatch(l, r);
      } else {
        assert x == CN.GetRoutes(l[1..], r)[j - 1];
        assert DropMatches(l, r, j) == DropMatches(l[1..], r, j - 1);
        assert DropMatches(l, r, j + 1) == DropMatches(l[1..], r, j);
        StepDrop(l[1..], r, j - 1);
      }
    } else {
      assert x == CN.GetRoutes(l[1..], r)[j];
      StepDrop(l[1..], r, j);
      GetRoutesMatch(l[1..], r, j);
      StepDropSkip(l, r, j, x);
    }
  }

  /** The `j`-th match of the list is matched by the filter. */
  lemma GetRoutesMatch(l: seq<Route>, r: Route, j: nat)
    requires j < |CN.GetRoutes(l, r)|
    ensures IsSameRoute(r, CN.GetRoutes(l, r)[j])
  {
    assert CN.GetRoutes(l, r)[j] in CN.GetRoutes(l, r);
  }

  /** `StepDrop` past a head the filter does not match. */
  lemma StepDropSkip(l: seq<Route>, r: Route, j: nat, x: Route)
    requires |l| > 0 && !IsSameRoute(r, l[0]) && IsSameRoute(r, x)
    requires var d := DropMatches(l[1..], r, j);
             CN.RouteRemove(d, x).Some? && RemoveAt(d, CN.RouteRemove(d, x).value) == DropMatches(l[1..], r, j + 1)
    ensures var d := DropMatches(l, r, j);
            CN.RouteRemove(d, x).Some? && RemoveAt(d, CN.RouteRemove(d, x).value) == DropMatches(l, r, j + 1)
  {
    if IsSameRoute(x, l[0]) {
      SameRouteTransitive(r, x, l[0]);
    }
    DropSkip(l, r, j);
    DropSkip(l, r, j + 1);
    RemoveConsSkip(l[0], DropMatches(l[1..], r, j), x);
  }

  /** A head the filter matches is the first match, and removes itself. */
  lemma DropFirstMatch(l: seq<Route>, r: Route)
    requires |l| > 0 && IsSameRoute(r, l[0])
    ensures CN.RouteRemove(l, l[0]) == Some(0) && RemoveAt(l, 0) == DropMatches(l, r, 1)
  {
    SameReflexive(EmptyNic, l[0]);
    assert RemoveAt(l, 0) == l[1..];
  }

  /** The matches of a list are its head's, if any, then its tail's. */
  lemma GetRoutesCons(l: seq<Route>, r: Route)
    requires |l| > 0
    ensures CN.GetRoutes(l, r) == (if IsSameRoute(r, l[0]) then [l[0]] else []) + CN.GetRoutes(l[1..], r)
  {
  }

  lemma DropSkip(l: seq<Route>, r: Route, j: nat)
    requires |l| > 0 && !IsSameRoute(r, l[0])
    ensures DropMatches(l, r, j) == [l[0]] + DropMatches(l[1..], r, j)
  {
    if j == 0 {
      assert l == [l[0]] + l[1..];
    }
  }

  /** Removal skips a head the filter does not match. */
  lemma RemoveConsSkip(y: Route, d: seq<Route>, x: Route)
    requires CN.RouteRemove(d, x).Some? && !IsSameRoute(x, y)
    ensures CN.RouteRemove([y] + d, x) == Some(CN.RouteRemove(d, x).value + 1)
    ensures RemoveAt([y] + d, CN.RouteRemove(d, x).value + 1) == [y] + RemoveAt(d, CN.RouteRemove(d, x).value)
  {
    var i := CN.RouteRemove(d, x).value;
    var e := [y] + d;
    assert forall k :: 1 <= k < |e| ==> e[k] == d[k - 1];
    assert RemoveAt(e, i + 1) == [y] + RemoveAt(d, i);
  }

  /** Removal from a list followed by restored routes finds the same entry
    * as in the list alone, as long as the list has a match. */
  lemma RemoveBeforeTail(d: seq<Route>, f: seq<Route>, x: Route)
    requires CN.RouteRemove(d, x).Some?
    ensures CN.RouteRemove(d + f, x) == CN.RouteRemove(d, x)
    ensures RemoveAt(d + f, CN.RouteRemove(d, x).value) == RemoveAt(d, CN.RouteRemove(d, x).value) + f
  {
    var u := CN.RouteRemove(d, x).value;
    assert (d + f)[u] == d[u];
  }

  /** From the `j`-th matched route of one filter on, with the first `j`
    * matches already gone and `f` stored again at the end: the remaining
    * matches are taken out too, and the ones the container refuses to delete
    * follow `f`, with their errors recorded in order. */
  lemma {:induction false} DelEachDrops(del: Route -> Option<string>, s: DelRun, l: seq<Route>, r: Route, j: nat,
                                        f: seq<Route>, active: bool)
    requires j <= |CN.GetRoutes(l, r)|
    requires s.routes == DropMatches(l, r, j) + f
    ensures var xs := CN.GetRoutes(l, r)[j..];
            var o := DelEach(del, s, xs, active);
            o.routes == DropMatches(l, r, |CN.GetRoutes(l, r)|) + f + FilterMap(xs, FailedRoute(del, active)) &&
            o.errs == s.errs + FilterMap(xs, FailedError(del, active))
    decreases |CN.GetRoutes(l, r)| - j
  {
    var all := CN.GetRoutes(l, r);
    var xs := all[j..];
    if j == |all| {
      assert xs == [];
      assert s.routes + [] == s.routes && s.errs + [] == s.errs;
    } else {
      var x := all[j];
      var rest := all[j + 1..];
      assert xs == [x] + rest;
      var failed := if active && del(x).Some? then [x] else [];
      var t := DelOne(del, s, x, active);
      DelOneDrops(del, s, l, r, j, f, active);
      DelEachDrops(del, t, l, r, j + 1, f + failed, active);
      var d := DropMatches(l, r, |all|);
      FilterMapCons(x, rest, FailedRoute(del, active));
      FilterMapCons(x, rest, FailedError(del, active));
      Regroup(d, f, failed, FilterMap(rest, FailedRoute(del, active)));
      Assoc(s.errs, if active && del(x).Some? then [del(x).value] else [], FilterMap(rest, FailedError(del, active)));
    }
  }

  /** One step of `DelEachDrops`: the `j`-th match is taken out, and stored
    * again at the end when the container refuses to delete it. */
  lemma DelOneDrops(del: Route -> Option<string>, s: DelRun, l: seq<Route>, r: Route, j: nat,
                    f: seq<Route>, active: bool)
    requires j < |CN.GetRoutes(l, r)|
    requires s.routes == DropMatches(l, r, j) + f
    ensures var x := CN.GetRoutes(l, r)[j];
            var t := DelOne(del, s, x, active);
            t.routes == DropMatches(l, r, j + 1) + f + (if active && del(x).Some? then [x] else []) &&
            t.errs == s.errs + (if active && del(x).Some? then [del(x).value] else [])
  {
    var x := CN.GetRoutes(l, r)[j];
    StepDrop(l, r, j);
    RemoveBeforeTail(DropMatches(l, r, j), f, x);
    if !(active && del(x).Some?) {
      assert DropMatches(l, r, j + 1) + f + [] == DropMatches(l, r, j + 1) + f;
    }
  }

  /** With every match taken out, what is left is the stored routes the
    * filter does not match, in their order. */
  lemma {:induction false} DropAllMatches(l: seq<Route>, r: Route)
    ensures DropMatches(l, r, |CN.GetRoutes(l, r)|) == Filter(l, Keeps(r))
    decreases |l|
  {
    if |l| > 0 {
      DropAllMatches(l[1..], r);
      var rest := CN.GetRoutes(l[1..], r);
      if IsSameRoute(r, l[0]) {
        assert CN.GetRoutes(l, r) == [l[0]] + rest;
      } else {
        assert CN.GetRoutes(l, r) == rest;
        if |rest| == 0 {
          FilterAll(l[1..], Keeps(r));
          FilterAll(l, Keeps(r));
          assert DropMatches(l, r, 0) == l;
        }
      }
    }
  }

  /** The stored routes a filter leaves alone. */
  function Keeps(r: Route): Route -> bool
  {
    e => !IsSameRoute(r, e)
  }

  /** One filter of `DelRoutes`: an unknown filter records an error and
    * changes nothing; otherwise every stored route it matches is taken out,
    * the others keep their order, and the routes the container refused to
    * delete are stored again at the end with their errors recorded. */
  lemma DelFilterEffect(del: Route -> Option<string>, s: DelRun, r: Route, active: bool)
    ensures var o := DelFilter(del, s, r, active);
            var matched := CN.GetRoutes(s.routes, r);
            (!CN.IsRouteExist(s.routes, r) ==> o == s.(errs := s.errs + [NotAdded(r)])) &&
            (CN.IsRouteExist(s.routes, r) ==>
               o.routes == Filter(s.routes, Keeps(r)) + FilterMap(matched, FailedRoute(del, active)) &&
               o.errs == s.errs + FilterMap(matched, FailedError(del, active)))
  {
    if CN.IsRouteExist(s.routes, r) {
      var matched := CN.GetRoutes(s.routes, r);
      assert DropMatches(s.routes, r, 0) == s.routes;
      AppendNil(s.routes);
      DelEachDrops(del, s, s.routes, r, 0, [], active);
      assert matched[0..] == matched;
      DropAllMatches(s.routes, r);
      AppendNil(Filter(s.routes, Keeps(r)));
    }
  }

  /** Without the container (update-config-only or not running), a filter
    * takes out exactly the stored routes it matches and records no error. */
  lemma DelFilterConfigOnly(del: Route -> Option<string>, s: DelRun, r: Route)
    requires CN.IsRouteExist(s.routes, r)
    ensures DelFilter(del, s, r, false).routes == Filter(s.routes, Keeps(r))
    ensures DelFilter(del, s, r, false).errs == s.errs
  {
    var matched := CN.GetRoutes(s.routes, r);
    DelFilterEffect(del, s, r, false);
    FilterMapNone(matched, FailedRoute(del, false));
    FilterMapNone(matched, FailedError(del, false));
  }

  /** `DelRoutes`: the store after every filter, and the joined errors. */
  function DelRoutesSpec(env: RouteEnv, s: DelRun, rs: seq<Route>, updateConfigOnly: bool): (DelRun, Option<string>)
  {
    var o := DelRoutesFold(DelOp(env), s, rs, !updateConfigOnly && env.running);
    (o, LibDevice.Aggregate(o.errs))
  }

  /** The inner loop of `DelRoutes`: every route one filter matched. */
  method DelMatched(cfg: ContainerHookConfig, del: Route -> Option<string>, matched: seq<Route>, active: bool,
                    errs0: seq<string>)
    returns (errs: seq<string>)
    modifies cfg
    ensures var o := DelEach(del, DelRun(old(cfg.routes), old(cfg.dirty), errs0), matched, active);
            cfg.Doc() == old(cfg.Doc()).(routes := o.routes) && cfg.dirty == o.dirty && errs == o.errs
  {
    ghost var whole := DelEach(del, DelRun(cfg.routes, cfg.dirty, errs0), matched, active);
    errs := errs0;
    var j := 0;
    while j < |matched|
      invariant 0 <= j <= |matched|
      invariant whole == DelEach(del, DelRun(cfg.routes, cfg.dirty, errs), matched[j..], active)
      invariant cfg.Doc() == old(cfg.Doc()).(routes := cfg.routes)
    {
      assert matched[j..][1..] == matched[j + 1..];
      var route := matched[j];
      var _ := cfg.UpdateNetworkRoutes(route, false);
      if active {
        var e := del(route);
        if e.Some? {
          var _ := cfg.UpdateNetworkRoutes(route, true);
          errs := errs + [e.value];
        }
      }
      j := j + 1;
    }
  }

  /** The loop body of `DelRoutes` for one filter. */
  method DelOneFilter(cfg: ContainerHookConfig, del: Route -> Option<string>, r: Route, active: bool,
                      errs0: seq<string>)
    returns (errs: seq<string>)
    modifies cfg
    ensures var o := DelFilter(del, DelRun(old(cfg.routes), old(cfg.dirty), errs0), r, active);
            cfg.Doc() == old(cfg.Doc()).(routes := o.routes) && cfg.dirty == o.dirty && errs == o.errs
  {
    if !CN.IsRouteExist(cfg.routes, r) {
      errs := errs0 + [NotAdded(r)];
    } else {
      errs := DelMatched(cfg, del, CN.GetRoutes(cfg.routes, r), active, errs0);
    }
  }

  /** The loop of `DelRoutes`, with the container operation as a parameter. */
  method DelRoutesWith(cfg: ContainerHookConfig, del: Route -> Option<string>, rs: seq<Route>, active: bool)
    returns (errs: seq<string>)
    modifies cfg
    ensures var o := DelRoutesFold(del, DelRun(old(cfg.routes), old(cfg.dirty), []), rs, active);
            cfg.Doc() == old(cfg.Doc()).(routes := o.routes) && cfg.dirty == o.dirty && errs == o.errs
  {
    ghost var whole := DelRoutesFold(del, DelRun(cfg.routes, cfg.dirty, []), rs, active);
    errs := [];
    var i := 0;
    while i < |rs|
      invariant 0 <= i <= |rs|
      invariant whole == DelRoutesFold(del, DelRun(cfg.routes, cfg.dirty, errs), rs[i..], active)
      invariant cfg.Doc() == old(cfg.Doc()).(routes := cfg.routes)
    {
      DelFoldStep(del, DelRun(cfg.routes, cfg.dirty, errs), rs, i, active);
      errs := DelOneFilter(cfg, del, rs[i], active, errs);
      i := i + 1;
    }
  }

  /** The fold over the filters from `i` on is one filter, then the rest. */
  lemma DelFoldStep(del: Route -> Option<string>, s: DelRun, rs: seq<Route>, i: nat, active: bool)
    requires i < |rs|
    ensures DelRoutesFold(del, s, rs[i..], active) ==
            DelRoutesFold(del, DelFilter(del, s, rs[i], active), rs[i + 1..], active)
  {
    assert rs[i..][1..] == rs[i + 1..];
  }

  /** `DelRoutes`: every error is kept, and they are joined at the end. */
  method DelRoutes(cfg: ContainerHookConfig, env: RouteEnv, rs: seq<Route>, updateConfigOnly: bool)
    returns (err: Option<string>)
    modifies cfg
    ensures var (o, e) := DelRoutesSpec(env, DelRun(old(cfg.routes), old(cfg.dirty), []), rs, updateConfigOnly);
            cfg.Doc() == old(cfg.Doc()).(routes := o.routes) && cfg.dirty == o.dirty && err == e
  {
    var errs := DelRoutesWith(cfg, DelOp(env), rs, !updateConfigOnly && env.running);
    err := LibDevice.Aggregate(errs);
  }
}

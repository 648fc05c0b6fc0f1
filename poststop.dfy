// The poststop phase (hooks/syscontainer-hooks/poststop.go): the actions
// that undo, when a container stops, what prestart set up on the host: the
// udev rules of its disks, its network interfaces and netns file, and the
// transfer paths of its binds.  Unlike prestart, every action runs whatever
// the earlier ones returned, and their errors are only logged.  The store is
// only read.
module Poststop {
  import opened Wrappers
  import opened Strs
  import opened Seqs
  import opened Paths
  import opened DeviceTypes
  import opened ConfigDevice
  import opened HookConfig
  import opened UdevRules
  import opened UdevController
  import opened OciSpec
  import opened NetworkTypes
  import opened Hooks
  import LibDevice
  import LibNic
  import Transfer
  import Prestart

  /** The calls an action made, in order, and the error it returned. */
  datatype Outcome = Outcome(steps: seq<Step>, err: Option<string>)

  // ---------------------------------------------------------------------
  // RemoveUdevRule

  /** The udev controller's rules and dirty flag, and the error that
    * stopped the loop over the stored devices. */
  datatype RulePass = RulePass(rules: seq<Rule>, dirty: bool, err: Option<string>)

  /** One stored device of `RemoveUdevRule`: skipped when it does not
    * resolve or is a character device; a failing type lookup stops the
    * loop; the rule of a disk is removed. */
  function UnruleStep(resolve: DeviceMapping -> Result<Device>, typeOf: string -> Result<string>,
                      st: HookState, useUdevd: bool, p: RulePass, m: DeviceMapping): (r: RulePass)
    ensures LibDevice.LongIds(p.rules) && |st.id| >= 8 ==> LibDevice.LongIds(r.rules)
  {
    match resolve(m)
    case Err(_) => p
    case Ok(d) =>
      if d.typ == "c" then p
      else
        var t := typeOf(d.pathOnHost);
        if t.Err? then p.(err := Some(t.msg))
        else if t.value == "disk" && useUdevd then
          var rule := Prestart.DiskRule(st, m);
          var q := p.(rules := Removed(p.rules, rule), dirty := p.dirty || FirstIndex(p.rules, Matches(rule)).Some?);
          if LibDevice.LongIds(p.rules) && |st.id| >= 8 then LibDevice.LongIdsKept(p.rules, rule); q else q
        else p
  }

  /** The loop over the first `n` stored devices, stopping at the first
    * failing type lookup. */
  function UnruleLoop(resolve: DeviceMapping -> Result<Device>, typeOf: string -> Result<string>,
                      st: HookState, useUdevd: bool, p: RulePass, ms: seq<DeviceMapping>, n: nat): (r: RulePass)
    requires n <= |ms|
    ensures LibDevice.LongIds(p.rules) && |st.id| >= 8 ==> LibDevice.LongIds(r.rules)
    decreases n
  {
    if n == 0 then p
    else
      var t := UnruleLoop(resolve, typeOf, st, useUdevd, p, ms, n - 1);
      if t.err.Some? then t else UnruleStep(resolve, typeOf, st, useUdevd, t, ms[n - 1])
  }

  /** A stored device that resolves to a block device `lsblk` calls a
    * disk. */
  predicate IsDisk(resolve: DeviceMapping -> Result<Device>, typeOf: string -> Result<string>, m: DeviceMapping)
  {
    resolve(m).Ok? && resolve(m).value.typ != "c" && typeOf(resolve(m).value.pathOnHost) == Ok("disk")
  }

  /** A stored device that resolves to a block device whose type lookup
    * fails. */
  predicate LookupFails(resolve: DeviceMapping -> Result<Device>, typeOf: string -> Result<string>, m: DeviceMapping)
  {
    resolve(m).Ok? && resolve(m).value.typ != "c" && typeOf(resolve(m).value.pathOnHost).Err?
  }

  /** Once the loop has failed, the devices after do nothing. */
  lemma {:induction false} UnruleStay(resolve: DeviceMapping -> Result<Device>, typeOf: string -> Result<string>,
                                      st: HookState, useUdevd: bool, p: RulePass, ms: seq<DeviceMapping>, i: nat, n: nat)
    requires i <= n <= |ms| && UnruleLoop(resolve, typeOf, st, useUdevd, p, ms, i).err.Some?
    ensures UnruleLoop(resolve, typeOf, st, useUdevd, p, ms, n) == UnruleLoop(resolve, typeOf, st, useUdevd, p, ms, i)
    decreases n
  {
    if n > i {
      UnruleStay(resolve, typeOf, st, useUdevd, p, ms, i, n - 1);
    }
  }

  /** Starting without an error, the loop fails exactly when the type
    * lookup of one of the devices fails. */
  lemma {:induction false} UnruleLoopFails(resolve: DeviceMapping -> Result<Device>, typeOf: string -> Result<string>,
                                           st: HookState, useUdevd: bool, p: RulePass, ms: seq<DeviceMapping>, n: nat)
    requires n <= |ms| && p.err.None?
    ensures UnruleLoop(resolve, typeOf, st, useUdevd, p, ms, n).err.None? <==>
            forall j :: 0 <= j < n ==> !LookupFails(resolve, typeOf, ms[j])
    decreases n
  {
    if n > 0 {
      UnruleLoopFails(resolve, typeOf, st, useUdevd, p, ms, n - 1);
    }
  }

  /** What remains after `Removed` was in the list. */
  lemma RemovedFrom(rules: seq<Rule>, r: Rule)
    ensures forall x :: x in Removed(rules, r) ==> x in rules
  {
    RemoveDropsOne(rules, r);
  }

  /** `Removed` keeps every rule that is not the same rule as the one
    * removed. */
  lemma RemovedKeeps(rules: seq<Rule>, r: Rule, x: Rule)
    requires x in rules && !SameRule(r, x)
    ensures x in Removed(rules, r)
  {
    RemoveDropsOne(rules, r);
    var fi := FirstIndex(rules, Matches(r));
    if fi.Some? {
      var k := fi.value;
      var i :| 0 <= i < |rules| && rules[i] == x;
      assert Matches(r)(rules[k]);
      assert i != k;
      if i < k {
        assert Removed(rules, r)[i] == x;
      } else {
        assert Removed(rules, r)[i - 1] == x;
      }
    }
  }

  /** A rule absent from the list stays absent once another is removed. */
  lemma RemovedKeepsAbsent(rules: seq<Rule>, r: Rule, a: Rule)
    requires FirstIndex(rules, Matches(a)).None?
    ensures FirstIndex(Removed(rules, r), Matches(a)).None?
  {
    RemovedFrom(rules, r);
    var rest := Removed(rules, r);
    forall i | 0 <= i < |rest|
      ensures !Matches(a)(rest[i])
    {
      assert rest[i] in rules;
    }
  }

  /** The rule of a stored disk among the first `n` devices. */
  predicate RuleOfDisk(resolve: DeviceMapping -> Result<Device>, typeOf: string -> Result<string>,
                       st: HookState, ms: seq<DeviceMapping>, n: nat, x: Rule)
    requires n <= |ms|
  {
    exists j :: 0 <= j < n && IsDisk(resolve, typeOf, ms[j]) && SameRule(Prestart.DiskRule(st, ms[j]), x)
  }

  /** No rule of a stored disk among the first `n` devices is in the
    * list. */
  ghost predicate Cleared(resolve: DeviceMapping -> Result<Device>, typeOf: string -> Result<string>,
                          st: HookState, rules: seq<Rule>, ms: seq<DeviceMapping>, n: nat)
    requires n <= |ms|
  {
    forall j :: 0 <= j < n && IsDisk(resolve, typeOf, ms[j]) ==> FirstIndex(rules, Matches(Prestart.DiskRule(st, ms[j]))).None?
  }

  /** One more device keeps the list free of stored disks' rules. */
  lemma ClearedStep(resolve: DeviceMapping -> Result<Device>, typeOf: string -> Result<string>,
                    st: HookState, t: RulePass, ms: seq<DeviceMapping>, n: nat)
    requires 0 < n <= |ms| && t.err.None? && NoDuplicates(t.rules) && Cleared(resolve, typeOf, st, t.rules, ms, n - 1)
    ensures var r := UnruleStep(resolve, typeOf, st, true, t, ms[n - 1]);
            r.err.None? ==> NoDuplicates(r.rules) && Cleared(resolve, typeOf, st, r.rules, ms, n)
  {
    var r := UnruleStep(resolve, typeOf, st, true, t, ms[n - 1]);
    if IsDisk(resolve, typeOf, ms[n - 1]) {
      var rule := Prestart.DiskRule(st, ms[n - 1]);
      assert r.rules == Removed(t.rules, rule);
      RemoveLeavesNone(t.rules, rule);
      forall j | 0 <= j < n - 1 && IsDisk(resolve, typeOf, ms[j])
        ensures FirstIndex(r.rules, Matches(Prestart.DiskRule(st, ms[j]))).None?
      {
        RemovedKeepsAbsent(t.rules, rule, Prestart.DiskRule(st, ms[j]));
      }
    } else {
      assert r.rules == t.rules;
    }
  }

  /** When the loop gets through, no rule of a stored disk is left, and no
    * two rules left are the same rule. */
  lemma {:induction false} UnruleClears(resolve: DeviceMapping -> Result<Device>, typeOf: string -> Result<string>,
                                        st: HookState, p: RulePass, ms: seq<DeviceMapping>, n: nat)
    requires n <= |ms| && p.err.None? && NoDuplicates(p.rules)
    ensures var r := UnruleLoop(resolve, typeOf, st, true, p, ms, n);
            r.err.None? ==> NoDuplicates(r.rules) && Cleared(resolve, typeOf, st, r.rules, ms, n)
    decreases n
  {
    if n > 0 {
      UnruleClears(resolve, typeOf, st, p, ms, n - 1);
      var t := UnruleLoop(resolve, typeOf, st, true, p, ms, n - 1);
      if t.err.None? {
        ClearedStep(resolve, typeOf, st, t, ms, n);
      }
    }
  }

  /** Every rule the loop leaves was there before, and every rule that was
    * there and is not the rule of a stored disk is left. */
  lemma {:induction false} UnruleKeeps(resolve: DeviceMapping -> Result<Device>, typeOf: string -> Result<string>,
                                       st: HookState, useUdevd: bool, p: RulePass, ms: seq<DeviceMapping>, n: nat)
    requires n <= |ms|
    ensures var r := UnruleLoop(resolve, typeOf, st, useUdevd, p, ms, n);
            (forall x :: x in r.rules ==> x in p.rules) &&
            (forall x :: x in p.rules && !RuleOfDisk(resolve, typeOf, st, ms, n, x) ==> x in r.rules)
    decreases n
  {
    if n > 0 {
      UnruleKeeps(resolve, typeOf, st, useUdevd, p, ms, n - 1);
      var t := UnruleLoop(resolve, typeOf, st, useUdevd, p, ms, n - 1);
      var m := ms[n - 1];
      if t.err.None? && IsDisk(resolve, typeOf, m) && useUdevd {
        var rule := Prestart.DiskRule(st, m);
        RemovedFrom(t.rules, rule);
        forall x | x in p.rules && !RuleOfDisk(resolve, typeOf, st, ms, n, x)
          ensures x in Removed(t.rules, rule)
        {
          assert !RuleOfDisk(resolve, typeOf, st, ms, n - 1, x);
          RemovedKeeps(t.rules, rule, x);
        }
      } else {
        forall x | x in p.rules && !RuleOfDisk(resolve, typeOf, st, ms, n, x)
          ensures !RuleOfDisk(resolve, typeOf, st, ms, n - 1, x)
        {
        }
      }
    }
  }

  /** The controller becomes dirty exactly when a rule was removed. */
  lemma {:induction false} UnruleDirty(resolve: DeviceMapping -> Result<Device>, typeOf: string -> Result<string>,
                                       st: HookState, useUdevd: bool, p: RulePass, ms: seq<DeviceMapping>, n: nat)
    requires n <= |ms|
    ensures var r := UnruleLoop(resolve, typeOf, st, useUdevd, p, ms, n);
            |r.rules| <= |p.rules| && r.dirty == (p.dirty || |r.rules| < |p.rules|)
    decreases n
  {
    if n > 0 {
      UnruleDirty(resolve, typeOf, st, useUdevd, p, ms, n - 1);
      var t := UnruleLoop(resolve, typeOf, st, useUdevd, p, ms, n - 1);
      RemoveDropsOne(t.rules, Prestart.DiskRule(st, ms[n - 1]));
    }
  }

  /** The controller's pass over the stored devices, from the rules the
    * file holds (none when udevd is not in use). */
  function UnruleAll(env: HookEnv, doc: HookDoc): (t: RulePass)
    requires Prestart.UdevPre(env)
    ensures LibDevice.LongIds(t.rules)
  {
    var useUdevd := env.udev.using == Ok(true);
    var loaded := Prestart.LoadedRules(env.udev.file);
    var rules := if useUdevd && loaded.Ok? then loaded.value else [];
    UnruleLoop(Prestart.Resolver(env), env.dev.devType, env.state, useUdevd, RulePass(rules, false, None),
               doc.devices, |doc.devices|)
  }

  /** `RemoveUdevRule`: the udev lock and the rule file first; then the
    * loop over the stored devices; the rules are saved whatever the loop
    * returned, and the saving's own error is ignored. */
  function RemoveUdevRuleSpec(env: HookEnv, doc: HookDoc, steps: seq<Step>): Outcome
    requires Prestart.UdevPre(env)
  {
    if UdevLock(env.udev).Some? then Outcome(steps, UdevLock(env.udev))
    else
      var useUdevd := env.udev.using == Ok(true);
      var loaded := Prestart.LoadedRules(env.udev.file);
      if useUdevd && loaded.Err? then Outcome(steps, Some(loaded.msg))
      else
        var t := UnruleAll(env, doc);
        Outcome(steps + Prestart.SavedSteps(env.udev, useUdevd && t.dirty, t.rules), t.err)
  }

  /** `RemoveUdevRule` fails exactly when locking fails (only a controller
    * that uses udevd can fail to lock), the rule file of a running udevd
    * cannot be read, or the type lookup of a stored block device fails. */
  lemma RemoveUdevRuleFails(env: HookEnv, doc: HookDoc, steps: seq<Step>)
    requires Prestart.UdevPre(env)
    ensures RemoveUdevRuleSpec(env, doc, steps).err.None? <==>
              UdevLock(env.udev).None? &&
              (env.udev.using == Ok(true) ==> Prestart.LoadedRules(env.udev.file).Ok?) &&
              forall j :: 0 <= j < |doc.devices| ==> !LookupFails(Prestart.Resolver(env), env.dev.devType, doc.devices[j])
  {
    var useUdevd := env.udev.using == Ok(true);
    var loaded := Prestart.LoadedRules(env.udev.file);
    var rules := if useUdevd && loaded.Ok? then loaded.value else [];
    UnruleLoopFails(Prestart.Resolver(env), env.dev.devType, env.state, useUdevd, RulePass(rules, false, None),
                    doc.devices, |doc.devices|);
  }

  /** With udevd in use and a rule file without two equal rules, a
    * `RemoveUdevRule` that gets through leaves exactly the rules of the
    * file that are not the rule of a stored disk, and rewrites the file
    * exactly when it removed one. */
  lemma RemoveUdevRuleEffect(env: HookEnv, doc: HookDoc, steps: seq<Step>)
    requires Prestart.UdevPre(env) && env.udev.lock.None? && env.udev.using == Ok(true)
    requires Prestart.LoadedRules(env.udev.file).Ok? && NoDuplicates(Prestart.LoadedRules(env.udev.file).value)
    requires env.udev.save == Saved
    ensures var loaded := Prestart.LoadedRules(env.udev.file).value;
            var t := UnruleAll(env, doc);
            var r := RemoveUdevRuleSpec(env, doc, steps);
            r.err.None? ==>
              (forall x :: x in t.rules <==>
                 x in loaded && !RuleOfDisk(Prestart.Resolver(env), env.dev.devType, env.state, doc.devices, |doc.devices|, x)) &&
              r.steps == steps + (if |t.rules| < |loaded| then [RulesSaved(SaveRules(t.rules))] else [])
  {
    var loaded := Prestart.LoadedRules(env.udev.file).value;
    var resolve := Prestart.Resolver(env);
    var n := |doc.devices|;
    var p := RulePass(loaded, false, None);
    var t := UnruleAll(env, doc);
    UnruleKeeps(resolve, env.dev.devType, env.state, true, p, doc.devices, n);
    UnruleDirty(resolve, env.dev.devType, env.state, true, p, doc.devices, n);
    UnruleClears(resolve, env.dev.devType, env.state, p, doc.devices, n);
  }

  /** One stored device, as `RemoveUdevRule`'s loop body runs it. */
  method UnruleOne(env: HookEnv, ctrl: Controller, m: DeviceMapping, ghost resolve: DeviceMapping -> Result<Device>)
    returns (err: Option<string>)
    modifies ctrl
    requires resolve == Prestart.Resolver(env) && |env.state.id| >= 8 && LibDevice.LongIds(ctrl.rules)
    ensures RulePass(ctrl.rules, ctrl.dirty, err) ==
            UnruleStep(resolve, env.dev.devType, env.state, ctrl.useUdevd, old(RulePass(ctrl.rules, ctrl.dirty, None)), m)
    ensures LibDevice.LongIds(ctrl.rules)
  {
    var parsed := Prestart.DeviceOf(env, m);
    if parsed.Err? || parsed.value.typ == "c" {
      return None;
    }
    var typ := env.dev.devType(parsed.value.pathOnHost);
    if typ.Err? {
      return Some(typ.msg);
    }
    if typ.value == "disk" {
      var rule := Prestart.DiskRule(env.state, m);
      LibDevice.LongIdsKept(ctrl.rules, rule);
      ctrl.RemoveRule(rule);
    }
    return None;
  }

  /** One more turn of `RemoveUdevRule`'s loop, as the loop sees it. */
  method UnruleTurn(env: HookEnv, ctrl: Controller, ms: seq<DeviceMapping>, i: nat,
                    ghost resolve: DeviceMapping -> Result<Device>, ghost p: RulePass)
    returns (err: Option<string>)
    modifies ctrl
    requires resolve == Prestart.Resolver(env) && |env.state.id| >= 8 && LibDevice.LongIds(ctrl.rules) && i < |ms|
    requires UnruleLoop(resolve, env.dev.devType, env.state, ctrl.useUdevd, p, ms, i) == RulePass(ctrl.rules, ctrl.dirty, None)
    ensures UnruleLoop(resolve, env.dev.devType, env.state, ctrl.useUdevd, p, ms, i + 1) == RulePass(ctrl.rules, ctrl.dirty, err)
    ensures LibDevice.LongIds(ctrl.rules)
  {
    err := UnruleOne(env, ctrl, ms[i], resolve);
  }

  /** The loop of `RemoveUdevRule` over the stored devices. */
  method UnruleDevices(env: HookEnv, ctrl: Controller, ms: seq<DeviceMapping>, ghost resolve: DeviceMapping -> Result<Device>)
    returns (err: Option<string>)
    modifies ctrl
    requires resolve == Prestart.Resolver(env) && |env.state.id| >= 8 && LibDevice.LongIds(ctrl.rules)
    ensures RulePass(ctrl.rules, ctrl.dirty, err) ==
            UnruleLoop(resolve, env.dev.devType, env.state, ctrl.useUdevd, old(RulePass(ctrl.rules, ctrl.dirty, None)), ms, |ms|)
    ensures LibDevice.LongIds(ctrl.rules)
  {
    ghost var p := RulePass(ctrl.rules, ctrl.dirty, None);
    err := None;
    var i := 0;
    while i < |ms| && err.None?
      invariant i <= |ms|
      invariant UnruleLoop(resolve, env.dev.devType, env.state, ctrl.useUdevd, p, ms, i) == RulePass(ctrl.rules, ctrl.dirty, err)
      invariant LibDevice.LongIds(ctrl.rules)
    {
      err := UnruleTurn(env, ctrl, ms, i, resolve, p);
      i := i + 1;
    }
    if err.Some? {
      UnruleStay(resolve, env.dev.devType, env.state, ctrl.useUdevd, p, ms, i, |ms|);
    }
  }

  /** `RemoveUdevRule` as the source runs it: the udev controller is made
    * and loaded, the stored devices are visited in order until a type
    * lookup fails, and the rules are saved on the way out. */
  method RemoveUdevRule(env: HookEnv, cfg: ContainerHookConfig, steps0: seq<Step>)
    returns (steps: seq<Step>, err: Option<string>)
    requires Prestart.UdevPre(env)
    ensures Outcome(steps, err) == RemoveUdevRuleSpec(env, cfg.Doc(), steps0)
  {
    if UdevLock(env.udev).Some? {
      return steps0, UdevLock(env.udev);
    }
    var ctrl := new Controller(env.udev.using);
    err := ctrl.LoadRules(env.udev.file);
    if err.Some? {
      return steps0, err;
    }
    ghost var loaded := Prestart.LoadedRules(env.udev.file);
    assert ctrl.rules == (if ctrl.useUdevd && loaded.Ok? then loaded.value else []) && !ctrl.dirty;
    err := UnruleDevices(env, ctrl, cfg.devices, Prestart.Resolver(env));
    steps := Prestart.SaveOnExit(env, ctrl, steps0);
  }

  // ---------------------------------------------------------------------
  // RemoveNetworkDevices

  const OpenNetnsFailed: string := "[device-hook] Failed to Open netns file "
  const UnmountNetnsFailed: string := "[device-hook] Failed to Unmount netns file "

  function DelNicStep(): InterfaceConf -> Step
  {
    c => DelNic(c)
  }

  /** `RemoveNetworkDevices`: nothing without the container's netns file;
    * otherwise every stored interface is deleted, whatever the deletions
    * answer, then the file is unmounted, and removed on the way out.  Only
    * the unmount's error is returned. */
  function RemoveNetworkDevicesSpec(env: HookEnv, doc: HookDoc, steps: seq<Step>): (r: Outcome)
    ensures r.err.Some? <==> env.netns.open.Some? || env.netns.unmount.Some?
    ensures |r.steps| >= |steps| && r.steps[..|steps|] == steps
    ensures env.netns.open.None? ==>
              |r.steps| == |steps| + |doc.nics| + 2 &&
              forall i :: 0 <= i < |doc.nics| ==> r.steps[|steps| + i] == DelNic(doc.nics[i])
  {
    if env.netns.open.Some? then Outcome(steps, Some(OpenNetnsFailed + env.netns.open.value))
    else
      var f := NetnsFile(env.state.id);
      Outcome(steps + Map(doc.nics, DelNicStep()) + [NetnsUnmount(f), NetnsRemove(f)],
              if env.netns.unmount.Some? then Some(UnmountNetnsFailed + env.netns.unmount.value) else None)
  }

  /** The interface an `AddNic` step adds. */
  function AddedNic(): Step -> Option<InterfaceConf>
  {
    (st: Step) => if st.AddNic? then Some(st.nic) else None
  }

  /** The interface a `DelNic` step deletes. */
  function DeletedNic(): Step -> Option<InterfaceConf>
  {
    (st: Step) => if st.DelNic? then Some(st.nic) else None
  }

  /** Picking back what a map made gives the list. */
  lemma {:induction false} FilterMapOfMap<A, B>(xs: seq<A>, f: A -> B, g: B -> Option<A>)
    requires forall x :: g(f(x)) == Some(x)
    ensures FilterMap(Map(xs, f), g) == xs
    decreases |xs|
  {
    if |xs| > 0 {
      var init := xs[..|xs| - 1];
      FilterMapOfMap(init, f, g);
      assert Map(xs, f) == Map(init, f) + [f(xs[|xs| - 1])];
      FilterMapSnoc(Map(init, f), f(xs[|xs| - 1]), g);
    }
  }

  /** Picking from a map whose every item is passed over gives nothing. */
  lemma {:induction false} FilterMapOfMapNone<A, B, C>(xs: seq<A>, f: A -> B, g: B -> Option<C>)
    requires forall x :: g(f(x)).None?
    ensures FilterMap(Map(xs, f), g) == []
    decreases |xs|
  {
    if |xs| > 0 {
      var init := xs[..|xs| - 1];
      FilterMapOfMapNone(init, f, g);
      assert Map(xs, f) == Map(init, f) + [f(xs[|xs| - 1])];
      FilterMapSnoc(Map(init, f), f(xs[|xs| - 1]), g);
    }
  }

  /** The interfaces prestart's `UpdateNetwork` steps add: those of its
    * `AddNic` steps, in order. */
  lemma {:induction false} AddedNicsOf(bind: Step, nics: seq<InterfaceConf>, routes: seq<Route>)
    requires bind.NetnsMount?
    ensures FilterMap([bind] + Map(nics, Prestart.NicStep()) + Map(routes, Prestart.RouteStep()), AddedNic()) == nics
  {
    var ns := Map(nics, Prestart.NicStep());
    var rs := Map(routes, Prestart.RouteStep());
    FilterMapOfMap(nics, Prestart.NicStep(), AddedNic());
    FilterMapOfMapNone(routes, Prestart.RouteStep(), AddedNic());
    FilterMapAppend([bind], ns, AddedNic());
    FilterMapAppend([bind] + ns, rs, AddedNic());
    FilterMapSnoc([], bind, AddedNic());
    assert [] + [bind] == [bind];
  }

  /** The interfaces `RemoveNetworkDevices`' steps delete. */
  lemma {:induction false} DeletedNicsOf(nics: seq<InterfaceConf>, f: string)
    ensures FilterMap(Map(nics, DelNicStep()) + [NetnsUnmount(f), NetnsRemove(f)], DeletedNic()) == nics
  {
    var ds := Map(nics, DelNicStep());
    FilterMapOfMap(nics, DelNicStep(), DeletedNic());
    FilterMapAppend(ds, [NetnsUnmount(f), NetnsRemove(f)], DeletedNic());
    FilterMapSnoc([], NetnsUnmount(f), DeletedNic());
    FilterMapSnoc([NetnsUnmount(f)], NetnsRemove(f), DeletedNic());
    assert [] + [NetnsUnmount(f)] == [NetnsUnmount(f)];
    assert [NetnsUnmount(f)] + [NetnsRemove(f)] == [NetnsUnmount(f), NetnsRemove(f)];
  }

  /** What follows the earlier steps in prestart's network steps. */
  lemma {:induction false} MadeNics(all: seq<Step>, earlier: seq<Step>, bind: Step, nics: seq<InterfaceConf>, routes: seq<Route>)
    requires bind.NetnsMount?
    requires all == earlier + [bind] + Map(nics, Prestart.NicStep()) + Map(routes, Prestart.RouteStep())
    ensures |all| > |earlier| && all[|earlier|] == bind && FilterMap(all[|earlier|..], AddedNic()) == nics
  {
    var tail := [bind] + Map(nics, Prestart.NicStep()) + Map(routes, Prestart.RouteStep());
    assert all == earlier + tail;
    assert all[|earlier|..] == tail;
    AddedNicsOf(bind, nics, routes);
  }

  /** The interfaces prestart's `UpdateNetwork` adds, when it gets
    * through: the stored ones, in order, after the netns file was bound. */
  lemma NicsAdded(env: HookEnv, s: Prestart.Run)
    requires s.err.None? && Prestart.UpdateNetworkSpec(env, s).err.None?
    ensures var all := Prestart.UpdateNetworkSpec(env, s).steps;
            |all| > |s.steps| && all[|s.steps|] == NetnsMount(NetnsOf(env.state.pid), NetnsFile(env.state.id)) &&
            FilterMap(all[|s.steps|..], AddedNic()) == s.doc.nics
  {
    Prestart.UpdateNetworkSteps(env, s);
    MadeNics(Prestart.UpdateNetworkSpec(env, s).steps, s.steps, Prestart.NetnsBind(env.state), s.doc.nics, s.doc.routes);
  }

  /** The interfaces poststop's `RemoveNetworkDevices` deletes, when it
    * finds the netns file: the stored ones, in order, before the file is
    * unmounted. */
  lemma NicsDeleted(env: HookEnv, doc: HookDoc)
    requires env.netns.open.None?
    ensures var undone := RemoveNetworkDevicesSpec(env, doc, []).steps;
            |undone| >= 2 && undone[|undone| - 2] == NetnsUnmount(NetnsFile(env.state.id)) &&
            FilterMap(undone, DeletedNic()) == doc.nics
  {
    DeletedNicsOf(doc.nics, NetnsFile(env.state.id));
    assert [] + Map(doc.nics, DelNicStep()) == Map(doc.nics, DelNicStep());
  }

  /** Poststop undoes prestart's network work: when prestart's
    * `UpdateNetwork` got through and poststop finds the netns file, the
    * interfaces poststop deletes are the ones prestart added, in the same
    * order, and the file poststop unmounts is the one prestart mounted the
    * container's namespace on. */
  lemma NetworkUndone(pre: HookEnv, post: HookEnv, s: Prestart.Run)
    requires s.err.None? && Prestart.UpdateNetworkSpec(pre, s).err.None?
    requires post.state.id == pre.state.id && post.netns.open.None?
    ensures var all := Prestart.UpdateNetworkSpec(pre, s).steps;
            var undone := RemoveNetworkDevicesSpec(post, s.doc, []).steps;
            |all| > |s.steps| && |undone| >= 2 &&
            FilterMap(undone, DeletedNic()) == FilterMap(all[|s.steps|..], AddedNic()) &&
            all[|s.steps|].NetnsMount? && undone[|undone| - 2] == NetnsUnmount(all[|s.steps|].target)
  {
    NicsAdded(pre, s);
    NicsDeleted(post, s.doc);
  }

  /** `RemoveNetworkDevices` as the source runs it. */
  method RemoveNetworkDevices(env: HookEnv, cfg: ContainerHookConfig, steps0: seq<Step>)
    returns (steps: seq<Step>, err: Option<string>)
    ensures Outcome(steps, err) == RemoveNetworkDevicesSpec(env, cfg.Doc(), steps0)
  {
    if env.netns.open.Some? {
      return steps0, Some(OpenNetnsFailed + env.netns.open.value);
    }
    var f := NetnsFile(env.state.id);
    var nics := cfg.nics;
    steps := steps0;
    var i := 0;
    while i < |nics|
      invariant i <= |nics|
      invariant steps == steps0 + Map(nics[..i], DelNicStep())
    {
      var ignored := LibNic.DelNicFromContainer(env.nic.(netNs := f), nics[i]);
      assert nics[..i + 1] == nics[..i] + [nics[i]];
      MapSnoc(nics[..i], nics[i], DelNicStep());
      steps := steps + [DelNic(nics[i])];
      i := i + 1;
    }
    assert nics[..i] == nics;
    err := None;
    if env.netns.unmount.Some? {
      err := Some(UnmountNetnsFailed + env.netns.unmount.value);
    }
    steps := steps + [NetnsUnmount(f), NetnsRemove(f)];
  }

  // ---------------------------------------------------------------------
  // RemoveSharedPath

  /** The host calls of one stored bind: none when it does not parse;
    * otherwise the release of its middle path and of its transfer path. */
  function UnshareSteps(env: HookEnv, spec: Spec, bindstr: string): seq<Step>
  {
    match StringToBind("/", bindstr, spec, false, env.hostView)
    case Err(_) => []
    case Ok(b) => HostSteps(Transfer.RemoveTransferPath(env.dev.host, env.dev.digest, env.state.id, b).steps)
  }

  /** Host calls as steps. */
  function HostSteps(h: seq<Transfer.HostStep>): seq<Step>
  {
    Prestart.DevSteps(LibDevice.HostCalls(h))
  }

  function UnshareOf(env: HookEnv, spec: Spec): string -> seq<Step>
  {
    b => UnshareSteps(env, spec, b)
  }

  /** `RemoveContainerSpecPath`: the container's middle directory, then its
    * master directory, are removed; failures are only logged. */
  function SpecPathSteps(id: string): seq<Step>
  {
    HostSteps([Transfer.RemoveAll(Transfer.GetContainerMidDir(id)), Transfer.RemoveAll(Transfer.GetContainerSpecDir(id))])
  }

  /** `RemoveSharedPath`: every stored bind, then the container's
    * directories; it never fails. */
  function RemoveSharedPathSpec(env: HookEnv, spec: Spec, doc: HookDoc, steps: seq<Step>): Outcome
  {
    Outcome(steps + SharedSteps(env, spec, doc), None)
  }

  /** The calls `RemoveSharedPath` makes. */
  function SharedSteps(env: HookEnv, spec: Spec, doc: HookDoc): seq<Step>
  {
    Prestart.FlatMap(doc.binds, UnshareOf(env, spec)) + SpecPathSteps(env.state.id)
  }

  /** The path a host call acts on. */
  function Touched(h: Transfer.HostStep): string
  {
    match h
    case MkdirAll(p) => p
    case CreateFile(p) => p
    case MountAt(_, t, _) => t
    case Unmount(p) => p
    case RemoveAll(p) => p
  }

  /** A path at or below a directory. */
  predicate Under(p: string, dir: string)
  {
    p == dir || HasPrefix(p, dir + "/")
  }

  /** An element of a directory is below it. */
  lemma ChildUnder(dir: string, name: string)
    ensures Under(dir + "/" + name, dir)
  {
    assert (dir + "/" + name)[..|dir + "/"|] == dir + "/";
  }

  /** A path inside the container's middle or master directory. */
  predicate WithinContainer(id: string, p: string)
  {
    Under(p, Transfer.MidTransferPath + "/" + id) || Under(p, Transfer.MasterPath + "/" + id)
  }

  /** Each host call acts on a path inside the container's directories. */
  ghost predicate TouchesWithin(id: string, h: seq<Transfer.HostStep>)
  {
    forall k :: 0 <= k < |h| ==> WithinContainer(id, Touched(h[k]))
  }

  /** Each step is a host call inside the container's directories. */
  ghost predicate AllWithin(id: string, steps: seq<Step>)
  {
    forall k :: 0 <= k < |steps| ==> steps[k].Dev? && steps[k].call.HostCall? && WithinContainer(id, Touched(steps[k].call.step))
  }

  lemma TouchesAppend(id: string, a: seq<Transfer.HostStep>, b: seq<Transfer.HostStep>)
    requires TouchesWithin(id, a) && TouchesWithin(id, b)
    ensures TouchesWithin(id, a + b)
  {
    forall k | 0 <= k < |a + b|
      ensures WithinContainer(id, Touched((a + b)[k]))
    {
      if k >= |a| {
        assert (a + b)[k] == b[k - |a|];
      }
    }
  }

  lemma AllWithinAppend(id: string, a: seq<Step>, b: seq<Step>)
    requires AllWithin(id, a) && AllWithin(id, b)
    ensures AllWithin(id, a + b)
  {
    forall k | 0 <= k < |a + b|
      ensures (a + b)[k].Dev? && (a + b)[k].call.HostCall? && WithinContainer(id, Touched((a + b)[k].call.step))
    {
      if k >= |a| {
        assert (a + b)[k] == b[k - |a|];
      }
    }
  }

  /** Host calls on paths inside the container's directories, as steps,
    * stay inside them. */
  lemma HostStepsWithin(id: string, h: seq<Transfer.HostStep>)
    requires TouchesWithin(id, h)
    ensures AllWithin(id, HostSteps(h))
  {
  }

  /** Releasing a mount point touches that path only. */
  lemma ReleasePointWithin(ops: Transfer.HostOps, id: string, p: string)
    requires WithinContainer(id, p)
    ensures TouchesWithin(id, Transfer.ReleaseMountpoint(ops, p).steps)
  {
  }

  /** Releasing a bind's paths touches only its middle path and its
    * transfer path, which lie in the container's directories. */
  lemma ReleaseWithin(ops: Transfer.HostOps, digest: string -> string, id: string, b: Bind)
    requires PlainName(id) && PlainName(digest(b.hostPath))
    ensures TouchesWithin(id, Transfer.RemoveTransferPath(ops, digest, id, b).steps)
  {
    var (mid, tr) := Transfer.GetTransferPath(digest, id, b.hostPath);
    Transfer.MidPathOf(digest, id, b.hostPath);
    Transfer.TransferPathOf(digest, id, b.hostPath);
    ChildUnder(Transfer.MidTransferPath + "/" + id, digest(b.hostPath));
    ChildUnder(Transfer.MasterPath + "/" + id, digest(b.hostPath));
    ReleasePointWithin(ops, id, mid);
    ReleasePointWithin(ops, id, tr);
    TouchesAppend(id, Transfer.ReleaseMountpoint(ops, mid).steps, Transfer.ReleaseMountpoint(ops, tr).steps);
  }

  /** The container's own two directories are inside them. */
  lemma SpecPathWithin(id: string)
    requires PlainName(id)
    ensures AllWithin(id, SpecPathSteps(id))
  {
    Transfer.MidDirOf(id);
    Transfer.SpecDirOf(id);
    HostStepsWithin(id, [Transfer.RemoveAll(Transfer.GetContainerMidDir(id)), Transfer.RemoveAll(Transfer.GetContainerSpecDir(id))]);
  }

  /** The release of one stored bind stays inside the container's
    * directories. */
  lemma UnshareWithin(env: HookEnv, spec: Spec, bindstr: string)
    requires PlainName(env.state.id) && forall p :: PlainName(env.dev.digest(p))
    ensures AllWithin(env.state.id, UnshareSteps(env, spec, bindstr))
  {
    var parsed := StringToBind("/", bindstr, spec, false, env.hostView);
    if parsed.Ok? {
      var h := Transfer.RemoveTransferPath(env.dev.host, env.dev.digest, env.state.id, parsed.value).steps;
      ReleaseWithin(env.dev.host, env.dev.digest, env.state.id, parsed.value);
      HostStepsWithin(env.state.id, h);
    }
  }

  lemma {:induction false} FlatMapWithin(env: HookEnv, spec: Spec, binds: seq<string>)
    requires PlainName(env.state.id) && forall p :: PlainName(env.dev.digest(p))
    ensures AllWithin(env.state.id, Prestart.FlatMap(binds, UnshareOf(env, spec)))
    decreases |binds|
  {
    if |binds| > 0 {
      FlatMapWithin(env, spec, binds[..|binds| - 1]);
      UnshareWithin(env, spec, binds[|binds| - 1]);
      AllWithinAppend(env.state.id, Prestart.FlatMap(binds[..|binds| - 1], UnshareOf(env, spec)),
                      UnshareSteps(env, spec, binds[|binds| - 1]));
    }
  }

  /** Every call `RemoveSharedPath` makes unmounts or removes a path inside
    * the stopped container's middle or master directory: the host's other
    * paths are never touched. */
  lemma RemoveSharedPathWithin(env: HookEnv, spec: Spec, doc: HookDoc)
    requires PlainName(env.state.id) && forall p :: PlainName(env.dev.digest(p))
    ensures var r := RemoveSharedPathSpec(env, spec, doc, []);
            r.err.None? && AllWithin(env.state.id, r.steps)
  {
    var shared := Prestart.FlatMap(doc.binds, UnshareOf(env, spec));
    var own := SpecPathSteps(env.state.id);
    FlatMapWithin(env, spec, doc.binds);
    SpecPathWithin(env.state.id);
    AllWithinAppend(env.state.id, shared, own);
    assert SharedSteps(env, spec, doc) == shared + own;
    assert RemoveSharedPathSpec(env, spec, doc, []).steps == [] + (shared + own) == shared + own;
  }

  /** A stored bind reaches the same transfer paths in both phases:
    * prestart re-roots it under the container's root file system,
    * poststop under "/", and both keep its host path, which alone names
    * the middle and the transfer path. */
  lemma SharedPathsMatch(pre: HookEnv, post: HookEnv, spec: Spec, b: Bind)
    requires post.state.id == pre.state.id && post.dev.digest == pre.dev.digest
    requires ':' !in b.hostPath && ':' !in b.containerPath && ':' !in b.mountOption
    requires ':' !in JoinPath([pre.state.root, b.containerPath]) && ':' !in JoinPath(["/", b.containerPath])
    ensures var made := StringToBind(pre.state.root, BindToString(b), spec, true, pre.hostView);
            var undone := StringToBind("/", BindToString(b), spec, false, post.hostView);
            made.Ok? && undone.Ok? ==>
              Transfer.GetTransferPath(post.dev.digest, post.state.id, undone.value.hostPath) ==
              Transfer.GetTransferPath(pre.dev.digest, pre.state.id, made.value.hostPath)
  {
    StoredBindRerooted(pre.state.root, b, spec, true, pre.hostView);
    StoredBindRerooted("/", b, spec, false, post.hostView);
  }

  /** One stored bind, as `RemoveSharedPath`'s loop body runs it. */
  method Unshare(env: HookEnv, spec: Spec, bindstr: string) returns (steps: seq<Step>)
    ensures steps == UnshareSteps(env, spec, bindstr)
  {
    var parsed := StringToBind("/", bindstr, spec, false, env.hostView);
    if parsed.Err? {
      return [];
    }
    var done := Transfer.RemoveTransferPath(env.dev.host, env.dev.digest, env.state.id, parsed.value);
    steps := HostSteps(done.steps);
  }

  /** One more turn of `RemoveSharedPath`'s loop, as the loop sees it. */
  method UnshareTurn(env: HookEnv, spec: Spec, binds: seq<string>, i: nat, steps0: seq<Step>, ghost pre: seq<Step>)
    returns (steps: seq<Step>)
    requires i < |binds| && steps0 == pre + Prestart.FlatMap(binds[..i], UnshareOf(env, spec))
    ensures steps == pre + Prestart.FlatMap(binds[..i + 1], UnshareOf(env, spec))
  {
    Prestart.FlatMapSnoc(binds, i, UnshareOf(env, spec));
    var more := Unshare(env, spec, binds[i]);
    steps := steps0 + more;
  }

  /** `RemoveSharedPath` as the source runs it. */
  method RemoveSharedPath(env: HookEnv, spec: Spec, cfg: ContainerHookConfig, steps0: seq<Step>)
    returns (steps: seq<Step>, err: Option<string>)
    ensures Outcome(steps, err) == RemoveSharedPathSpec(env, spec, cfg.Doc(), steps0)
  {
    var binds := cfg.binds;
    steps := steps0;
    var i := 0;
    while i < |binds|
      invariant i <= |binds|
      invariant steps == steps0 + Prestart.FlatMap(binds[..i], UnshareOf(env, spec))
    {
      steps := UnshareTurn(env, spec, binds, i, steps, steps0);
      i := i + 1;
    }
    assert binds[..i] == binds;
    Assoc(steps0, Prestart.FlatMap(binds, UnshareOf(env, spec)), SpecPathSteps(env.state.id));
    steps := steps + SpecPathSteps(env.state.id);
    err := None;
  }

  // ---------------------------------------------------------------------
  // postStopHook

  /** The actions of the poststop phase. */
  datatype StopAction = RemoveUdevRuleAction | RemoveNetworkDevicesAction | RemoveSharedPathAction | PostStopRelabelAction

  /** `postStopHook`'s list: the relabel action comes last, and only when
    * relabelling is asked for. */
  function PoststopActions(withRelabel: bool): seq<StopAction>
  {
    [RemoveUdevRuleAction, RemoveNetworkDevicesAction, RemoveSharedPathAction] +
    (if withRelabel then [PostStopRelabelAction] else [])
  }

  /** One action, after the calls made so far.  The relabel action's work
    * is not part of this model: it is one step with the answer it gets. */
  function StopActionSpec(env: HookEnv, spec: Spec, doc: HookDoc, a: StopAction, steps: seq<Step>): Outcome
    requires Prestart.UdevPre(env)
  {
    match a
    case RemoveUdevRuleAction => RemoveUdevRuleSpec(env, doc, steps)
    case RemoveNetworkDevicesAction => RemoveNetworkDevicesSpec(env, doc, steps)
    case RemoveSharedPathAction => RemoveSharedPathSpec(env, spec, doc, steps)
    case PostStopRelabelAction => Outcome(steps + [Relabel], env.relabel)
  }

  /** The calls made and the errors logged. */
  datatype Stopped = Stopped(steps: seq<Step>, logged: seq<string>)

  /** What an action's error adds to the log. */
  function Logged(err: Option<string>): seq<string>
  {
    if err.Some? then [err.value] else []
  }

  /** The actions in order; each runs whatever the earlier ones returned,
    * and its error is only logged. */
  function StopLoop(env: HookEnv, spec: Spec, doc: HookDoc, acts: seq<StopAction>, s: Stopped): Stopped
    requires Prestart.UdevPre(env)
    decreases |acts|
  {
    if |acts| == 0 then s
    else
      var t := StopLoop(env, spec, doc, acts[..|acts| - 1], s);
      var o := StopActionSpec(env, spec, doc, acts[|acts| - 1], t.steps);
      Stopped(o.steps, t.logged + Logged(o.err))
  }


  /** `RemoveUdevRule`'s calls follow the earlier ones and do not depend
    * on them. */
  lemma UdevAppends(env: HookEnv, doc: HookDoc, steps: seq<Step>)
    requires Prestart.UdevPre(env)
    ensures var o := RemoveUdevRuleSpec(env, doc, []);
            RemoveUdevRuleSpec(env, doc, steps) == Outcome(steps + o.steps, o.err)
  {
    if UdevLock(env.udev).None? {
      var t := UnruleAll(env, doc);
      var saved := Prestart.SavedSteps(env.udev, env.udev.using == Ok(true) && t.dirty, t.rules);
      assert [] + saved == saved;
    }
  }

  /** ... and so do `RemoveNetworkDevices`' ... */
  lemma NetworkAppends(env: HookEnv, doc: HookDoc, steps: seq<Step>)
    ensures var o := RemoveNetworkDevicesSpec(env, doc, []);
            RemoveNetworkDevicesSpec(env, doc, steps) == Outcome(steps + o.steps, o.err)
  {
    if env.netns.open.None? {
      var f := NetnsFile(env.state.id);
      var dels := Map(doc.nics, DelNicStep());
      var last := [NetnsUnmount(f), NetnsRemove(f)];
      assert [] + dels + last == dels + last;
      Assoc(steps, dels, last);
    }
  }

  /** ... and `RemoveSharedPath`'s. */
  lemma SharedAppends(env: HookEnv, spec: Spec, doc: HookDoc, steps: seq<Step>)
    ensures var o := RemoveSharedPathSpec(env, spec, doc, []);
            RemoveSharedPathSpec(env, spec, doc, steps) == Outcome(steps + o.steps, o.err)
  {
    assert [] + SharedSteps(env, spec, doc) == SharedSteps(env, spec, doc);
  }

  /** An action's calls follow the earlier ones and do not depend on them. */
  lemma StopActionAppends(env: HookEnv, spec: Spec, doc: HookDoc, a: StopAction, steps: seq<Step>)
    requires Prestart.UdevPre(env)
    ensures var o := StopActionSpec(env, spec, doc, a, []);
            StopActionSpec(env, spec, doc, a, steps) == Outcome(steps + o.steps, o.err)
  {
    match a
    case RemoveUdevRuleAction => UdevAppends(env, doc, steps);
    case RemoveNetworkDevicesAction => NetworkAppends(env, doc, steps);
    case RemoveSharedPathAction => SharedAppends(env, spec, doc, steps);
    case PostStopRelabelAction =>
  }

  /** One more action of the loop. */
  lemma StopLoopSnoc(env: HookEnv, spec: Spec, doc: HookDoc, acts: seq<StopAction>, a: StopAction, s: Stopped)
    requires Prestart.UdevPre(env)
    ensures var t := StopLoop(env, spec, doc, acts, s);
            var o := StopActionSpec(env, spec, doc, a, t.steps);
            StopLoop(env, spec, doc, acts + [a], s) == Stopped(o.steps, t.logged + Logged(o.err))
  {
    assert (acts + [a])[..|acts|] == acts;
  }

  /** Each action on its own, after no earlier calls. */
  function Alone(env: HookEnv, spec: Spec, doc: HookDoc): StopAction --> Outcome
  {
    a requires Prestart.UdevPre(env) => StopActionSpec(env, spec, doc, a, [])
  }

  /** The loop, with each action's own calls and error given by `run`. */
  function Fold(run: StopAction --> Outcome, acts: seq<StopAction>, s: Stopped): Stopped
    requires forall a :: run.requires(a)
    decreases |acts|
  {
    if |acts| == 0 then s
    else
      var t := Fold(run, acts[..|acts| - 1], s);
      var o := run(acts[|acts| - 1]);
      Stopped(t.steps + o.steps, t.logged + Logged(o.err))
  }

  /** One more action of the fold. */
  lemma FoldSnoc(run: StopAction --> Outcome, acts: seq<StopAction>, a: StopAction, s: Stopped)
    requires forall a :: run.requires(a)
    ensures var t := Fold(run, acts, s);
            Fold(run, acts + [a], s) == Stopped(t.steps + run(a).steps, t.logged + Logged(run(a).err))
  {
    assert (acts + [a])[..|acts|] == acts;
  }

  /** The fold of three actions. */
  lemma FoldThree(run: StopAction --> Outcome, x: StopAction, y: StopAction, z: StopAction, s: Stopped)
    requires forall a :: run.requires(a)
    ensures Fold(run, [x, y, z], s) ==
            Stopped(s.steps + run(x).steps + run(y).steps + run(z).steps,
                    s.logged + Logged(run(x).err) + Logged(run(y).err) + Logged(run(z).err))
  {
    FoldSnoc(run, [], x, s);
    FoldSnoc(run, [x], y, s);
    FoldSnoc(run, [x, y], z, s);
    assert [] + [x] == [x];
    assert [x] + [y] == [x, y];
    assert [x, y] + [z] == [x, y, z];
  }

  /** Since every action appends its own calls, the loop is the fold of the
    * actions taken alone. */
  lemma {:induction false} StopLoopFold(env: HookEnv, spec: Spec, doc: HookDoc, acts: seq<StopAction>, s: Stopped)
    requires Prestart.UdevPre(env)
    ensures StopLoop(env, spec, doc, acts, s) == Fold(Alone(env, spec, doc), acts, s)
    decreases |acts|
  {
    if |acts| > 0 {
      var prefix := acts[..|acts| - 1];
      StopLoopFold(env, spec, doc, prefix, s);
      StopActionAppends(env, spec, doc, acts[|acts| - 1], StopLoop(env, spec, doc, prefix, s).steps);
    }
  }

  /** `postStopHook`: as `StopLoopFold` shows, the actions in order, each
    * making its own calls whatever the earlier ones returned. */
  function PoststopSpec(env: HookEnv, spec: Spec, doc: HookDoc, withRelabel: bool, steps: seq<Step>): Stopped
    requires Prestart.UdevPre(env)
  {
    Fold(Alone(env, spec, doc), PoststopActions(withRelabel), Stopped(steps, []))
  }

  /** Every poststop action runs, whatever the earlier ones returned: the
    * phase's calls are those of the udev rules, the network devices and
    * the shared paths, each as it would make them alone, then the
    * relabelling when asked for; the log holds the errors of the actions
    * that failed, in order, and never one of `RemoveSharedPath`. */
  lemma PoststopRunsAll(env: HookEnv, spec: Spec, doc: HookDoc, withRelabel: bool, steps: seq<Step>)
    requires Prestart.UdevPre(env)
    ensures var u := RemoveUdevRuleSpec(env, doc, []);
            var n := RemoveNetworkDevicesSpec(env, doc, []);
            var sh := RemoveSharedPathSpec(env, spec, doc, []);
            var r := PoststopSpec(env, spec, doc, withRelabel, steps);
            r.steps == steps + u.steps + n.steps + sh.steps + (if withRelabel then [Relabel] else []) &&
            r.logged == Logged(u.err) + Logged(n.err) + (if withRelabel then Logged(env.relabel) else [])
  {
    AloneRuns(env, spec, doc);
    FoldPoststop(Alone(env, spec, doc), withRelabel, steps);
  }

  /** Each action alone is its own specification. */
  lemma AloneRuns(env: HookEnv, spec: Spec, doc: HookDoc)
    requires Prestart.UdevPre(env)
    ensures Alone(env, spec, doc)(RemoveUdevRuleAction) == RemoveUdevRuleSpec(env, doc, [])
    ensures Alone(env, spec, doc)(RemoveNetworkDevicesAction) == RemoveNetworkDevicesSpec(env, doc, [])
    ensures Alone(env, spec, doc)(RemoveSharedPathAction) == RemoveSharedPathSpec(env, spec, doc, [])
    ensures Alone(env, spec, doc)(PostStopRelabelAction) == Outcome([Relabel], env.relabel)
  {
    RelabelAlone(env, spec, doc);
  }

  /** The poststop actions folded with any `run` whose shared-path action
    * never fails. */
  lemma FoldPoststop(run: StopAction --> Outcome, withRelabel: bool, steps: seq<Step>)
    requires forall a :: run.requires(a)
    requires run(RemoveSharedPathAction).err.None?
    ensures var r := Fold(run, PoststopActions(withRelabel), Stopped(steps, []));
            var u, n, sh := run(RemoveUdevRuleAction), run(RemoveNetworkDevicesAction), run(RemoveSharedPathAction);
            r.steps == steps + u.steps + n.steps + sh.steps + (if withRelabel then run(PostStopRelabelAction).steps else []) &&
            r.logged == Logged(u.err) + Logged(n.err) + (if withRelabel then Logged(run(PostStopRelabelAction).err) else [])
  {
    var base := [RemoveUdevRuleAction, RemoveNetworkDevicesAction, RemoveSharedPathAction];
    FoldThree(run, RemoveUdevRuleAction, RemoveNetworkDevicesAction, RemoveSharedPathAction, Stopped(steps, []));
    LoggedTwo(Logged(run(RemoveUdevRuleAction).err), Logged(run(RemoveNetworkDevicesAction).err));
    if withRelabel {
      assert PoststopActions(withRelabel) == base + [PostStopRelabelAction];
      FoldSnoc(run, base, PostStopRelabelAction, Stopped(steps, []));
    } else {
      assert PoststopActions(withRelabel) == base;
    }
  }

  /** The relabel action alone is one step. */
  lemma RelabelAlone(env: HookEnv, spec: Spec, doc: HookDoc)
    requires Prestart.UdevPre(env)
    ensures Alone(env, spec, doc)(PostStopRelabelAction) == Outcome([Relabel], env.relabel)
  {
    assert [] + [Relabel] == [Relabel];
  }

  lemma LoggedTwo(a: seq<string>, b: seq<string>)
    ensures [] + a + b + [] == a + b
  {
  }

  /** One action, as `postStopHook`'s loop runs it. */
  method RunStopAction(env: HookEnv, spec: Spec, cfg: ContainerHookConfig, a: StopAction, steps0: seq<Step>)
    returns (steps: seq<Step>, err: Option<string>)
    requires Prestart.UdevPre(env)
    ensures Outcome(steps, err) == StopActionSpec(env, spec, cfg.Doc(), a, steps0)
  {
    match a
    case RemoveUdevRuleAction =>
      steps, err := RemoveUdevRule(env, cfg, steps0);
    case RemoveNetworkDevicesAction =>
      steps, err := RemoveNetworkDevices(env, cfg, steps0);
    case RemoveSharedPathAction =>
      steps, err := RemoveSharedPath(env, spec, cfg, steps0);
    case PostStopRelabelAction =>
      steps, err := steps0 + [Relabel], env.relabel;
  }

  /** `postStopHook` as the source runs it: every action in turn, its
    * error logged.  It has no `modifies` clause: the store is only read. */
  method PostStopHook(env: HookEnv, spec: Spec, cfg: ContainerHookConfig, withRelabel: bool, steps0: seq<Step>)
    returns (steps: seq<Step>, logged: seq<string>)
    requires Prestart.UdevPre(env)
    ensures Stopped(steps, logged) == PoststopSpec(env, spec, cfg.Doc(), withRelabel, steps0)
  {
    var acts := PoststopActions(withRelabel);
    steps, logged := steps0, [];
    var i := 0;
    while i < |acts|
      invariant i <= |acts|
      invariant StopLoop(env, spec, cfg.Doc(), acts[..i], Stopped(steps0, [])) == Stopped(steps, logged)
    {
      var err;
      assert acts[..i + 1][..i] == acts[..i];
      steps, err := RunStopAction(env, spec, cfg, acts[i], steps);
      logged := logged + Logged(err);
      i := i + 1;
    }
    assert acts[..i] == acts;
    StopLoopFold(env, spec, cfg.Doc(), acts, Stopped(steps0, []));
  }
}

/**
 * pkg/drivers/vcd: the vCloud Director driver. The driver object keeps its
 * configuration, the machine's name and administrator password, and two
 * HREF caches that spare the name lookups once the vApp and its VM are
 * known. `history` records the SDK calls the driver makes, in order.
 */
module Vcd {
  import opened Errors
  import opened Remote
  import opened VcdTypes
  import opened VcdLogic
  import Rdp
  import DriverHelpers

  /** `Create` waits for SSH this many times over. */
  const SshRounds := 10

  /** Dereferencing a nil section: the Go program panics. */
  const NilSpecSection: Error := Panic("nil pointer dereference: VmSpecSection")
  const NilMemoryResource: Error := Panic("nil pointer dereference: VmSpecSection.MemoryResourceMb")
  const NilGuestCustomization: Error := Panic("nil pointer dereference: GuestCustomizationSection")
  const NilOSType: Error := Panic("nil pointer dereference: VmSpecSection.OsType")

  /**
   * The calls `Create` may make, with the arguments it may make them with:
   * the vApp is composed only from the resolved network and template and the
   * selected storage profile; the hardware, network and guest sections sent
   * are the configured ones; the vApp powered on is the one just composed;
   * nothing is powered off, undeployed or deleted.
   */
  ghost predicate CreateMaySend(c: Call, cloud: Cloud, cfg: Config, name: string, password: string, w: Provisioning)
  {
    match c
    case ComposeVApp(network, template, profile, vappName, description) =>
      var r := ResolveReferences(cloud, cfg).result;
      && r.Ok? && network == r.value.network && template == r.value.template
      && SelectStorageProfile(cloud, r.value.vdc, cfg.storageProfile, ErrNoStorageProfile).result == Ok(profile)
      && vappName == name && description == cfg.description
    case UpdateVmSpecSection(spec, description) =>
      w.refreshed.spec.Some? && w.refreshed.spec.value.memoryResourceMb.Some?
      && spec == WithHardware(w.refreshed.spec.value, cfg) && description == cfg.description
    case UpdateNetworkConnectionSection(section) =>
      w.specUpdate.Ok? && section == Normalised(w.specUpdate.value.network, cfg.network)
    case SetGuestCustomizationSection(g) =>
      w.specUpdate.Ok? && w.specUpdate.value.guest.Some? && g == WithAdminPassword(w.specUpdate.value.guest.value, password)
    case PowerOn(href) =>
      var r := ResolveReferences(cloud, cfg).result;
      r.Ok? && cloud.vAppByName(r.value.vdc, name).Ok? && href == cloud.vAppByName(r.value.vdc, name).value.href
    case PowerOff(_) => false
    case Undeploy(_) => false
    case Delete(_) => false
    case _ => true
  }

  /** The lookups, the storage profile and the compose task all succeeded. */
  ghost predicate Composed(cloud: Cloud, cfg: Config, w: Provisioning)
  {
    var r := ResolveReferences(cloud, cfg).result;
    && r.Ok?
    && SelectStorageProfile(cloud, r.value.vdc, cfg.storageProfile, ErrNoStorageProfile).result.Ok?
    && w.compose.None? && w.composeWait.None?
  }

  /** The vApp `Create` looks up after composing. */
  ghost function NewVApp(cloud: Cloud, cfg: Config, name: string): Result<VApp>
    requires ResolveReferences(cloud, cfg).result.Ok?
  {
    cloud.vAppByName(ResolveReferences(cloud, cfg).result.value.vdc, name)
  }

  /** ... which holds one VM, whose refresh succeeded. */
  ghost predicate VmFound(cloud: Cloud, cfg: Config, name: string, w: Provisioning)
  {
    && Composed(cloud, cfg, w)
    && NewVApp(cloud, cfg, name).Ok?
    && |NewVApp(cloud, cfg, name).value.vms| == 1
    && cloud.refreshVm(NewVApp(cloud, cfg, name).value.vms[0]).Ok?
  }

  ghost function NewVm(cloud: Cloud, cfg: Config, name: string, w: Provisioning): Vm
    requires VmFound(cloud, cfg, name, w)
  {
    cloud.refreshVm(NewVApp(cloud, cfg, name).value.vms[0]).value
  }

  /** Every step up to and including power-on succeeded. */
  ghost predicate Booted(cloud: Cloud, cfg: Config, name: string, w: Provisioning)
  {
    && VmFound(cloud, cfg, name, w)
    && DeployWatch(None, w.deployPolls) == Deployed
    && NewVm(cloud, cfg, name, w).spec.Some?
    && w.refreshed.spec.Some? && w.refreshed.spec.value.memoryResourceMb.Some?
    && w.specUpdate.Ok?
    && w.networkUpdate.None?
    && w.specUpdate.value.guest.Some?
    && w.customizationWait.None? && w.powerOn.None? && w.powerOnWait.None?
  }

  /** The vApp HREF cache after `getVM`, which consults `getVApp` only when
      no VM HREF is cached. */
  function VAppCacheAfterVmLookup(cloud: Cloud, cfg: Config, name: string, cachedVApp: string, cachedVm: string): (h: string)
    ensures cachedVApp != "" ==> h == cachedVApp
    ensures cachedVm != "" ==> h == cachedVApp
  {
    if cachedVm != "" then cachedVApp
    else VAppCacheAfter(cachedVApp, VAppLookup(cloud, cfg, name, cachedVApp).result)
  }

  /** `history` extends `base`, and every call made since is one `Create`
      may make. */
  ghost predicate SentSince(h: seq<Call>, base: seq<Call>, cloud: Cloud, cfg: Config, name: string, password: string, w: Provisioning)
  {
    && |base| <= |h| && h[..|base|] == base
    && forall i :: |base| <= i < |h| ==> CreateMaySend(h[i], cloud, cfg, name, password, w)
  }

  lemma SentAppend(h: seq<Call>, calls: seq<Call>, base: seq<Call>, cloud: Cloud, cfg: Config, name: string, password: string, w: Provisioning)
    requires SentSince(h, base, cloud, cfg, name, password, w)
    requires forall c :: c in calls ==> CreateMaySend(c, cloud, cfg, name, password, w)
    ensures SentSince(h + calls, base, cloud, cfg, name, password, w)
  {
    assert (h + calls)[..|base|] == h[..|base|];
    forall i | |base| <= i < |h + calls|
      ensures CreateMaySend((h + calls)[i], cloud, cfg, name, password, w)
    {
      if i >= |h| {
        assert (h + calls)[i] in calls;
      }
    }
  }

  lemma SentAppendReadOnly(h: seq<Call>, calls: seq<Call>, base: seq<Call>, cloud: Cloud, cfg: Config, name: string, password: string, w: Provisioning)
    requires SentSince(h, base, cloud, cfg, name, password, w)
    requires forall c :: c in calls ==> ReadOnly(c)
    ensures SentSince(h + calls, base, cloud, cfg, name, password, w)
  {
    SentAppend(h, calls, base, cloud, cfg, name, password, w);
  }

  /** Both spec sections `Create` reads before the hardware update are
      there: the refreshed VM's, and the one of the second refresh with its
      memory resource. */
  predicate HardwareSent(vm: Vm, w: Provisioning)
  {
    vm.spec.Some? && w.refreshed.spec.Some? && w.refreshed.spec.value.memoryResourceMb.Some?
  }

  /**
   * The error `Create` stops with before the machine is up, in call order:
   * a lookup, the storage profile, the compose task, the vApp lookup, the
   * VM count, the VM refresh, the deploy watcher, a missing spec section,
   * the hardware update, the network update, the customisation wait, the
   * power-on and its task; a nil section the code dereferences is a panic.
   * None exactly when the machine was booted.
   */
  function PreBootError(cloud: Cloud, cfg: Config, name: string, w: Provisioning): (e: Option<Error>)
    ensures e.None? <==> Booted(cloud, cfg, name, w)
    ensures var r := ResolveReferences(cloud, cfg).result;
      && (r.Err? ==> e == Some(r.error))
      && (r.Ok? ==>
            var sp := SelectStorageProfile(cloud, r.value.vdc, cfg.storageProfile, ErrNoStorageProfile).result;
            && (sp.Err? ==> e == Some(sp.error))
            && (sp.Ok? && w.compose.Some? ==> e == w.compose)
            && (sp.Ok? && w.compose.None? && w.composeWait.Some? ==> e == w.composeWait))
    ensures Composed(cloud, cfg, w) ==>
      var v := NewVApp(cloud, cfg, name);
      && (v.Err? ==> e == Some(v.error))
      && (v.Ok? && |v.value.vms| != 1 ==> e == Some(ErrVMCount))
      && (v.Ok? && |v.value.vms| == 1 && cloud.refreshVm(v.value.vms[0]).Err? ==>
            e == Some(cloud.refreshVm(v.value.vms[0]).error))
    ensures VmFound(cloud, cfg, name, w) ==> e == BootError(NewVm(cloud, cfg, name, w), w)
  {
    match ResolveReferences(cloud, cfg).result
    case Err(e) => Some(e)
    case Ok(refs) =>
      match SelectStorageProfile(cloud, refs.vdc, cfg.storageProfile, ErrNoStorageProfile).result
      case Err(e) => Some(e)
      case Ok(_) =>
        if w.compose.Some? then w.compose
        else if w.composeWait.Some? then w.composeWait
        else
          match cloud.vAppByName(refs.vdc, name)
          case Err(e) => Some(e)
          case Ok(vapp) =>
            if |vapp.vms| != 1 then Some(ErrVMCount)
            else
              match cloud.refreshVm(vapp.vms[0])
              case Err(e) => Some(e)
              case Ok(vm) => BootError(vm, w)
  }

  /**
   * The error `Create` stops with once it holds the refreshed VM `vm`: the
   * deploy watcher, a missing spec section, a nil section after the second
   * refresh, the hardware update, the network update, a nil customisation
   * section, the customisation wait, the power-on and its task.
   */
  function BootError(vm: Vm, w: Provisioning): (e: Option<Error>)
    ensures DeployWatch(None, w.deployPolls) != Deployed ==> e.Some?
    ensures DeployWatch(None, w.deployPolls) == DeployTimedOut ==> e == Some(ErrDeployTimeout)
    ensures DeployWatch(None, w.deployPolls) == Deployed ==>
      && (vm.spec.None? ==> e == Some(ErrSpecSectionEmpty))
      && (vm.spec.Some? && w.refreshed.spec.None? ==> e == Some(NilSpecSection))
      && (vm.spec.Some? && w.refreshed.spec.Some? && w.refreshed.spec.value.memoryResourceMb.None? ==>
            e == Some(NilMemoryResource))
      && (HardwareSent(vm, w) && w.specUpdate.Err? ==> e == Some(w.specUpdate.error))
      && (HardwareSent(vm, w) && w.specUpdate.Ok? && w.networkUpdate.Some? ==> e == w.networkUpdate)
      && (HardwareSent(vm, w) && w.specUpdate.Ok? && w.networkUpdate.None? ==>
            var updated := w.specUpdate.value;
            && (updated.guest.None? ==> e == Some(NilGuestCustomization))
            && (updated.guest.Some? && w.customizationWait.Some? ==> e == w.customizationWait)
            && (updated.guest.Some? && w.customizationWait.None? && w.powerOn.Some? ==> e == w.powerOn)
            && (updated.guest.Some? && w.customizationWait.None? && w.powerOn.None? ==> e == w.powerOnWait))
    ensures vm.spec.None? ==> e.Some?
    ensures e.None? ==>
      && w.specUpdate.Ok? && w.specUpdate.value.guest.Some?
      && w.refreshed.spec.Some? && w.refreshed.spec.value.memoryResourceMb.Some?
  {
    match DeployWatch(None, w.deployPolls)
    case DeployFailed => Some(ErrDeployWait)
    case DeployTimedOut => Some(ErrDeployTimeout)
    case Deployed =>
      if vm.spec.None? then Some(ErrSpecSectionEmpty)
      else if w.refreshed.spec.None? then Some(NilSpecSection)
      else if w.refreshed.spec.value.memoryResourceMb.None? then Some(NilMemoryResource)
      else
        match w.specUpdate
        case Err(e) => Some(e)
        case Ok(updated) =>
          if w.networkUpdate.Some? then w.networkUpdate
          else if updated.guest.None? then Some(NilGuestCustomization)
          else if w.customizationWait.Some? then w.customizationWait
          else if w.powerOn.Some? then w.powerOn
          else w.powerOnWait
  }

  /** Once the VM is found, only the steps after it can fail. */
  lemma PreBootErrorAfterVm(cloud: Cloud, cfg: Config, name: string, w: Provisioning)
    requires VmFound(cloud, cfg, name, w)
    ensures PreBootError(cloud, cfg, name, w) == BootError(NewVm(cloud, cfg, name, w), w)
    ensures Booted(cloud, cfg, name, w) <==> BootError(NewVm(cloud, cfg, name, w), w).None?
  {
  }

  class VcdDriver {
    const cfg: Config
    const machineName: string
    const adminPassword: string
    var vAppHref: string
    var vmHref: string
    ghost var history: seq<Call>

    /** The driver `NewVcdDriver` builds once the login succeeded: the
        administrator password is the configured default, and both caches
        start empty whatever the configuration holds. */
    constructor (cfg: Config, machineName: string)
      ensures this.cfg == cfg && this.machineName == machineName
      ensures adminPassword == cfg.defaultPassword
      ensures vAppHref == "" && vmHref == "" && history == []
    {
      this.cfg := cfg;
      this.machineName := machineName;
      adminPassword := cfg.defaultPassword;
      vAppHref := "";
      vmHref := "";
      history := [];
    }

    /** `getVApp`: refresh the cached vApp, or find it by name and cache its
        HREF; a non-empty cache is never overwritten. */
    method GetVApp(cloud: Cloud) returns (r: Result<VApp>)
      modifies this`vAppHref, this`history
      ensures var t := VAppLookup(cloud, cfg, machineName, old(vAppHref));
        && r == t.result
        && history == old(history) + t.calls
      ensures vAppHref == VAppCacheAfter(old(vAppHref), r)
    {
      if vAppHref != "" {
        history := history + [RefreshVApp(vAppHref)];
        r := cloud.refreshVApp(vAppHref);
        return;
      }
      history := history + [GetOrgByName(cfg.org)];
      var org := cloud.orgByName(cfg.org);
      if org.Err? {
        return Err(org.error);
      }
      history := history + [GetVDCByName(cfg.vdc)];
      var vdc := cloud.vdcByName(org.value, cfg.vdc);
      if vdc.Err? {
        return Err(vdc.error);
      }
      history := history + [GetVAppByName(machineName)];
      r := cloud.vAppByName(vdc.value, machineName);
      if r.Err? {
        return;
      }
      vAppHref := r.value.href;
    }

    /** `getVM`: refresh the cached VM, or take the single VM of the vApp and
        cache its HREF; a non-empty cache is never overwritten. */
    method GetVM(cloud: Cloud) returns (r: Result<Vm>)
      modifies this`vAppHref, this`vmHref, this`history
      ensures var t := VmLookup(cloud, cfg, machineName, old(vAppHref), old(vmHref));
        && r == t.result
        && history == old(history) + t.calls
      ensures vmHref == VmCacheAfter(old(vmHref), r)
      ensures vAppHref == VAppCacheAfterVmLookup(cloud, cfg, machineName, old(vAppHref), old(vmHref))
    {
      if vmHref != "" {
        history := history + [RefreshVm(vmHref)];
        r := cloud.refreshVm(vmHref);
        return;
      }
      var vapp := GetVApp(cloud);
      if vapp.Err? {
        return Err(vapp.error);
      }
      if |vapp.value.vms| != 1 {
        return Err(ErrVMCount);
      }
      history := history + [RefreshVm(vapp.value.vms[0])];
      r := cloud.refreshVm(vapp.value.vms[0]);
      if r.Err? {
        return;
      }
      vmHref := r.value.href;
    }

    /** `GetOS`: Windows exactly when the VM's OS type contains "windows". */
    method GetOS(cloud: Cloud) returns (r: Result<OSType>)
      modifies this`vAppHref, this`vmHref, this`history
      ensures var t := VmLookup(cloud, cfg, machineName, old(vAppHref), old(vmHref));
        && history == old(history) + t.calls
        && vmHref == VmCacheAfter(old(vmHref), t.result)
        && (t.result.Err? ==> r == Err(t.result.error))
        && (t.result.Ok? && t.result.value.spec.None? ==> r == Err(NilOSType))
        && (t.result.Ok? && t.result.value.spec.Some? ==> r == Ok(GetOSType(t.result.value.spec.value.osType)))
      ensures vAppHref == VAppCacheAfterVmLookup(cloud, cfg, machineName, old(vAppHref), old(vmHref))
    {
      var vm := GetVM(cloud);
      if vm.Err? {
        return Err(vm.error);
      }
      if vm.value.spec.None? {
        return Err(NilOSType);
      }
      if Contains(vm.value.spec.value.osType, "windows") {
        return Ok(Windows);
      } else {
        return Ok(Linux);
      }
    }

    /** `GetIP`: the first address of the VM's connections, external before
        internal, or an error when there is none. */
    method GetIP(cloud: Cloud) returns (r: Result<string>)
      modifies this`vAppHref, this`vmHref, this`history
      ensures var t := VmLookup(cloud, cfg, machineName, old(vAppHref), old(vmHref));
        && history == old(history) + t.calls
        && vmHref == VmCacheAfter(old(vmHref), t.result)
        && (t.result.Err? ==> r == Err(t.result.error))
        && (t.result.Ok? ==> r == IPOf(t.result.value.network))
      ensures vAppHref == VAppCacheAfterVmLookup(cloud, cfg, machineName, old(vAppHref), old(vmHref))
      ensures r.Ok? ==> r.value != ""
    {
      var vm := GetVM(cloud);
      if vm.Err? {
        return Err(vm.error);
      }
      r := ScanForIP(vm.value.network);
    }

    /**
     * `GetSSHClientFromDriver`: the user comes from the OS type of the VM
     * `getVM` returns first, the host from `GetIP`, which looks the VM up
     * again through the caches the first lookup left; the port is 22 and the
     * only credential the administrator password. `newClient` is the SSH
     * library's answer for a target.
     */
    method GetSSHClientFromDriver(cloud: Cloud, newClient: SshTarget -> Result<Client>) returns (r: Result<Client>, target: SshTarget)
      modifies this`vAppHref, this`vmHref, this`history
      ensures var first := VmLookup(cloud, cfg, machineName, old(vAppHref), old(vmHref));
        && (first.result.Err? ==> r == Err(first.result.error) && history == old(history) + first.calls)
        && (first.result.Ok? && first.result.value.spec.None? ==> r == Err(NilOSType) && history == old(history) + first.calls)
        && (first.result.Ok? && first.result.value.spec.Some? ==>
              var second := VmLookup(cloud, cfg, machineName,
                                     VAppCacheAfterVmLookup(cloud, cfg, machineName, old(vAppHref), old(vmHref)),
                                     VmCacheAfter(old(vmHref), first.result));
              var ip := if second.result.Err? then Err(second.result.error) else IPOf(second.result.value.network);
              && history == old(history) + first.calls + second.calls
              && (ip.Err? ==> r == Err(ip.error))
              && (ip.Ok? ==>
                    && target == SshTarget(SshUser(first.result.value.spec.value.osType), ip.value, SSHPort, SshAuth(adminPassword))
                    && r == newClient(target)))
      // The caches after the first lookup, then after the second when it is made.
      ensures var first := VmLookup(cloud, cfg, machineName, old(vAppHref), old(vmHref));
        var vAppAfterFirst := VAppCacheAfterVmLookup(cloud, cfg, machineName, old(vAppHref), old(vmHref));
        var vmAfterFirst := VmCacheAfter(old(vmHref), first.result);
        && (first.result.Err? || first.result.value.spec.None? ==>
              vAppHref == vAppAfterFirst && vmHref == vmAfterFirst)
        && (first.result.Ok? && first.result.value.spec.Some? ==>
              var second := VmLookup(cloud, cfg, machineName, vAppAfterFirst, vmAfterFirst);
              && vAppHref == VAppCacheAfterVmLookup(cloud, cfg, machineName, vAppAfterFirst, vmAfterFirst)
              && vmHref == VmCacheAfter(vmAfterFirst, second.result))
      ensures old(vAppHref) != "" ==> vAppHref == old(vAppHref)
      ensures old(vmHref) != "" ==> vmHref == old(vmHref)
    {
      target := SshTarget("", "", SSHPort, SshAuth(adminPassword));
      var vm := GetVM(cloud);
      if vm.Err? {
        return Err(vm.error), target;
      }
      if vm.value.spec.None? {
        return Err(NilOSType), target;
      }
      var user := if Contains(vm.value.spec.value.osType, "windows") then "Administrator" else "root";
      var ip := GetIP(cloud);
      if ip.Err? {
        return Err(ip.error), target;
      }
      target := SshTarget(user, ip.value, SSHPort, SshAuth(adminPassword));
      r := newClient(target);
    }

    /**
     * `Destroy`: find the vApp (through the cache), then power it off,
     * undeploy it and delete it. Failures of the first two steps are only
     * logged; the result is the delete's.
     */
    method Destroy(cloud: Cloud, t: Teardown) returns (err: Option<Error>)
      modifies this`vAppHref, this`history
      ensures var v := VAppLookup(cloud, cfg, machineName, old(vAppHref));
        && vAppHref == VAppCacheAfter(old(vAppHref), v.result)
        && (v.result.Err? ==> err == Some(v.result.error) && history == old(history) + v.calls)
        && (v.result.Ok? ==> err == TeardownResult(t) && history == old(history) + v.calls + TeardownCalls(v.result.value.href, t))
    {
      var vapp := GetVApp(cloud);
      if vapp.Err? {
        return Some(vapp.error);
      }
      var href := vapp.value.href;
      ghost var found := history;
      // Power-off and undeploy failures are only logged.
      history := history + TaskCalls(PowerOff(href), t.powerOff);
      history := history + TaskCalls(Undeploy(href), t.undeploy);
      history := history + TaskCalls(Delete(href), t.delete);
      assert history == found + TeardownCalls(href, t);
      if t.delete.Some? {
        return t.delete;
      }
      if t.deleteWait.Some? {
        return t.deleteWait;
      }
      return None;
    }

    /** Record calls `Create` makes; each must be one it may make. */
    ghost method Send(calls: seq<Call>, base: seq<Call>, cloud: Cloud, w: Provisioning)
      requires SentSince(history, base, cloud, cfg, machineName, adminPassword, w)
      requires forall c :: c in calls ==> CreateMaySend(c, cloud, cfg, machineName, adminPassword, w)
      modifies this`history
      ensures history == old(history) + calls
      ensures SentSince(history, base, cloud, cfg, machineName, adminPassword, w)
    {
      SentAppend(history, calls, base, cloud, cfg, machineName, adminPassword, w);
      history := history + calls;
    }

    /**
     * The first part of `Create`: resolve the configured names, compose the
     * vApp, find it and its single VM, and refresh the VM. The vApp HREF is
     * cached as soon as the vApp is found, the VM HREF once the VM is
     * refreshed.
     */
    method FindNewVm(cloud: Cloud, w: Provisioning, ghost base: seq<Call>) returns (err: Option<Error>, vapp: VApp, vm: Vm)
      requires SentSince(history, base, cloud, cfg, machineName, adminPassword, w)
      modifies this`vAppHref, this`vmHref, this`history
      ensures SentSince(history, base, cloud, cfg, machineName, adminPassword, w)
      ensures err.None? <==> VmFound(cloud, cfg, machineName, w)
      ensures err.Some? ==> err == PreBootError(cloud, cfg, machineName, w)
      ensures err.None? ==> vapp == NewVApp(cloud, cfg, machineName).value && vm == NewVm(cloud, cfg, machineName, w)
      ensures var r := ResolveReferences(cloud, cfg);
        && (r.result.Err? ==> history == old(history) + r.calls)
        && (r.result.Ok? ==>
              var sp := SelectStorageProfile(cloud, r.result.value.vdc, cfg.storageProfile, ErrNoStorageProfile);
              sp.result.Err? ==> history == old(history) + r.calls + sp.calls)
      ensures vAppHref == (if Composed(cloud, cfg, w) && NewVApp(cloud, cfg, machineName).Ok?
                           then NewVApp(cloud, cfg, machineName).value.href else old(vAppHref))
      ensures vmHref == (if VmFound(cloud, cfg, machineName, w) then NewVm(cloud, cfg, machineName, w).href else old(vmHref))
    {
      vapp, vm := VApp("", []), Vm("", None, None, None);
      var resolved := ResolveReferences(cloud, cfg);
      Send(resolved.calls, base, cloud, w);
      if resolved.result.Err? {
        return Some(resolved.result.error), vapp, vm;
      }
      var refs := resolved.result.value;
      var storage := SelectStorageProfile(cloud, refs.vdc, cfg.storageProfile, ErrNoStorageProfile);
      Send(storage.calls, base, cloud, w);
      if storage.result.Err? {
        return Some(storage.result.error), vapp, vm;
      }

      Send([ComposeVApp(refs.network, refs.template, storage.result.value, machineName, cfg.description)], base, cloud, w);
      if w.compose.Some? {
        return w.compose, vapp, vm;
      }
      Send([WaitTaskCompletion], base, cloud, w);
      if w.composeWait.Some? {
        return w.composeWait, vapp, vm;
      }

      Send([GetVAppByName(machineName)], base, cloud, w);
      var found := cloud.vAppByName(refs.vdc, machineName);
      if found.Err? {
        return Some(found.error), vapp, vm;
      }
      vapp := found.value;
      vAppHref := vapp.href;
      if |vapp.vms| != 1 {
        return Some(ErrVMCount), vapp, vm;
      }
      Send([RefreshVm(vapp.vms[0])], base, cloud, w);
      var refreshed := cloud.refreshVm(vapp.vms[0]);
      if refreshed.Err? {
        return Some(refreshed.error), vapp, vm;
      }
      vm := refreshed.value;
      vmHref := vm.href;
      err := None;
    }

    /**
     * The second part of `Create`, on the VM just found: wait for the vApp
     * to deploy, set the hardware, network and guest customisation, and
     * power the vApp on; then cache both HREFs again, the VM's from the
     * updated VM.
     */
    method Configure(cloud: Cloud, w: Provisioning, vapp: VApp, vm: Vm, ghost base: seq<Call>) returns (err: Option<Error>, updated: Vm)
      requires VmFound(cloud, cfg, machineName, w)
      requires vapp == NewVApp(cloud, cfg, machineName).value && vm == NewVm(cloud, cfg, machineName, w)
      requires SentSince(history, base, cloud, cfg, machineName, adminPassword, w)
      modifies this`vAppHref, this`vmHref, this`history
      ensures SentSince(history, base, cloud, cfg, machineName, adminPassword, w)
      ensures err == BootError(vm, w)
      ensures err.None? ==> updated == w.specUpdate.value
      ensures vAppHref == (if err.None? then vapp.href else old(vAppHref))
      ensures vmHref == (if err.None? then updated.href else old(vmHref))
    {
      updated := Vm("", None, None, None);
      // The watcher tests `err`, which the successful refresh just set to nil.
      match DeployWatch(None, w.deployPolls)
      case DeployFailed =>
        return Some(ErrDeployWait), updated;
      case DeployTimedOut =>
        return Some(ErrDeployTimeout), updated;
      case Deployed =>

      if vm.spec.None? {
        return Some(ErrSpecSectionEmpty), updated;
      }
      // The second refresh's error is ignored.
      Send([RefreshVm(vm.href)], base, cloud, w);
      if w.refreshed.spec.None? {
        return Some(NilSpecSection), updated;
      }
      if w.refreshed.spec.value.memoryResourceMb.None? {
        return Some(NilMemoryResource), updated;
      }
      var spec := WithHardware(w.refreshed.spec.value, cfg);
      Send([UpdateVmSpecSection(spec, cfg.description)], base, cloud, w);
      if w.specUpdate.Err? {
        return Some(w.specUpdate.error), updated;
      }
      updated := w.specUpdate.value;

      var section := ConfigureNetwork(updated.network, cfg.network);
      Send([UpdateNetworkConnectionSection(section)], base, cloud, w);
      if w.networkUpdate.Some? {
        return w.networkUpdate, updated;
      }

      if updated.guest.None? {
        return Some(NilGuestCustomization), updated;
      }
      var guest := WithAdminPassword(updated.guest.value, adminPassword);
      // The customisation call's own error is overwritten by a second wait
      // on the compose task.
      Send([SetGuestCustomizationSection(guest), WaitTaskCompletion], base, cloud, w);
      if w.customizationWait.Some? {
        return w.customizationWait, updated;
      }

      Send([PowerOn(vapp.href)], base, cloud, w);
      if w.powerOn.Some? {
        return w.powerOn, updated;
      }
      Send([WaitTaskCompletion], base, cloud, w);
      if w.powerOnWait.Some? {
        return w.powerOnWait, updated;
      }
      vAppHref := vapp.href;
      vmHref := updated.href;
      err := None;
    }

    /**
     * `Create`: build and boot the machine, then wait for RDP to be
     * stable and for SSH, whatever the guest OS. The address `GetIP` returns
     * is used even when `GetIP` failed (it is then empty). SSH is waited for
     * ten times over and only the last wait decides.
     */
    method Create(cloud: Cloud, w: Provisioning) returns (err: Option<Error>)
      modifies this`vAppHref, this`vmHref, this`history
      ensures SentSince(history, old(history), cloud, cfg, machineName, adminPassword, w)
      ensures var r := ResolveReferences(cloud, cfg);
        && (r.result.Err? ==> history == old(history) + r.calls)
        && (r.result.Ok? ==>
              var sp := SelectStorageProfile(cloud, r.result.value.vdc, cfg.storageProfile, ErrNoStorageProfile);
              sp.result.Err? ==> history == old(history) + r.calls + sp.calls)
      ensures PreBootError(cloud, cfg, machineName, w).Some? ==>
        && err == PreBootError(cloud, cfg, machineName, w)
        && vAppHref == (if Composed(cloud, cfg, w) && NewVApp(cloud, cfg, machineName).Ok?
                        then NewVApp(cloud, cfg, machineName).value.href else old(vAppHref))
        && vmHref == (if VmFound(cloud, cfg, machineName, w) then NewVm(cloud, cfg, machineName, w).href else old(vmHref))
      ensures Booted(cloud, cfg, machineName, w) ==>
        && (Rdp.Successes(w.rdpDial, Rdp.RdpStableMaxAttempts - 1) < Rdp.RdpStableSuccessfulAttemptsRequired ==>
              err == Some(Rdp.ErrRdpFailed))
        && (Rdp.Successes(w.rdpDial, Rdp.RdpStableMaxAttempts - 1) >= Rdp.RdpStableSuccessfulAttemptsRequired ==>
              && (err == None || err == Some(DriverHelpers.ErrTooManyRetriesForSSH))
              && (err == None <==> DriverHelpers.ComesUp(w.ssh(SshRounds - 1))))
        && (NewVApp(cloud, cfg, machineName).value.href != "" ==> vAppHref == NewVApp(cloud, cfg, machineName).value.href)
        && (w.specUpdate.value.href != "" ==> vmHref == w.specUpdate.value.href)
      ensures err == None ==> Booted(cloud, cfg, machineName, w)
    {
      ghost var base := history;
      var vapp, vm;
      err, vapp, vm := FindNewVm(cloud, w, base);
      if err.Some? {
        return;
      }
      PreBootErrorAfterVm(cloud, cfg, machineName, w);
      var updated;
      err, updated := Configure(cloud, w, vapp, vm, base);
      if err.Some? {
        return;
      }

      err := AwaitAccess(cloud, w, base);
    }

    /**
     * The end of `Create`, once the machine is powered on: look its address
     * up, ignoring a failure (the address is then empty), wait for RDP to be
     * stable, then wait for SSH ten times over; only the last wait decides.
     * Caches already set stay as they are.
     */
    method AwaitAccess(cloud: Cloud, w: Provisioning, ghost base: seq<Call>) returns (err: Option<Error>)
      requires SentSince(history, base, cloud, cfg, machineName, adminPassword, w)
      modifies this`vAppHref, this`vmHref, this`history
      ensures SentSince(history, base, cloud, cfg, machineName, adminPassword, w)
      ensures Rdp.Successes(w.rdpDial, Rdp.RdpStableMaxAttempts - 1) < Rdp.RdpStableSuccessfulAttemptsRequired ==>
        err == Some(Rdp.ErrRdpFailed)
      ensures Rdp.Successes(w.rdpDial, Rdp.RdpStableMaxAttempts - 1) >= Rdp.RdpStableSuccessfulAttemptsRequired ==>
        && (err == None || err == Some(DriverHelpers.ErrTooManyRetriesForSSH))
        && (err == None <==> DriverHelpers.ComesUp(w.ssh(SshRounds - 1)))
      ensures old(vAppHref) != "" ==> vAppHref == old(vAppHref)
      ensures old(vmHref) != "" ==> vmHref == old(vmHref)
    {
      ghost var booted := history;
      ghost var lookup := VmLookup(w.booted, cfg, machineName, vAppHref, vmHref);
      var found := GetIP(w.booted);
      SentAppendReadOnly(booted, lookup.calls, base, cloud, cfg, machineName, adminPassword, w);
      var ip := if found.Ok? then found.value else "";
      var rdpErr, dialed, sleeps := Rdp.WaitForRDPStable(ip, w.rdpDial);
      if rdpErr.Some? {
        return rdpErr;
      }

      ghost var cachedVApp, cachedVm := vAppHref, vmHref;
      err := None;
      var round := 0;
      while round < SshRounds
        invariant 0 <= round <= SshRounds
        invariant err == None || err == Some(DriverHelpers.ErrTooManyRetriesForSSH)
        invariant round > 0 ==> (err == None <==> DriverHelpers.ComesUp(w.ssh(round - 1)))
        invariant SentSince(history, base, cloud, cfg, machineName, adminPassword, w)
        invariant vAppHref == cachedVApp && vmHref == cachedVm
      {
        err := DriverHelpers.WaitForSSH(w.ssh(round));
        round := round + 1;
      }
    }
  }

  /** `NewVcdDriver`: `login` is the outcome of parsing the endpoint URL and
      authenticating; on failure no driver is built. */
  method NewVcdDriver(cfg: Config, machineName: string, login: Option<Error>) returns (d: VcdDriver?, err: Option<Error>)
    ensures err == login
    ensures err.Some? ==> d == null
    ensures err.None? ==>
      && d != null && fresh(d)
      && d.cfg == cfg && d.machineName == machineName && d.adminPassword == cfg.defaultPassword
      && d.vAppHref == "" && d.vmHref == "" && d.history == []
  {
    if login.Some? {
      return null, login;
    }
    d := new VcdDriver(cfg, machineName);
    err := None;
  }
}

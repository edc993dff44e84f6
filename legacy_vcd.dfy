/**
 * drivers/vcd.go, the older vCloud Director driver. Its `Create` takes the
 * instance name as an argument and keeps nothing: the HREF caches are
 * commented out, there is no administrator password, and it stops once the
 * vApp is powered on, without waiting for RDP or SSH. It differs from the
 * newer driver in three decisions: its error texts are capitalised, the
 * network update's error is dropped, and guest customisation is only
 * switched on. `Destroy` and `RunCommand` are stubs.
 */
module LegacyVcd {
  import opened Errors
  import opened VcdTypes
  import opened VcdLogic
  import Vcd

  const ErrNoStorageProfile: Error := Formatted("No storage profile available")
  const ErrDeployWait: Error := Formatted("Error waiting for vApp deploy")
  const ErrDeployTimeout: Error := Formatted("Reached timeout while deploying VM")

  /** Guest customisation switched on; the password settings are left as
      the template has them. */
  function WithCustomizationEnabled(g: GuestCustomizationSection): (r: GuestCustomizationSection)
    ensures r.enabled == Some(true)
    ensures r.adminPassword == g.adminPassword && r.adminPasswordEnabled == g.adminPasswordEnabled
    ensures r.adminPasswordAuto == g.adminPasswordAuto && r.resetPasswordRequired == g.resetPasswordRequired
  {
    g.(enabled := Some(true))
  }

  /**
   * The calls `Create` may make: the vApp is composed only from the resolved
   * network and template and the selected storage profile, under the
   * instance name; the sections sent are the configured ones; the vApp
   * powered on is the one just composed; nothing is torn down.
   */
  ghost predicate MaySend(c: Call, cloud: Cloud, cfg: Config, name: string, w: Provisioning)
  {
    match c
    case ComposeVApp(network, template, profile, vappName, description) =>
      var r := ResolveReferences(cloud, cfg).result;
      && r.Ok? && network == r.value.network && template == r.value.template
      && SelectStorageProfile(cloud, r.value.vdc, cfg.storageProfile, ErrNoStorageProfile).result == Ok(profile)
      && vappName == name && description == cfg.description
    case UpdateVmSpecSection(spec, description) =>
      w.refreshed.spec.Some? && w.refreshed.spec.value.memoryResourceMb.Some?
      && spec == WithHardware(w.refreshed.spec.value, cfg) && description == cfg.description
    case UpdateNetworkConnectionSection(section) =>
      w.specUpdate.Ok? && section == Normalised(w.specUpdate.value.network, cfg.network)
    case SetGuestCustomizationSection(g) =>
      w.specUpdate.Ok? && w.specUpdate.value.guest.Some? && g == WithCustomizationEnabled(w.specUpdate.value.guest.value)
    case PowerOn(href) =>
      var r := ResolveReferences(cloud, cfg).result;
      r.Ok? && cloud.vAppByName(r.value.vdc, name).Ok? && href == cloud.vAppByName(r.value.vdc, name).value.href
    case PowerOff(_) => false
    case Undeploy(_) => false
    case Delete(_) => false
    case _ => true
  }

  /** Every step up to and including power-on succeeded; the network update
      is not among the steps, since its outcome is dropped. */
  ghost predicate Booted(cloud: Cloud, cfg: Config, name: string, w: Provisioning)
  {
    && Vcd.VmFound(cloud, cfg, name, w)
    && DeployWatch(None, w.deployPolls) == Deployed
    && Vcd.NewVm(cloud, cfg, name, w).spec.Some?
    && w.refreshed.spec.Some? && w.refreshed.spec.value.memoryResourceMb.Some?
    && w.specUpdate.Ok?
    && w.specUpdate.value.guest.Some?
    && w.customizationWait.None? && w.powerOn.None? && w.powerOnWait.None?
  }

  /**
   * The error `Create` returns once it holds the refreshed VM: the deploy
   * watcher, a missing spec section, a nil section after the second refresh,
   * the hardware update, a nil customisation section, the customisation
   * wait, the power-on and its task. The network update's outcome plays no
   * part, and the error test that follows it re-reads the hardware update's
   * (nil) error.
   */
  function BootError(vm: Vm, w: Provisioning): (e: Option<Error>)
    ensures DeployWatch(None, w.deployPolls) != Deployed ==> e.Some?
    ensures DeployWatch(None, w.deployPolls) == DeployTimedOut ==> e == Some(ErrDeployTimeout)
    ensures DeployWatch(None, w.deployPolls) == Deployed ==>
      && (vm.spec.None? ==> e == Some(ErrSpecSectionEmpty))
      && (vm.spec.Some? && w.refreshed.spec.None? ==> e == Some(Vcd.NilSpecSection))
      && (vm.spec.Some? && w.refreshed.spec.Some? && w.refreshed.spec.value.memoryResourceMb.None? ==>
            e == Some(Vcd.NilMemoryResource))
      && (Vcd.HardwareSent(vm, w) && w.specUpdate.Err? ==> e == Some(w.specUpdate.error))
      && (Vcd.HardwareSent(vm, w) && w.specUpdate.Ok? ==>
            var updated := w.specUpdate.value;
            && (updated.guest.None? ==> e == Some(Vcd.NilGuestCustomization))
            && (updated.guest.Some? && w.customizationWait.Some? ==> e == w.customizationWait)
            && (updated.guest.Some? && w.customizationWait.None? && w.powerOn.Some? ==> e == w.powerOn)
            && (updated.guest.Some? && w.customizationWait.None? && w.powerOn.None? ==> e == w.powerOnWait))
    ensures vm.spec.None? ==> e.Some?
    ensures e.None? ==>
      && w.specUpdate.Ok? && w.specUpdate.value.guest.Some?
      && w.refreshed.spec.Some? && w.refreshed.spec.value.memoryResourceMb.Some?
  {
    match DeployWatch(None, w.deployPolls)
    case DeployFailed => Some(ErrDeployWait)
    case DeployTimedOut => Some(ErrDeployTimeout)
    case Deployed =>
      if vm.spec.None? then Some(ErrSpecSectionEmpty)
      else if w.refreshed.spec.None? then Some(Vcd.NilSpecSection)
      else if w.refreshed.spec.value.memoryResourceMb.None? then Some(Vcd.NilMemoryResource)
      else
        match w.specUpdate
        case Err(e) => Some(e)
        case Ok(updated) =>
          if updated.guest.None? then Some(Vcd.NilGuestCustomization)
          else if w.customizationWait.Some? then w.customizationWait
          else if w.powerOn.Some? then w.powerOn
          else w.powerOnWait
  }

  /** The error `Create` returns, in call order; None exactly when the
      machine was booted. */
  function CreateError(cloud: Cloud, cfg: Config, name: string, w: Provisioning): (e: Option<Error>)
    ensures e.None? <==> Booted(cloud, cfg, name, w)
    ensures var r := ResolveReferences(cloud, cfg).result;
      && (r.Err? ==> e == Some(r.error))
      && (r.Ok? ==>
            var sp := SelectStorageProfile(cloud, r.value.vdc, cfg.storageProfile, ErrNoStorageProfile).result;
            && (sp.Err? ==> e == Some(sp.error))
            && (sp.Ok? && w.compose.Some? ==> e == w.compose)
            && (sp.Ok? && w.compose.None? && w.composeWait.Some? ==> e == w.composeWait))
    ensures Vcd.Composed(cloud, cfg, w) ==>
      var v := Vcd.NewVApp(cloud, cfg, name);
      && (v.Err? ==> e == Some(v.error))
      && (v.Ok? && |v.value.vms| != 1 ==> e == Some(ErrVMCount))
      && (v.Ok? && |v.value.vms| == 1 && cloud.refreshVm(v.value.vms[0]).Err? ==>
            e == Some(cloud.refreshVm(v.value.vms[0]).error))
    ensures Vcd.VmFound(cloud, cfg, name, w) ==> e == BootError(Vcd.NewVm(cloud, cfg, name, w), w)
  {
    match ResolveReferences(cloud, cfg).result
    case Err(e) => Some(e)
    case Ok(refs) =>
      match SelectStorageProfile(cloud, refs.vdc, cfg.storageProfile, ErrNoStorageProfile).result
      case Err(e) => Some(e)
      case Ok(_) =>
        if w.compose.Some? then w.compose
        else if w.composeWait.Some? then w.composeWait
        else
          match cloud.vAppByName(refs.vdc, name)
          case Err(e) => Some(e)
          case Ok(vapp) =>
            if |vapp.vms| != 1 then Some(ErrVMCount)
            else
              match cloud.refreshVm(vapp.vms[0])
              case Err(e) => Some(e)
              case Ok(vm) => BootError(vm, w)
  }

  /** A failed network update never changes what `Create` returns. */
  lemma {:induction false} CreateErrorIgnoresNetworkUpdate(cloud: Cloud, cfg: Config, name: string, w: Provisioning, e: Option<Error>)
    ensures CreateError(cloud, cfg, name, w) == CreateError(cloud, cfg, name, w.(networkUpdate := e))
  {
    var u := w.(networkUpdate := e);
    assert DeployWatch(None, u.deployPolls) == DeployWatch(None, w.deployPolls);
    forall vm: Vm
      ensures BootError(vm, w) == BootError(vm, u)
    {
    }
  }

  /**
   * Where the newer driver stops on a failed network update, the older one
   * goes on and boots the machine.
   */
  lemma NetworkFailureOnlyStopsNewerDriver(cloud: Cloud, cfg: Config, name: string, w: Provisioning)
    requires Vcd.Booted(cloud, cfg, name, w.(networkUpdate := None))
    requires w.networkUpdate.Some?
    ensures !Vcd.Booted(cloud, cfg, name, w)
    ensures Booted(cloud, cfg, name, w)
  {
    var u := w.(networkUpdate := None);
    assert Vcd.VmFound(cloud, cfg, name, u) == Vcd.VmFound(cloud, cfg, name, w);
  }

  /** `Create` up to the refreshed VM; the calls made are returned in order. */
  method FindNewVm(cloud: Cloud, cfg: Config, instanceName: string, w: Provisioning) returns (err: Option<Error>, vapp: VApp, vm: Vm, calls: seq<Call>)
    ensures err.None? <==> Vcd.VmFound(cloud, cfg, instanceName, w)
    ensures err.Some? ==> err == CreateError(cloud, cfg, instanceName, w)
    ensures err.None? ==> vapp == Vcd.NewVApp(cloud, cfg, instanceName).value && vm == Vcd.NewVm(cloud, cfg, instanceName, w)
    ensures var r := ResolveReferences(cloud, cfg);
      && (r.result.Err? ==> calls == r.calls)
      && (r.result.Ok? ==>
            var sp := SelectStorageProfile(cloud, r.result.value.vdc, cfg.storageProfile, ErrNoStorageProfile);
            sp.result.Err? ==> calls == r.calls + sp.calls)
    ensures forall c :: c in calls ==> MaySend(c, cloud, cfg, instanceName, w)
  {
    vapp, vm := VApp("", []), Vm("", None, None, None);
    var resolved := ResolveReferences(cloud, cfg);
    calls := resolved.calls;
    if resolved.result.Err? {
      return Some(resolved.result.error), vapp, vm, calls;
    }
    var refs := resolved.result.value;
    var storage := SelectStorageProfile(cloud, refs.vdc, cfg.storageProfile, ErrNoStorageProfile);
    calls := calls + storage.calls;
    if storage.result.Err? {
      return Some(storage.result.error), vapp, vm, calls;
    }

    calls := calls + [ComposeVApp(refs.network, refs.template, storage.result.value, instanceName, cfg.description)];
    if w.compose.Some? {
      return w.compose, vapp, vm, calls;
    }
    calls := calls + [WaitTaskCompletion];
    if w.composeWait.Some? {
      return w.composeWait, vapp, vm, calls;
    }

    calls := calls + [GetVAppByName(instanceName)];
    var found := cloud.vAppByName(refs.vdc, instanceName);
    if found.Err? {
      return Some(found.error), vapp, vm, calls;
    }
    vapp := found.value;
    if |vapp.vms| != 1 {
      return Some(ErrVMCount), vapp, vm, calls;
    }
    calls := calls + [RefreshVm(vapp.vms[0])];
    var refreshed := cloud.refreshVm(vapp.vms[0]);
    if refreshed.Err? {
      return Some(refreshed.error), vapp, vm, calls;
    }
    vm := refreshed.value;
    err := None;
  }

  /** `Create` from the refreshed VM to power-on; the calls made are
      returned in order. */
  method Configure(cloud: Cloud, cfg: Config, instanceName: string, w: Provisioning, vapp: VApp, vm: Vm) returns (err: Option<Error>, calls: seq<Call>)
    requires Vcd.VmFound(cloud, cfg, instanceName, w)
    requires vapp == Vcd.NewVApp(cloud, cfg, instanceName).value
    ensures err == BootError(vm, w)
    ensures forall c :: c in calls ==> MaySend(c, cloud, cfg, instanceName, w)
  {
    calls := [];
    // The watcher tests `err`, which the successful refresh just set to nil.
    match DeployWatch(None, w.deployPolls)
    case DeployFailed =>
      return Some(ErrDeployWait), calls;
    case DeployTimedOut =>
      return Some(ErrDeployTimeout), calls;
    case Deployed =>

    if vm.spec.None? {
      return Some(ErrSpecSectionEmpty), calls;
    }
    // The second refresh's error is ignored.
    calls := calls + [RefreshVm(vm.href)];
    if w.refreshed.spec.None? {
      return Some(Vcd.NilSpecSection), calls;
    }
    if w.refreshed.spec.value.memoryResourceMb.None? {
      return Some(Vcd.NilMemoryResource), calls;
    }
    var spec := WithHardware(w.refreshed.spec.value, cfg);
    calls := calls + [UpdateVmSpecSection(spec, cfg.description)];
    if w.specUpdate.Err? {
      return Some(w.specUpdate.error), calls;
    }
    var updated := w.specUpdate.value;

    var section := ConfigureNetwork(updated.network, cfg.network);
    // The update's error is dropped.
    calls := calls + [UpdateNetworkConnectionSection(section)];

    if updated.guest.None? {
      return Some(Vcd.NilGuestCustomization), calls;
    }
    var guest := WithCustomizationEnabled(updated.guest.value);
    // The customisation call's own error is overwritten by a second wait
    // on the compose task.
    calls := calls + [SetGuestCustomizationSection(guest), WaitTaskCompletion];
    if w.customizationWait.Some? {
      return w.customizationWait, calls;
    }

    calls := calls + [PowerOn(vapp.href)];
    if w.powerOn.Some? {
      return w.powerOn, calls;
    }
    calls := calls + [WaitTaskCompletion];
    if w.powerOnWait.Some? {
      return w.powerOnWait, calls;
    }
    err := None;
  }

  /**
   * `(*VcdDriver).Create(instanceName)`: resolve the configured names,
   * compose the vApp under the instance name, wait for it to deploy, set
   * the hardware, network and guest customisation, and power it on.
   */
  method Create(cloud: Cloud, cfg: Config, instanceName: string, w: Provisioning) returns (err: Option<Error>, calls: seq<Call>)
    ensures err == CreateError(cloud, cfg, instanceName, w)
    ensures err.None? <==> Booted(cloud, cfg, instanceName, w)
    ensures var r := ResolveReferences(cloud, cfg);
      && (r.result.Err? ==> calls == r.calls)
      && (r.result.Ok? ==>
            var sp := SelectStorageProfile(cloud, r.result.value.vdc, cfg.storageProfile, ErrNoStorageProfile);
            sp.result.Err? ==> calls == r.calls + sp.calls)
    ensures forall c :: c in calls ==> MaySend(c, cloud, cfg, instanceName, w)
  {
    var vapp, vm;
    err, vapp, vm, calls := FindNewVm(cloud, cfg, instanceName, w);
    if err.Some? {
      return;
    }
    var more;
    err, more := Configure(cloud, cfg, instanceName, w, vapp, vm);
    calls := calls + more;
  }

  /** `RunCommand` is a stub: it runs nothing and reports success. */
  function RunCommand(instanceName: string): (err: Option<Error>)
    ensures err == None
  {
    None
  }

  /** `Destroy` is a stub: it removes nothing and reports success. */
  function Destroy(instanceName: string): (err: Option<Error>)
    ensures err == None
  {
    None
  }
}

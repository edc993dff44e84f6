/**
 * The decisions pkg/drivers/vcd/vcd.go and pkg/drivers/vcd/helpers.go make
 * between SDK calls, as functions of the provider's answers: the lookup
 * chains, the storage-profile choice, the hardware, network and guest
 * customisation settings, the IP scan, the OS test and the teardown policy.
 * The driver class in `Vcd` and the legacy driver in `LegacyVcd` are built
 * from them.
 */
module VcdLogic {
  import opened Errors
  import opened Remote
  import opened VcdTypes

  const ErrNoStorageProfile: Error := Formatted("no storage profile available")
  const ErrVMCount: Error := Formatted("VM count != 1")
  const ErrDeployWait: Error := Formatted("error waiting for vApp deploy")
  const ErrDeployTimeout: Error := Formatted("reached timeout while deploying VM")
  const ErrSpecSectionEmpty: Error := Formatted("VM Spec Section empty")
  const ErrNoPublicIP: Error := Formatted("could not get public IP")

  /** `SSHPort` */
  const SSHPort := 22

  /** A call that only reads provider state. */
  predicate ReadOnly(c: Call)
  {
    c.GetOrgByName? || c.GetVDCByName? || c.GetOrgVdcNetworkByName? || c.GetCatalogByName?
    || c.GetCatalogItemByName? || c.GetVAppTemplate? || c.FindStorageProfileReference? || c.GetVAppByName? || c.RefreshVApp? || c.RefreshVm?
  }

  // ---------------------------------------------------------------------
  // Resolving the configured names (vcd.go, start of Create)

  /** What `Create` needs before it can compose a vApp. */
  datatype Refs = Refs(
    org: Org,
    vdc: Vdc,
    network: OrgVdcNetwork,
    catalog: Catalog,
    item: CatalogItem,
    template: VAppTemplate)

  /** The six lookups, in the order `Create` makes them, with the names it passes. */
  function LookupOrder(cfg: Config): seq<Call>
  {
    [GetOrgByName(cfg.org), GetVDCByName(cfg.vdc), GetOrgVdcNetworkByName(cfg.network),
     GetCatalogByName(cfg.catalog), GetCatalogItemByName(cfg.template), GetVAppTemplate]
  }

  /** Every handle in `refs` is the provider's answer for the configured name
      under its parent: the org and vdc, the network in that vdc, the catalog
      in that org, the item in that catalog, and the item's template. */
  ghost predicate Resolves(cloud: Cloud, cfg: Config, refs: Refs)
  {
    && cloud.orgByName(cfg.org) == Ok(refs.org)
    && cloud.vdcByName(refs.org, cfg.vdc) == Ok(refs.vdc)
    && cloud.networkByName(refs.vdc, cfg.network) == Ok(refs.network)
    && cloud.catalogByName(refs.org, cfg.catalog) == Ok(refs.catalog)
    && cloud.catalogItemByName(refs.catalog, cfg.template) == Ok(refs.item)
    && cloud.vAppTemplateOf(refs.item) == Ok(refs.template)
  }

  /**
   * The lookup chain of `Create`: org, vdc, network, catalog, catalog item,
   * vApp template, each returning at the first failure. The calls made are
   * always a non-empty prefix of that order; all six are made on success,
   * and success comes exactly when every lookup answers.
   */
  function ResolveReferences(cloud: Cloud, cfg: Config): (t: Traced<Refs>)
    ensures 1 <= |t.calls| <= 6 && t.calls == LookupOrder(cfg)[..|t.calls|]
    ensures t.result.Ok? ==> |t.calls| == 6 && Resolves(cloud, cfg, t.result.value)
    ensures t.result.Ok? <==> exists refs :: Resolves(cloud, cfg, refs)
    // Each lookup that fails ends the chain with its own error.
    ensures var org := cloud.orgByName(cfg.org);
      && (org.Err? ==> t == Traced(Err(org.error), LookupOrder(cfg)[..1]))
      && (org.Ok? ==>
            var vdc := cloud.vdcByName(org.value, cfg.vdc);
            && (vdc.Err? ==> t == Traced(Err(vdc.error), LookupOrder(cfg)[..2]))
            && (vdc.Ok? ==>
                  var network := cloud.networkByName(vdc.value, cfg.network);
                  && (network.Err? ==> t == Traced(Err(network.error), LookupOrder(cfg)[..3]))
                  && (network.Ok? ==>
                        var catalog := cloud.catalogByName(org.value, cfg.catalog);
                        && (catalog.Err? ==> t == Traced(Err(catalog.error), LookupOrder(cfg)[..4]))
                        && (catalog.Ok? ==>
                              var item := cloud.catalogItemByName(catalog.value, cfg.template);
                              && (item.Err? ==> t == Traced(Err(item.error), LookupOrder(cfg)[..5]))
                              && (item.Ok? && cloud.vAppTemplateOf(item.value).Err? ==>
                                    t == Traced(Err(cloud.vAppTemplateOf(item.value).error), LookupOrder(cfg)))))))
  {
    var order := LookupOrder(cfg);
    match cloud.orgByName(cfg.org)
    case Err(e) => Traced(Err(e), order[..1])
    case Ok(org) =>
      match cloud.vdcByName(org, cfg.vdc)
      case Err(e) => Traced(Err(e), order[..2])
      case Ok(vdc) =>
        match cloud.networkByName(vdc, cfg.network)
        case Err(e) => Traced(Err(e), order[..3])
        case Ok(network) =>
          match cloud.catalogByName(org, cfg.catalog)
          case Err(e) => Traced(Err(e), order[..4])
          case Ok(catalog) =>
            match cloud.catalogItemByName(catalog, cfg.template)
            case Err(e) => Traced(Err(e), order[..5])
            case Ok(item) =>
              match cloud.vAppTemplateOf(item)
              case Err(e) => Traced(Err(e), order)
              case Ok(template) =>
                var refs := Refs(org, vdc, network, catalog, item, template);
                assert Resolves(cloud, cfg, refs);
                Traced(Ok(refs), order)
  }

  /**
   * The storage profile `Create` composes with: the configured one, looked up
   * by name (an SDK call), when a name is configured; otherwise the vdc's
   * first profile, with no call; `noneAvailable` when there is no name and
   * the vdc has no profile.
   */
  function SelectStorageProfile(cloud: Cloud, vdc: Vdc, configured: string, noneAvailable: Error): (t: Traced<StorageProfileRef>)
    ensures configured != "" ==>
      t == Traced(cloud.storageProfileByName(vdc, configured), [FindStorageProfileReference(configured)])
    ensures configured == "" ==> t.calls == [] && (t.result.Err? <==> vdc.storageProfiles == [])
    ensures configured == "" && t.result.Ok? ==> t.result.value == vdc.storageProfiles[0]
    ensures configured == "" && t.result.Err? ==> t.result.error == noneAvailable
  {
    if configured != "" then
      Traced(cloud.storageProfileByName(vdc, configured), [FindStorageProfileReference(configured)])
    else if |vdc.storageProfiles| < 1 then
      Traced(Err(noneAvailable), [])
    else
      Traced(Ok(vdc.storageProfiles[0]), [])
  }

  // ---------------------------------------------------------------------
  // The handle cache (helpers.go)

  /**
   * `getVApp` without a cached HREF: org, vdc, then the vApp named after the
   * machine, stopping at the first failing lookup.
   */
  function FindVApp(cloud: Cloud, cfg: Config, name: string): (t: Traced<VApp>)
    ensures 1 <= |t.calls| <= 3
    ensures t.calls == [GetOrgByName(cfg.org), GetVDCByName(cfg.vdc), GetVAppByName(name)][..|t.calls|]
    ensures t.result.Ok? ==>
      && |t.calls| == 3
      && cloud.orgByName(cfg.org).Ok?
      && cloud.vdcByName(cloud.orgByName(cfg.org).value, cfg.vdc).Ok?
      && t.result == cloud.vAppByName(cloud.vdcByName(cloud.orgByName(cfg.org).value, cfg.vdc).value, name)
    // Each lookup that fails ends the chain with its own error.
    ensures var org := cloud.orgByName(cfg.org);
      && (org.Err? ==> t == Traced(Err(org.error), [GetOrgByName(cfg.org)]))
      && (org.Ok? ==>
            var vdc := cloud.vdcByName(org.value, cfg.vdc);
            && (vdc.Err? ==> t == Traced(Err(vdc.error), [GetOrgByName(cfg.org), GetVDCByName(cfg.vdc)]))
            && (vdc.Ok? ==> t.result == cloud.vAppByName(vdc.value, name) && |t.calls| == 3))
  {
    var order := [GetOrgByName(cfg.org), GetVDCByName(cfg.vdc), GetVAppByName(name)];
    match cloud.orgByName(cfg.org)
    case Err(e) => Traced(Err(e), order[..1])
    case Ok(org) =>
      match cloud.vdcByName(org, cfg.vdc)
      case Err(e) => Traced(Err(e), order[..2])
      case Ok(vdc) => Traced(cloud.vAppByName(vdc, name), order)
  }

  /**
   * What `getVApp` returns and calls: a cached HREF is refreshed directly,
   * with no name lookup; otherwise the vApp is found by name.
   */
  function VAppLookup(cloud: Cloud, cfg: Config, name: string, cachedVApp: string): (t: Traced<VApp>)
    ensures cachedVApp != "" ==> t == Traced(cloud.refreshVApp(cachedVApp), [RefreshVApp(cachedVApp)])
    ensures cachedVApp == "" ==> t == FindVApp(cloud, cfg, name)
    ensures forall c :: c in t.calls ==> ReadOnly(c)
  {
    if cachedVApp != "" then Traced(cloud.refreshVApp(cachedVApp), [RefreshVApp(cachedVApp)])
    else FindVApp(cloud, cfg, name)
  }

  /** The vApp HREF cache after `getVApp`: a set HREF is kept, an empty one
      is filled only by a successful lookup. */
  function VAppCacheAfter(cachedVApp: string, r: Result<VApp>): (h: string)
    ensures cachedVApp != "" ==> h == cachedVApp
    ensures cachedVApp == "" && r.Err? ==> h == ""
    ensures cachedVApp == "" && r.Ok? ==> h == r.value.href
  {
    if cachedVApp != "" then cachedVApp else if r.Ok? then r.value.href else ""
  }

  /**
   * What `getVM` returns and calls. A cached VM HREF is refreshed directly
   * and the vApp is never consulted. Otherwise the vApp is looked up; it
   * must hold exactly one VM, which is then refreshed.
   */
  function VmLookup(cloud: Cloud, cfg: Config, name: string, cachedVApp: string, cachedVm: string): (t: Traced<Vm>)
    ensures cachedVm != "" ==> t == Traced(cloud.refreshVm(cachedVm), [RefreshVm(cachedVm)])
    ensures cachedVm == "" ==>
      var v := VAppLookup(cloud, cfg, name, cachedVApp);
      && (v.result.Err? ==> t == Traced(Err(v.result.error), v.calls))
      && (v.result.Ok? && |v.result.value.vms| != 1 ==> t == Traced(Err(ErrVMCount), v.calls))
      && (v.result.Ok? && |v.result.value.vms| == 1 ==>
            t == Traced(cloud.refreshVm(v.result.value.vms[0]), v.calls + [RefreshVm(v.result.value.vms[0])]))
    ensures forall c :: c in t.calls ==> ReadOnly(c)
  {
    if cachedVm != "" then
      Traced(cloud.refreshVm(cachedVm), [RefreshVm(cachedVm)])
    else
      var v := VAppLookup(cloud, cfg, name, cachedVApp);
      match v.result
      case Err(e) => Traced(Err(e), v.calls)
      case Ok(vapp) =>
        if |vapp.vms| != 1 then Traced(Err(ErrVMCount), v.calls)
        else Traced(cloud.refreshVm(vapp.vms[0]), v.calls + [RefreshVm(vapp.vms[0])])
  }

  /** The VM HREF cache after `getVM`: a set HREF is kept, an empty one is
      filled only when the VM refresh succeeded. */
  function VmCacheAfter(cachedVm: string, r: Result<Vm>): (h: string)
    ensures cachedVm != "" ==> h == cachedVm
    ensures cachedVm == "" && r.Err? ==> h == ""
    ensures cachedVm == "" && r.Ok? ==> h == r.value.href
  {
    if cachedVm != "" then cachedVm else if r.Ok? then r.value.href else ""
  }

  // ---------------------------------------------------------------------
  // Hardware, network and guest customisation (vcd.go, middle of Create)

  /** Memory, CPU count and cores per socket from the configuration; the
      rest of the section, the OS type included, is kept. */
  function WithHardware(spec: VmSpecSection, cfg: Config): (s: VmSpecSection)
    ensures s.memoryResourceMb == Some(cfg.memorySizeMb)
    ensures s.numCpus == Some(cfg.numCpus) && s.numCoresPerSocket == Some(cfg.coresPerSocket)
    ensures s.osType == spec.osType
  {
    spec.(memoryResourceMb := Some(cfg.memorySizeMb), numCpus := Some(cfg.numCpus), numCoresPerSocket := Some(cfg.coresPerSocket))
  }

  /** The connections a VM already has (a nil section has none). */
  function Existing(current: Option<NetworkConnectionSection>): seq<NetworkConnection>
  {
    if current.Some? then current.value.connections else []
  }

  /** The settings `Create` gives the first connection; everything else on
      the connection, its addresses included, is kept. */
  function Attached(c: NetworkConnection, network: string): (a: NetworkConnection)
    ensures a.ipAddressAllocationMode == IPAllocationModePool
    ensures a.networkConnectionIndex == 0 && a.isConnected && a.needsCustomization
    ensures a.network == network
    ensures a.ipAddress == c.ipAddress && a.externalIpAddress == c.externalIpAddress
  {
    c.(ipAddressAllocationMode := IPAllocationModePool, networkConnectionIndex := 0,
       isConnected := true, needsCustomization := true, network := network)
  }

  /**
   * The network connection section `Create` sends: never empty; an existing
   * first connection is reused (not replaced) and attached to the configured
   * network in pool mode; a VM without connections gets one fresh
   * connection; every other connection is left as it was.
   */
  function Normalised(current: Option<NetworkConnectionSection>, network: string): (s: NetworkConnectionSection)
    ensures |s.connections| >= 1
    ensures Existing(current) != [] ==>
      && |s.connections| == |Existing(current)|
      && s.connections[0] == Attached(Existing(current)[0], network)
      && s.connections[1..] == Existing(current)[1..]
    ensures Existing(current) == [] ==> s.connections == [Attached(EmptyConnection, network)]
  {
    var conns := Existing(current);
    var padded := if |conns| < 1 then conns + [EmptyConnection] else conns;
    NetworkConnectionSection(padded[0 := Attached(padded[0], network)])
  }

  /** Normalising twice changes nothing more. */
  lemma NormalisedIdempotent(current: Option<NetworkConnectionSection>, network: string)
    ensures Normalised(Some(Normalised(current, network)), network) == Normalised(current, network)
  {
    var once := Normalised(current, network);
    var twice := Normalised(Some(once), network);
    assert twice.connections[0] == once.connections[0];
    assert twice.connections == once.connections;
  }

  /**
   * The in-place steps of `Create` on the VM's network connection section:
   * take the section (or a new one), append an empty connection if there is
   * none, then set the first connection's fields one by one.
   */
  method ConfigureNetwork(current: Option<NetworkConnectionSection>, network: string) returns (section: NetworkConnectionSection)
    ensures section == Normalised(current, network)
  {
    if current.None? {
      section := NetworkConnectionSection([]);
    } else {
      section := current.value;
    }
    if |section.connections| < 1 {
      section := section.(connections := section.connections + [EmptyConnection]);
    }
    var conn := section.connections[0];
    conn := conn.(ipAddressAllocationMode := IPAllocationModePool);
    conn := conn.(networkConnectionIndex := 0);
    conn := conn.(isConnected := true);
    conn := conn.(needsCustomization := true);
    conn := conn.(network := network);
    section := section.(connections := section.connections[0 := conn]);
  }

  /** Guest customisation with the driver's administrator password: enabled,
      password set and enabled, neither generated nor to be reset; other
      fields kept. */
  function WithAdminPassword(g: GuestCustomizationSection, password: string): (r: GuestCustomizationSection)
    ensures r.enabled == Some(true) && r.adminPasswordEnabled == Some(true)
    ensures r.adminPassword == password
    ensures r.adminPasswordAuto == Some(false) && r.resetPasswordRequired == Some(false)
  {
    g.(enabled := Some(true), adminPassword := password, adminPasswordEnabled := Some(true),
       adminPasswordAuto := Some(false), resetPasswordRequired := Some(false))
  }

  // ---------------------------------------------------------------------
  // The IP address (vcd.go, GetIP)

  /** The address a connection offers: the external one if set, else the internal one. */
  function Address(c: NetworkConnection): string
  {
    if c.externalIpAddress != "" then c.externalIpAddress else c.ipAddress
  }

  /** The first non-empty address, scanning connections in order. */
  function FirstAddress(conns: seq<NetworkConnection>): (a: Option<string>)
    ensures a.None? <==> forall k :: 0 <= k < |conns| ==> Address(conns[k]) == ""
    ensures a.Some? ==>
      && a.value != ""
      && exists k :: 0 <= k < |conns| && a.value == Address(conns[k]) && forall j :: 0 <= j < k ==> Address(conns[j]) == ""
  {
    if conns == [] then None
    else if Address(conns[0]) != "" then
      Some(Address(conns[0]))
    else
      var rest := FirstAddress(conns[1..]);
      assert forall k :: 1 <= k < |conns| ==> conns[k] == conns[1..][k - 1];
      if rest.Some? then
        var k :| 0 <= k < |conns[1..]| && rest.value == Address(conns[1..][k]) && forall j :: 0 <= j < k ==> Address(conns[1..][j]) == "";
        assert rest.value == Address(conns[k + 1]) && forall j :: 0 <= j < k + 1 ==> Address(conns[j]) == "";
        rest
      else
        rest
  }

  /** What `GetIP` makes of a VM's network connection section. */
  function IPOf(section: Option<NetworkConnectionSection>): (r: Result<string>)
    ensures r.Ok? ==> r.value != ""
    ensures r.Err? ==> r.error == ErrNoPublicIP
    ensures r.Err? <==> forall k :: 0 <= k < |Existing(section)| ==> Address(Existing(section)[k]) == ""
  {
    var a := FirstAddress(Existing(section));
    if a.Some? then Ok(a.value) else Err(ErrNoPublicIP)
  }

  /**
   * The scan loop of `GetIP`: connections in order, the external address
   * preferred to the internal one within a connection, the first non-empty
   * address wins; no section or no address is an error.
   */
  method ScanForIP(section: Option<NetworkConnectionSection>) returns (r: Result<string>)
    ensures r == IPOf(section)
  {
    if section.Some? {
      var networks := section.value.connections;
      var i := 0;
      while i < |networks|
        invariant 0 <= i <= |networks|
        invariant FirstAddress(networks) == FirstAddress(networks[i..])
      {
        var n := networks[i];
        assert networks[i..][1..] == networks[i + 1..];
        if n.externalIpAddress != "" {
          return Ok(n.externalIpAddress);
        }
        if n.ipAddress != "" {
          return Ok(n.ipAddress);
        }
        i := i + 1;
      }
    }
    return Err(ErrNoPublicIP);
  }

  /** Normalising the network section never changes the address `GetIP` finds. */
  lemma {:induction false} NormalisedKeepsAddress(current: Option<NetworkConnectionSection>, network: string)
    ensures IPOf(Some(Normalised(current, network))) == IPOf(current)
  {
    var before := Existing(current);
    var after := Normalised(current, network).connections;
    if before == [] {
      assert Address(after[0]) == "";
      assert FirstAddress(after) == FirstAddress(after[1..]);
      assert after[1..] == [];
    } else {
      assert Address(after[0]) == Address(before[0]);
      if Address(before[0]) == "" {
        assert FirstAddress(after) == FirstAddress(after[1..]);
        assert FirstAddress(before) == FirstAddress(before[1..]);
      }
    }
  }

  // ---------------------------------------------------------------------
  // The guest OS (vcd.go, GetOS and GetSSHClientFromDriver)

  /** `drivers.OStype` */
  datatype OSType = Windows | Linux

  /** `GetOS`'s test: Windows exactly when the OS type contains "windows",
      case-sensitively. */
  function GetOSType(osType: string): (os: OSType)
    ensures os == Windows <==> Contains(osType, "windows")
  {
    if Contains(osType, "windows") then Windows else Linux
  }

  /** The SSH user, by the same test as `GetOS`. */
  function SshUser(osType: string): (user: string)
    ensures user == "Administrator" <==> GetOSType(osType) == Windows
    ensures user == "root" <==> GetOSType(osType) == Linux
  {
    if Contains(osType, "windows") then "Administrator" else "root"
  }

  /** vCloud names Windows guests in lower case; a capitalised name is not
      recognised. */
  lemma OSTypeIsCaseSensitive()
    ensures GetOSType("windows9Server64Guest") == Windows
    ensures GetOSType("Windows") == Linux
    ensures GetOSType("ubuntu64Guest") == Linux
  {
    assert OccursAt("windows9Server64Guest", "windows", 0);
    var w := "Windows";
    assert w[0] != 'w';
    assert !OccursAt(w, "windows", 0);
    forall k ensures !OccursAt("ubuntu64Guest", "windows", k) {
      if 0 <= k && k + 7 <= 13 {
        var s := "ubuntu64Guest";
        assert s[k..k + 7][0] == s[k];
      }
    }
  }

  /** The credentials `GetSSHClientFromDriver` hands to the SSH client:
      exactly the driver's administrator password, no key. */
  function SshAuth(password: string): (a: Auth)
    ensures a.passwords == [password] && a.keys == []
  {
    Auth([password], [])
  }

  // ---------------------------------------------------------------------
  // Tearing down (vcd.go, Destroy)

  /** The provider's answers to `Destroy`'s three tasks: the call's own error
      and, if it started, the task's completion. */
  datatype Teardown = Teardown(
    powerOff: Option<Error>, powerOffWait: Option<Error>,
    undeploy: Option<Error>, undeployWait: Option<Error>,
    delete: Option<Error>, deleteWait: Option<Error>)

  /**
   * `Destroy`'s result once the vApp is found: power-off and undeploy
   * failures are absorbed; the result is nil exactly when the delete call
   * and its task both succeed, and otherwise the delete error.
   */
  function TeardownResult(t: Teardown): (err: Option<Error>)
    ensures err == None <==> t.delete == None && t.deleteWait == None
    ensures t.delete != None ==> err == t.delete
    ensures t.delete == None ==> err == t.deleteWait
  {
    if t.delete.Some? then t.delete else if t.deleteWait.Some? then t.deleteWait else None
  }

  /** Power-off and undeploy outcomes never change `Destroy`'s result. */
  lemma TeardownIgnoresPowerOffAndUndeploy(t: Teardown, u: Teardown)
    requires t.delete == u.delete && t.deleteWait == u.deleteWait
    ensures TeardownResult(t) == TeardownResult(u)
  {
  }

  ghost predicate Before(calls: seq<Call>, x: Call, y: Call)
  {
    exists i, j :: 0 <= i < j < |calls| && calls[i] == x && calls[j] == y
  }

  /** A call that starts a task, followed by a wait on the task when the
      call succeeded. */
  function TaskCalls(c: Call, err: Option<Error>): seq<Call>
  {
    [c] + (if err.None? then [WaitTaskCompletion] else [])
  }

  /**
   * The calls `Destroy` makes once the vApp is found: power off, undeploy,
   * delete, always all three and in that order, each followed by a wait on
   * its task when it started one.
   */
  function TeardownCalls(href: string, t: Teardown): (calls: seq<Call>)
    ensures 3 <= |calls| <= 6 && calls[0] == PowerOff(href)
    ensures Before(calls, PowerOff(href), Undeploy(href)) && Before(calls, Undeploy(href), Delete(href))
    ensures forall c :: c in calls ==> c in {PowerOff(href), Undeploy(href), Delete(href), WaitTaskCompletion}
  {
    var off := TaskCalls(PowerOff(href), t.powerOff);
    var undeploy := TaskCalls(Undeploy(href), t.undeploy);
    var calls := off + undeploy + TaskCalls(Delete(href), t.delete);
    assert calls[|off|] == Undeploy(href) && calls[|off| + |undeploy|] == Delete(href);
    calls
  }

  // ---------------------------------------------------------------------
  // The provider's answers to Create's task-starting calls

  /** How waiting for the deployed vApp ended. */
  datatype DeployWait = Deployed | DeployFailed | DeployTimedOut

  /** One round of the watcher's second loop: the error `vapp.Refresh()`
      returned and whether the refreshed vApp still lists tasks. */
  datatype DeployPoll = DeployPoll(refreshErr: Option<Error>, tasksPending: bool)

  /**
   * The watcher `Create` starts after finding the VM, once the VM reports
   * powered off: `polls` are the rounds that fit before the 15-minute timer
   * fires. Each round refreshes the vApp but tests `stale`, the `err`
   * variable last assigned before the watcher started, for failure; the
   * watcher reports success at the first round with no pending task.
   */
  function DeployWatch(stale: Option<Error>, polls: seq<DeployPoll>): (w: DeployWait)
    ensures w == DeployFailed <==> stale.Some? && polls != []
    ensures w == Deployed <==> stale.None? && exists k :: 0 <= k < |polls| && !polls[k].tasksPending
    ensures w == DeployTimedOut <==> polls == [] || (stale.None? && forall k :: 0 <= k < |polls| ==> polls[k].tasksPending)
  {
    if polls == [] then DeployTimedOut
    else if stale.Some? then DeployFailed
    else if !polls[0].tasksPending then Deployed
    else
      assert forall k :: 1 <= k < |polls| ==> polls[k] == polls[1..][k - 1];
      DeployWatch(stale, polls[1..])
  }

  /**
   * In both drivers `err` is nil whenever the watcher starts (the VM refresh
   * just succeeded), so a failing vApp refresh is never reported: the
   * "error waiting for vApp deploy" branch cannot be taken, and refresh
   * errors only keep the watcher polling until the vApp shows no task or the
   * timer fires.
   */
  lemma {:induction false} DeployWatchIgnoresRefreshErrors(polls: seq<DeployPoll>)
    ensures DeployWatch(None, polls) != DeployFailed
    ensures DeployWatch(None, polls) == Deployed <==> exists k :: 0 <= k < |polls| && !polls[k].tasksPending
  {
  }

  /**
   * The outcomes of `Create`'s calls after the lookups, in call order.
   * `refreshed` is the VM as the driver holds it after the refresh whose
   * error `Create` ignores (a failed refresh leaves it without sections).
   * `booted` is the provider as `GetIP` sees it after power-on, `rdpDial`
   * the RDP dial outcomes and `ssh(r)(i)` the SSH client the driver yields
   * in the `i`-th probe of the `r`-th `WaitForSSH` round. The legacy driver
   * uses the fields up to `powerOnWait`.
   */
  datatype Provisioning = Provisioning(
    compose: Option<Error>,
    composeWait: Option<Error>,
    deployPolls: seq<DeployPoll>,
    refreshed: Vm,
    specUpdate: Result<Vm>,
    networkUpdate: Option<Error>,
    customizationWait: Option<Error>,
    powerOn: Option<Error>,
    powerOnWait: Option<Error>,
    booted: Cloud,
    rdpDial: nat -> bool,
    ssh: nat -> nat -> Result<Client>)
}

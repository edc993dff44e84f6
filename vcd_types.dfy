/**
 * The vCloud Director entities the drivers handle, as the values the SDK
 * hands back, and the provider itself as an oracle.
 *
 * Every SDK call that only reads (a lookup by name, a refresh by HREF) is a
 * function of `Cloud`: the provider's answer at the time of the call. Calls
 * that start provider tasks are answered by the outcome records of the
 * operations that make them (`VcdLogic.Provisioning`, `VcdLogic.Teardown`).
 */
module VcdTypes {
  import opened Errors

  /** `VcdDriverConfig`, less the endpoint and credentials, which only serve
      the login. `vAppHref` and `vmHref` are configurable but never read. */
  datatype Config = Config(
    org: string,
    vdc: string,
    network: string,
    catalog: string,
    template: string,
    numCpus: int,
    coresPerSocket: int,
    memorySizeMb: int,
    vAppHref: string,
    vmHref: string,
    description: string,
    storageProfile: string,
    defaultPassword: string)

  // Handles returned by lookups.
  datatype Org = Org(href: string)
  datatype StorageProfileRef = StorageProfileRef(href: string, name: string)
  datatype Vdc = Vdc(href: string, storageProfiles: seq<StorageProfileRef>)
  datatype OrgVdcNetwork = OrgVdcNetwork(href: string, name: string)
  datatype Catalog = Catalog(href: string)
  datatype CatalogItem = CatalogItem(href: string)
  datatype VAppTemplate = VAppTemplate(href: string)

  /** A vApp and the HREFs of its child VMs (`VApp.Children.VM`). */
  datatype VApp = VApp(href: string, vms: seq<string>)

  /** `types.IPAllocationModePool` */
  const IPAllocationModePool := "POOL"

  /** `types.NetworkConnection`, the fields the drivers read or write. */
  datatype NetworkConnection = NetworkConnection(
    network: string,
    networkConnectionIndex: int,
    ipAddress: string,
    externalIpAddress: string,
    isConnected: bool,
    needsCustomization: bool,
    ipAddressAllocationMode: string)

  /** `&types.NetworkConnection{}` */
  const EmptyConnection := NetworkConnection("", 0, "", "", false, false, "")

  datatype NetworkConnectionSection = NetworkConnectionSection(connections: seq<NetworkConnection>)

  /** `types.VmSpecSection`; `*int` fields are `Option<int>`, nil being `None`.
      `memoryResourceMb` is the `Configured` value of the `MemoryResourceMb`
      pointer, `None` when that pointer is nil. */
  datatype VmSpecSection = VmSpecSection(
    osType: string,
    memoryResourceMb: Option<int>,
    numCpus: Option<int>,
    numCoresPerSocket: Option<int>)

  /** `types.GuestCustomizationSection`; `*bool` fields are `Option<bool>`. */
  datatype GuestCustomizationSection = GuestCustomizationSection(
    enabled: Option<bool>,
    adminPassword: string,
    adminPasswordEnabled: Option<bool>,
    adminPasswordAuto: Option<bool>,
    resetPasswordRequired: Option<bool>)

  /** `types.Vm`: every section is a pointer that may be nil. */
  datatype Vm = Vm(
    href: string,
    spec: Option<VmSpecSection>,
    network: Option<NetworkConnectionSection>,
    guest: Option<GuestCustomizationSection>)

  /** The provider's answers to the read-only SDK calls. */
  datatype Cloud = Cloud(
    orgByName: string -> Result<Org>,
    vdcByName: (Org, string) -> Result<Vdc>,
    networkByName: (Vdc, string) -> Result<OrgVdcNetwork>,
    catalogByName: (Org, string) -> Result<Catalog>,
    catalogItemByName: (Catalog, string) -> Result<CatalogItem>,
    vAppTemplateOf: CatalogItem -> Result<VAppTemplate>,
    storageProfileByName: (Vdc, string) -> Result<StorageProfileRef>,
    vAppByName: (Vdc, string) -> Result<VApp>,
    refreshVApp: string -> Result<VApp>,
    refreshVm: string -> Result<Vm>)

  /** The SDK calls a driver makes, with the arguments that matter. */
  datatype Call =
    | GetOrgByName(name: string)
    | GetVDCByName(name: string)
    | GetOrgVdcNetworkByName(name: string)
    | GetCatalogByName(name: string)
    | GetCatalogItemByName(name: string)
    | GetVAppTemplate
    | FindStorageProfileReference(name: string)
    | ComposeVApp(network: OrgVdcNetwork, template: VAppTemplate, storageProfile: StorageProfileRef, name: string, description: string)
    | WaitTaskCompletion
    | GetVAppByName(name: string)
    | RefreshVApp(href: string)
    | RefreshVm(href: string)
    | UpdateVmSpecSection(spec: VmSpecSection, description: string)
    | UpdateNetworkConnectionSection(section: NetworkConnectionSection)
    | SetGuestCustomizationSection(customization: GuestCustomizationSection)
    | PowerOn(href: string)
    | PowerOff(href: string)
    | Undeploy(href: string)
    | Delete(href: string)

  /** A result together with the SDK calls it took, in order. */
  datatype Traced<+T> = Traced(result: Result<T>, calls: seq<Call>)
}

# gitlab-machine drivers, modelled in Dafny

gitlab-machine is a GitLab custom executor: it provisions a fresh virtual
machine per CI job on VMware vCloud Director (vCD), waits until it can be
reached, runs the job over SSH and destroys it. This project models the
decision logic the repository owns around its SDK and network calls.

- **The bounded-retry poller and the SSH readiness probe.** These are in
  `pkg/drivers/helpers.go` and in the older copy `drivers/helpers.go`.
  The two pollers are the same code and are modelled once, in `Poller`.
- **The RDP stability wait.** This is `pkg/drivers/vcd/windows.go`, in
  module `Rdp`.
- **The vCD driver** (`pkg/drivers/vcd/vcd.go`, `pkg/drivers/vcd/helpers.go`).
  - It is a class, `Vcd.VcdDriver`, whose fields are the configuration, the
    machine name, the administrator password and the two HREF caches.
  - A ghost `history` records the SDK calls it makes.
  - The decisions it takes between calls are pure functions in `VcdLogic`.
    These cover the lookup chains, the storage-profile choice, the hardware,
    network and guest settings, the IP scan, the OS test, the deploy watcher
    and the teardown policy.
- **The older vCD driver** (`drivers/vcd.go`). It keeps no state, so its
  `Create` is a method that returns its error and the calls it made.

The outside world enters as parameters:
- **`VcdTypes.Cloud`:** the provider's answer to every read-only SDK call. These are the lookups by name and the refreshes by HREF.
- **`VcdLogic.Provisioning`:** the outcomes of `Create`'s task-starting calls, in call order. This includes the rounds of the deploy watcher that fit before its 15-minute timer.
- **`VcdLogic.Teardown`:** the outcomes of `Destroy`'s three tasks.
- **Remote access:**
  - `nat -> bool` gives the outcome of the `i`-th RDP dial.
  - `nat -> Result<Client>` gives the SSH client the driver yields to the `i`-th readiness probe.
  - `Remote.Client` gives the outcome of running a command.

Sleeps are counted, not timed. Go `error` values are `Option<Error>`. An `Error` records where it came from:
- a foreign library;
- a package sentinel;
- `fmt.Errorf`;
- a `Panic`, for the nil dereferences the Go code would crash on.

Four behaviours of the code are worth knowing before reading the model.
It follows the code in each:
- **RDP successes are cumulative, not consecutive.** When a dial fails after earlier successes, the code logs that RDP "was available, but it is not anymore". The line that would reset the success count is commented out (`pkg/drivers/vcd/windows.go:32-34`). So 40 successes out of 199 dials pass, however they are spread. `Rdp.FlappingListenerPasses` shows a port that is down on every other dial still passing.
- **RDP is waited for on every guest OS.** The RDP wait lives in `pkg/drivers/vcd/windows.go`, and its comment gives Windows VMs as the reason for it (line 17). `Create` nevertheless calls it for every guest, Linux ones included (`pkg/drivers/vcd/vcd.go:261`).
- **Nil sections panic.** Several pointers are dereferenced without a nil check:
  - `VmSpecSection` after the second refresh, and its `MemoryResourceMb` (`pkg/drivers/vcd/vcd.go:195-197`, `drivers/vcd.go:182-184`);
  - `GuestCustomizationSection` (`pkg/drivers/vcd/vcd.go:235`, `drivers/vcd.go:225`);
  - `VmSpecSection` in `GetOS` and `GetSSHClientFromDriver` (`pkg/drivers/vcd/vcd.go:289`, `:344`).

  The Go program would crash there; the model returns a `Panic` error instead.
- **A failed deploy task is never reported.** The deploy watcher has its own "error waiting for vApp deploy" branch, separate from the timeout (`pkg/drivers/vcd/vcd.go:185-190`). It can never be taken:
  - The watcher discards `vapp.Refresh()`'s result and tests `err` instead (`pkg/drivers/vcd/vcd.go:167-170`, `drivers/vcd.go:154-157`).
  - `err` is nil whenever the watcher runs, since the VM refresh just before it succeeded.
  - `VcdLogic.DeployWatchIgnoresRefreshErrors` states that "error waiting for vApp deploy" cannot result.

## Model

| member | source | states |
|---|---|---|
| Poller.WaitForSpecificOrError | pkg/drivers/helpers.go:45-57 | At most `max(0, maxAttempts)` probe calls. Every call before the last was pending, with one sleep each. The outcome is one of three. A stop without error gives nil after exactly k calls and k−1 sleeps. A probe error is returned unchanged, taking precedence over `stop`. Otherwise the "Maximum number of retries (n) exceeded" error comes after exactly n calls and n sleeps. The same code is at drivers/helpers.go:38-50. |
| Poller.SucceedsAtKthCall | pkg/drivers/helpers.go:46-53 | If the first k−1 probes are pending and the k-th stops cleanly (k ≤ maxAttempts), the result is nil after k calls and k−1 sleeps. |
| Poller.FailsAtJthCall | pkg/drivers/helpers.go:47-50 | A probe error at call j is returned unchanged after j calls and j−1 sleeps, even when that call also said stop. |
| Poller.ExhaustsBudget | pkg/drivers/helpers.go:46-56 | If all maxAttempts calls are pending, the exhaustion error comes after exactly maxAttempts calls and sleeps. With maxAttempts ≤ 0 the probe is never called. |
| Poller.ExhaustedErrorNamesBudget | pkg/drivers/helpers.go:56 | The exhaustion message determines the attempt budget it reports: different budgets give different messages. |
| Poller.WaitForSpecific | pkg/drivers/helpers.go:39-43 | It returns only nil or the exhaustion error. The result is nil iff one of the first maxAttempts calls is true. On success the last call was the first true one, with one sleep per earlier false call. The same code is at drivers/helpers.go:32-36. |
| Errors.Digits | pkg/drivers/helpers.go:56 | The `%d` rendering of a natural number: only digits, never empty, no leading zero. |
| Errors.Decimal | pkg/drivers/helpers.go:56 | The `%d` rendering of an integer: it starts with '-' exactly for negative numbers. |
| Errors.DigitsRoundTrip | pkg/drivers/helpers.go:56 | Reading back the `%d` digits of n gives n. |
| Errors.DecimalInjective | pkg/drivers/helpers.go:56 | Different integers render differently under `%d`. |
| Errors.Contains | pkg/drivers/vcd/vcd.go:344 | `strings.Contains`: true exactly when the substring occurs at some position. |
| Errors.ContainsSpliced | drivers/helpers.go:63-66 | A string built around a piece contains that piece. |
| DriverHelpers.RunSSHCommandFromDriver | pkg/drivers/helpers.go:59-77 | It fails iff the client cannot be had or `Output` fails. A client error is passed on unchanged. An `Output` error becomes `ErrExecutingSSHCommand` with empty output. On success the output is verbatim. |
| DriverHelpers.SshAvailable | pkg/drivers/helpers.go:18-28 | The probe is true iff a client is had and running `exit` on it does not fail. |
| DriverHelpers.WaitForSSH | pkg/drivers/helpers.go:30-37 | It returns only nil or `ErrTooManyRetriesForSSH`. The result is nil iff one of the first 1200 probes finds SSH available. |
| LegacyHelpers.RunSSHCommandFromDriver | drivers/helpers.go:52-70 | It fails iff the client cannot be had or `Output` fails. A client error is passed on unchanged and success output is verbatim. An `Output` failure is a formatted error whose text contains the command, the underlying error's text and the captured output. |
| LegacyHelpers.SshAvailable | drivers/helpers.go:12-22 | The probe is true iff running `exit` succeeds. |
| LegacyHelpers.DecimalOfAttempts | drivers/helpers.go:26 | `%d` of the attempt budget is "1200". |
| LegacyHelpers.WaitForSSH | drivers/helpers.go:24-29 | The result is nil iff one of the first 1200 probes succeeds. The failure text is the "Too many retries … Last error: " prefix followed by the poller's exhaustion message, which is fixed: "Maximum number of retries (1200) exceeded". |
| Rdp.Successes | pkg/drivers/vcd/windows.go:43 | The number of connected dials among the first n never exceeds n (successfulAttempts ≤ attempts). |
| Rdp.SuccessesMonotone | pkg/drivers/vcd/windows.go:31-41 | A failed dial takes nothing away: the success count only grows. |
| Rdp.WaitForRDPStable | pkg/drivers/vcd/windows.go:18-56 | At most 199 dials, every one to `ip:3389`. Success iff 40 of those 199 dials connect. On success it stops at the dial that completes the quota: at least 40 dials, no sleep after the last, one sleep after every other. On failure it returns "failed to connect via RDP" after 199 dials and 199 sleeps. |
| Rdp.FlappingSuccesses | pkg/drivers/vcd/windows.go:34 | A listener up on every other dial has m successes after 2m dials. |
| Rdp.FlappingListenerPasses | pkg/drivers/vcd/windows.go:31-51 | Such a listener passes the check, reaching 40 successes at dial 79, although it is never up twice in a row. |
| VcdLogic.ResolveReferences | pkg/drivers/vcd/vcd.go:76-102 | The calls made are a non-empty prefix of org, vdc, network, catalog, catalog item, template, with the configured names. The first lookup that fails ends the chain: the result is its error, and the calls are exactly those up to and including it. Success makes all six calls and returns the provider's answer at each step. It succeeds iff such a chain exists. |
| VcdLogic.SelectStorageProfile | pkg/drivers/vcd/vcd.go:104-118 | A configured name is looked up by name with one `FindStorageProfileReference` call, and its answer, error included, is the result. Otherwise no call is made and the result is the vdc's first profile. It errors iff there is no name and no profile, with the driver's "no storage profile" error. |
| VcdLogic.FindVApp | pkg/drivers/vcd/helpers.go:24-36 | Org, vdc, then the vApp named after the machine. A failing org or vdc lookup ends the chain with its own error, after exactly the calls up to it. Otherwise all three calls are made and the result is the vApp lookup's answer, error included. |
| VcdLogic.VAppLookup | pkg/drivers/vcd/helpers.go:13-37 | A cached HREF is only refreshed, with no name lookup. Otherwise the lookup is done by name. Only read-only calls are made. |
| VcdLogic.VAppCacheAfter | pkg/drivers/vcd/helpers.go:13-37 | A set vApp cache is kept. An empty one is filled only by a successful lookup. |
| VcdLogic.VmLookup | pkg/drivers/vcd/helpers.go:40-68 | A cached VM HREF is refreshed and the vApp is never consulted. Otherwise it fails with "VM count != 1" unless the vApp has exactly one VM, which is then refreshed. Only read-only calls are made. |
| VcdLogic.VmCacheAfter | pkg/drivers/vcd/helpers.go:59-67 | A set VM cache is kept. An empty one is filled only when the refresh succeeded. |
| VcdLogic.WithHardware | pkg/drivers/vcd/vcd.go:197-199 | Memory (through a memory resource that is then present), CPU count and cores per socket come from the configuration. The OS type is kept. |
| VcdLogic.Attached | pkg/drivers/vcd/vcd.go:222-226 | The first connection gets POOL mode, index 0, connected, needs customisation and the configured network. Its addresses are kept. |
| VcdLogic.Normalised | pkg/drivers/vcd/vcd.go:207-226 | The list is never empty afterwards. An existing first connection is reused and attached. A VM without connections gets one fresh connection. Other connections are untouched and the length is kept. |
| VcdLogic.NormalisedIdempotent | pkg/drivers/vcd/vcd.go:207-226 | Normalising an already normalised section changes nothing. |
| VcdLogic.ConfigureNetwork | pkg/drivers/vcd/vcd.go:207-226 | The in-place field-by-field updates produce exactly the normalised section. |
| VcdLogic.WithAdminPassword | pkg/drivers/vcd/vcd.go:233-239 | Customisation enabled, the given password set and enabled, no generated password, no forced reset. |
| VcdLogic.FirstAddress | pkg/drivers/vcd/vcd.go:358-368 | None iff no connection offers an address. Otherwise the first non-empty address in list order, every earlier connection offering none. |
| VcdLogic.IPOf | pkg/drivers/vcd/vcd.go:357-370 | The result is never empty. It errors with "could not get public IP" iff there is no section or no address. |
| VcdLogic.ScanForIP | pkg/drivers/vcd/vcd.go:358-370 | The loop, preferring the external address to the internal one within a connection, computes exactly `IPOf`. |
| VcdLogic.NormalisedKeepsAddress | pkg/drivers/vcd/vcd.go:220-226 | Network normalisation never changes the address `GetIP` finds. |
| VcdLogic.GetOSType | pkg/drivers/vcd/vcd.go:344-348 | Windows iff the OS type contains "windows". |
| VcdLogic.SshUser | pkg/drivers/vcd/vcd.go:288-293 | "Administrator" iff the OS test says Windows, "root" iff Linux. |
| VcdLogic.OSTypeIsCaseSensitive | pkg/drivers/vcd/vcd.go:289 | "windows9Server64Guest" is Windows. "Windows" and "ubuntu64Guest" are Linux. |
| VcdLogic.SshAuth | pkg/drivers/vcd/vcd.go:280-282 | The only credential is the administrator password, with no key. |
| VcdLogic.TeardownResult | pkg/drivers/vcd/vcd.go:312-336 | Nil iff the delete call and its task succeed. Otherwise the delete call's error, else its task's. |
| VcdLogic.TeardownIgnoresPowerOffAndUndeploy | pkg/drivers/vcd/vcd.go:312-324 | Power-off and undeploy outcomes never change the result. |
| VcdLogic.TeardownCalls | pkg/drivers/vcd/vcd.go:312-334 | Power off, undeploy and delete are always all attempted, in that order. Only waits come in between. |
| VcdLogic.DeployWatch | pkg/drivers/vcd/vcd.go:156-190 | It times out iff no round sees the vApp free of tasks. It fails iff the stale error is set. Otherwise it reports deployed at the first task-free round. |
| VcdLogic.DeployWatchIgnoresRefreshErrors | pkg/drivers/vcd/vcd.go:166-170 | With the nil error the watcher actually reads, it never fails. vApp refresh errors play no part. |
| Vcd.VAppCacheAfterVmLookup | pkg/drivers/vcd/helpers.go:41-52 | `getVM` leaves a set vApp cache alone, and leaves it untouched whenever the VM cache is set. |
| Vcd.PreBootError | pkg/drivers/vcd/vcd.go:76-253 | The first failing step before the machine is up, each with its own error: a lookup's error, the storage lookup's error or "no storage profile available", the compose call's or task's error, the vApp lookup's error, "VM count != 1", the VM refresh's error, then `BootError` of the refreshed VM. None iff every step from the lookups to the power-on task succeeded. |
| Vcd.BootError | pkg/drivers/vcd/vcd.go:156-253 | After the VM is found, each step with its own error: a timed-out watcher gives "reached timeout while deploying VM". A missing spec section gives "VM Spec Section empty". A nil spec section or memory resource after the second refresh panics. Then come the hardware update's error, the network update's error, a nil customisation section (a panic), the customisation wait, the power-on call and its task. |
| Vcd.PreBootErrorAfterVm | pkg/drivers/vcd/vcd.go:137-253 | Once the VM is found, only the later steps decide. |
| Vcd.NewVcdDriver | pkg/drivers/vcd/vcd.go:50-68 | A login failure returns no driver. Otherwise a new driver with the configured password as administrator password and both caches empty, whatever the configuration's HREFs. |
| Vcd.VcdDriver.constructor | pkg/drivers/vcd/vcd.go:61-65 | Field initialisation: the password from the configuration, caches empty. |
| Vcd.VcdDriver.GetVApp | pkg/drivers/vcd/helpers.go:13-37 | The result and calls are those of `VAppLookup`. The cache is updated as `VAppCacheAfter` says. |
| Vcd.VcdDriver.GetVM | pkg/drivers/vcd/helpers.go:40-68 | The result and calls are those of `VmLookup`. Both caches are updated as `VmCacheAfter` and `VAppCacheAfterVmLookup` say. |
| Vcd.VcdDriver.GetOS | pkg/drivers/vcd/vcd.go:339-349 | The `getVM` error is passed on. A missing spec section panics. Otherwise the OS test on the VM's OS type. |
| Vcd.VcdDriver.GetIP | pkg/drivers/vcd/vcd.go:351-371 | The `getVM` error is passed on. Otherwise `IPOf` of the VM's network section, never empty on success. |
| Vcd.VcdDriver.GetSSHClientFromDriver | pkg/drivers/vcd/vcd.go:279-305 | The user comes from the first `getVM`'s OS type and the host from a second lookup through the updated caches. The target is port 22 with exactly the administrator password. Each earlier failure is passed on. The caches after the call are those the first lookup leaves, then those the second leaves when it is made; a set cache is kept. |
| Vcd.VcdDriver.Destroy | pkg/drivers/vcd/vcd.go:307-337 | A `getVApp` error is returned before any task. Otherwise the calls are `TeardownCalls` and the result is `TeardownResult`. |
| Vcd.VcdDriver.FindNewVm | pkg/drivers/vcd/vcd.go:75-154 | It stops at the first failure. On a lookup failure only the lookups are called. On a storage failure, the lookups and the storage-profile lookup (when a name is configured) are called. The vApp cache is set as soon as the vApp is found. The VM cache is set once it is refreshed. Only permitted calls are made. |
| Vcd.VcdDriver.Configure | pkg/drivers/vcd/vcd.go:156-256 | The error is `BootError`. On success both caches hold the vApp's and the updated VM's HREFs. The sections sent are the configured ones. |
| Vcd.VcdDriver.AwaitAccess | pkg/drivers/vcd/vcd.go:258-276 | Fewer than 40 RDP successes out of 199 gives the RDP error. Otherwise the result is nil or the SSH sentinel, and nil iff the tenth SSH wait succeeds. Set caches stay. |
| Vcd.VcdDriver.Create | pkg/drivers/vcd/vcd.go:74-277 | Compose only from the resolved references and selected profile. A lookup or storage failure makes only the lookups and the storage-profile lookup. The error is the pre-boot step's, then RDP, then the last of ten SSH waits, for every OS. It is nil only when booted. Cache states are given per outcome, and no teardown call is made. |
| LegacyVcd.WithCustomizationEnabled | drivers/vcd.go:224-226 | Only `Enabled` is switched on; the password fields stay as they were. |
| LegacyVcd.BootError | drivers/vcd.go:143-239 | The same steps and errors as the newer driver, except the network update, and with capitalised deploy errors. |
| LegacyVcd.CreateError | drivers/vcd.go:58-245 | The first failing step, each with its own error: a lookup's, the storage lookup's or "No storage profile available", the compose call's or task's, the vApp lookup's, "VM count != 1", the VM refresh's, then the legacy `BootError`. None iff every step up to the power-on task succeeded; the network update is not among them. |
| LegacyVcd.CreateErrorIgnoresNetworkUpdate | drivers/vcd.go:216-222 | The network update's outcome never changes `Create`'s result. |
| LegacyVcd.NetworkFailureOnlyStopsNewerDriver | drivers/vcd.go:216 | A failed network update stops the newer driver but not the older one. |
| LegacyVcd.FindNewVm | drivers/vcd.go:59-141 | Lookups, then storage (the storage-profile lookup when a name is configured, or "No storage profile available"), compose, vApp and VM count, stopping at the first failure. A lookup or storage failure makes only the lookups and the storage-profile lookup. Only permitted calls are made. |
| LegacyVcd.Configure | drivers/vcd.go:143-239 | The error is the legacy `BootError`. The customisation sent only enables it. |
| LegacyVcd.Create | drivers/vcd.go:58-245 | The error is `CreateError`, nil iff booted. A lookup or storage failure makes only the lookups and the storage-profile lookup. Nothing is torn down. |
| LegacyVcd.RunCommand | drivers/vcd.go:247-249 | Always nil. |
| LegacyVcd.Destroy | drivers/vcd.go:250-252 | Always nil. |

## Left out

- **SDK and network calls:** every `govcd` call, `newClient` with its HTTP/TLS set-up and authentication, and TCP dials. These are oracle outcomes. `Vcd.NewVcdDriver` takes the URL-parse-and-login outcome as one parameter.
- **Concurrency and the clock:** the deploy watcher's goroutine, channel and 15-minute timer race. The watcher's first loop, waiting for the VM to report powered off, is folded into the rounds that fit before the timer (`deployPolls`). Sleep durations are not modelled either.
- **ssh/client.go:** the SSH library wrapper, a TCP, terminal and session plumbing layer. `Client.Output` is an oracle. Its `("", nil)` answer on session set-up failure is one of the outcomes the oracle may give.
- **`ssh.NewClient`:** this is `GetSSHClientFromDriver`'s `newClient` parameter.
- **Logging:** logging everywhere.
- **Out of the core:** the command-line layer, `executor.go` and the `drivers/drivers.go` interface declaration.
- **Vcd.VcdDriver.Create, probe clients:** the SSH clients the readiness probes obtain are the `ssh(r)(i)` oracle. They are not derived from `GetSSHClientFromDriver`, so the SDK calls those probes make are not in `history`.
- **Vcd.VcdDriver.Create, address lookup:** the `GetIP` call after power-on sees the provider as `booted`, which is independent of the earlier answers.
- **Vcd.VcdDriver.Create, permitted calls:** for the calls after the lookups, `history` is stated as "every call is permitted", not as an exact sequence.
- **Legacy `NewVcdDriver`:** not modelled. It only stores the configuration and the logged-in client.
- **Other nil pointers:** `vdc.Vdc.VdcStorageProfiles` (`pkg/drivers/vcd/vcd.go:111`) and `vapp.VApp.Children` (`pkg/drivers/vcd/helpers.go:56`, `pkg/drivers/vcd/vcd.go:143`) are dereferenced without a nil check too. The model's `Vdc` and `VApp` hold plain lists, so it cannot represent those nil pointers or the panics they cause.
- **Integer width:** `int64(d.cfg.MemorySizeMb)` is a widening conversion, so it is modelled with no truncation.

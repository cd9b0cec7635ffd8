# Hetzner Cloud driver for docker-machine, modelled in Dafny

This project models the decision logic of the Hetzner Cloud driver for
docker-machine (`drivers/hcloud/hcloud.go`). The driver provisions one
server, observes it, and tears it down for docker-machine. The model covers:

- **Configuration** (`Config`). `NewDriver` creates the driver.
  `SetConfigFromFlags` checks the token, the image and the server type in
  that order and binds the driver's fields one by one.
- **Status mapping** (`StatusMapper`). This is the `switch` inside
  `GetState`, from a provider server status to a docker-machine state.
- **Lifecycle operations** (`Lifecycle`): `Create`, `GetState`, `Start`,
  `Stop`, `Restart`, `Kill`, `Remove`, `waitOnAction`, `GetURL` and
  `GetSSHHostname`. Each is a pure function of the driver's fields
  (`DriverState`) and/or a `Provider` oracle that gives the Hetzner Cloud
  API's answer to every request. Each function returns what the Go
  method returns, plus the list of requests it sent to the provider
  (`Call`). That list makes it possible to state which calls happen and
  which are skipped.
- **The driver object** (`Machine.Driver`). This class has the Go struct's
  fields. Its methods follow the Go methods step by step, with early
  returns, and each is proved equal to its function in `Config` or
  `Lifecycle`. `SetConfigFromFlags` may modify every field. `Create` may
  modify only `serverId` and `ipAddress`. The other methods modify nothing.
- **Sequences of calls** (`Sessions`). These are lemmas over any sequence of
  driver calls:
  - once a client exists, no call reaches a missing client;
  - configuration is the only call that binds the provisioning parameters
    and the client;
  - `Create` is the only call that binds the server id and the address;
  - a driver that was never created has no URL;
  - an end-to-end example session.

Behaviour kept exactly as the code has it:

- A server with status `starting` is reported as `Running`. Its `case` has
  an empty body, and a Go `case` does not fall through.
- Any status that is not listed is also reported as `Running`.
- `Create` looks up the datacenter and the location with the image name as
  the key.
- `Create` ignores the wait's result. It returns nil and binds the server id
  and address even when the wait failed.
- There is no check that `Create` ran before the other operations. The
  operations look up server id 0, whatever the provider answers for that id.
- `SetConfigFromFlags` writes the image before it checks the server type. So
  a call that fails on the server type still changes the image.

## Model

| member | source | states |
|---|---|---|
| `Config.NewDriver` | drivers/hcloud/hcloud.go:49-56 | A new driver has only its machine name and store path set. It has no client, server id 0, no address and empty parameters. |
| `Config.SetConfigFromFlags` | drivers/hcloud/hcloud.go:187-211 | Succeeds exactly when token, image and server type are all non-empty. An empty token fails first and leaves every field alone. An empty image fails next, with the image unchanged. An empty server type fails last, with the image already written. On success, image, server type, datacenter and location are bound and a client with the token exists. A client is built only on success. It never calls the provider and never changes the machine name, server id or address. |
| `StatusMapper.MapStatus` | drivers/hcloud/hcloud.go:136-147 | off gives Stopped, stopping gives Stopping, initializing gives Starting. Each of these three states comes from that status and from no other. Every other status gives Running, including `starting`. |
| `Lifecycle.GetState` | drivers/hcloud/hcloud.go:131-148 | Makes one lookup, by the driver's server id. A failed lookup gives the Error state together with that same error. A successful lookup gives no error and the mapped status. The Error state comes back exactly when an error does. |
| `Lifecycle.WaitOnAction` | drivers/hcloud/hcloud.go:237-245 | Watches the given action and returns its terminal signal unchanged: nil when the signal is nil, otherwise that error. |
| `Lifecycle.PowerAction` | drivers/hcloud/hcloud.go:213-235 | Looks up the server, submits the requested action on the server the lookup returned, then waits on the action that the submit returned. It continues only after a call that succeeded and stops only at one that failed. It returns its last call's error as is, so a lookup or submit error comes back without a wait, and otherwise the wait's result comes back. At most one action is submitted, and only of the requested kind. |
| `Lifecycle.Remove` | drivers/hcloud/hcloud.go:162-173 | A delete is sent exactly when the lookup succeeded, on the server the lookup returned, and its error is the result. A not-found lookup returns nil. Any other lookup error is returned as it is. No action is submitted or waited on. |
| `Lifecycle.ResolveCreateOpts` | drivers/hcloud/hcloud.go:91-118 | Looks up the server type, then the image, then the datacenter and the location when each is configured, each at most once and in that order, stopping at the first failure. A successful call makes every one of these lookups. The datacenter and the location are looked up only when configured and only after the first two lookups succeeded, and both use the image name as the key. Each lookup runs only after the previous one succeeded. Options are produced exactly when every lookup succeeds, and they carry the machine name and what the lookups returned. Otherwise the last lookup made is the one whose error is returned. A datacenter or location the provider finds nothing for is left out of the options without an error. |
| `Lifecycle.UnknownPlacementIsDropped` | drivers/hcloud/hcloud.go:105-118 | When the image name matches no datacenter and no location, `Create` still succeeds and creates the server with neither. |
| `Lifecycle.Create` | drivers/hcloud/hcloud.go:90-124 | Succeeds exactly when every lookup succeeds, whatever the wait reports. A failed lookup returns its error before any server is created and leaves the fields unchanged. Otherwise the server is created from the resolved options and its action is waited on. Then only the server id and the address are bound, to the ones in the creation response. |
| `Lifecycle.GetSSHHostname` | drivers/hcloud/hcloud.go:32-34 | Returns the stored address, or the address-not-set error when none is stored. |
| `Lifecycle.GetURL` | drivers/hcloud/hcloud.go:36-47 | The only provider call is the state lookup. A URL comes back exactly when the state is Running and an address is stored, and it is `tcp://` followed by the host and port 2376. The errors come in this order: the lookup's error, then host-not-running, then address-not-set. |
| `Machine.Driver.constructor` | drivers/hcloud/hcloud.go:49-56 | The new object's fields are those of `Config.NewDriver`. |
| `Machine.Driver.SetConfigFromFlags` | drivers/hcloud/hcloud.go:187-211 | Updates the fields one by one, with early returns. The new fields and the error are those of `Config.SetConfigFromFlags` applied to the old fields. |
| `Machine.Driver.Create` | drivers/hcloud/hcloud.go:90-124 | May modify only `serverId` and `ipAddress`. The new fields, the error and the calls are those of `Lifecycle.Create` applied to the old fields. |
| `Machine.Driver.GetState` | drivers/hcloud/hcloud.go:131-148 | Changes nothing. Returns what `Lifecycle.GetState` returns. |
| `Machine.Driver.Start` | drivers/hcloud/hcloud.go:213-223 | Changes nothing. Returns what `Lifecycle.PowerAction` returns for a power-on. |
| `Machine.Driver.Stop` | drivers/hcloud/hcloud.go:225-235 | Changes nothing. Returns what `Lifecycle.PowerAction` returns for a shutdown. |
| `Machine.Driver.Restart` | drivers/hcloud/hcloud.go:175-185 | Changes nothing. Returns what `Lifecycle.PowerAction` returns for a reboot. |
| `Machine.Driver.Kill` | drivers/hcloud/hcloud.go:150-160 | Changes nothing. Returns what `Lifecycle.PowerAction` returns for a power-off. |
| `Machine.Driver.Remove` | drivers/hcloud/hcloud.go:162-173 | Changes nothing. Returns what `Lifecycle.Remove` returns. |
| `Machine.Driver.WaitOnAction` | drivers/hcloud/hcloud.go:237-245 | Changes nothing. Returns what `Lifecycle.WaitOnAction` returns. |
| `Machine.Driver.GetURL` | drivers/hcloud/hcloud.go:36-47 | Changes nothing. Returns what `Lifecycle.GetURL` returns. |
| `Machine.Driver.GetSSHHostname` | drivers/hcloud/hcloud.go:32-34 | Changes nothing. Returns what `Lifecycle.GetSSHHostname` returns. |
| `Sessions.ConfiguredRunsNeverPanic` | drivers/hcloud/hcloud.go:209 | Once the client exists, no sequence of calls dereferences a missing client, whatever the provider answers. The client stays in place. |
| `Sessions.RunKeepsWellConfigured` | drivers/hcloud/hcloud.go:194-209 | Whenever a client exists, the image and server type are non-empty. This holds across any sequence of calls, and the machine name and store path never change. |
| `Sessions.OnlyCreateBindsIdentity` | drivers/hcloud/hcloud.go:121-122 | A sequence of calls without `Create` leaves the server id and the address unchanged. |
| `Sessions.OnlyConfigureBindsParameters` | drivers/hcloud/hcloud.go:199-209 | A sequence of calls without `SetConfigFromFlags` leaves image, server type, datacenter, location and client unchanged. |
| `Sessions.NoURLBeforeCreate` | drivers/hcloud/hcloud.go:36-47 | Start from a new driver and make any calls except `Create`. `GetURL` then fails, whatever the provider reports. |
| `Sessions.CreateIgnoresWaitOutcome` | drivers/hcloud/hcloud.go:119-123 | Take two providers that differ only in how action watches end. `Create` returns the same result with both. |
| `Sessions.URLAfterCreate` | drivers/hcloud/hcloud.go:119-122 | Suppose `Create` succeeded and the provider then reports the new server as running. If the address contains no colon, the URL is `tcp://` + that address + `:2376`. |
| `Sessions.ExampleSession` | drivers/hcloud/hcloud.go:32-245 | Configure with token T, image ubuntu-18.04 and type cx11, then create with a provider that returns server 42 at 203.0.113.9. Then the state is Running, the URL is `tcp://203.0.113.9:2376` and the SSH host name is the address. Removing the server after the provider has forgotten it returns nil. |

## Left out

- The `hcloud-go` API client is not modelled. This covers building the client, HTTP, JSON and every request. Each request is an answer of the `Provider` oracle.
- The client library's `Get` and `GetByID` answer an unknown name or id with no resource and no error. The model gives that answer only to the datacenter and location lookups, where it is harmless: the placement is dropped from the options (`Lifecycle.UnknownPlacementIsDropped`). Every other lookup either succeeds or fails with an error. So the nil dereferences that would follow an unknown server type or image in `Create`, or an unknown server in `GetState` and the power operations, are not modelled.
- `Lifecycle.Remove`: the not-found branch is proved for a lookup that reports a not-found error. The client library's `GetByID` answers a missing server with no server and no error instead. With that client, the branch is never reached, and a missing server reaches `Server.Delete` with nil, which is a nil dereference. That dereference is not modelled.
- The error of `Server.Create` is not modelled. `Create` ignores it and uses the response directly, so a failed creation is a nil dereference in the source. The oracle always returns a creation response.
- A missing client is a nil dereference in every operation that reaches the provider. The `Driver` methods require the client. `Sessions.Step` gives `None` (a panic) for such a call.
- Progress watching is not modelled. `WatchProgress` streams progress events and blocks until it sends its terminal signal. The model gives the wait only that single terminal signal, so progress events, blocking and a wait that never ends are left out.
- Log lines, `context.TODO()` and the version tag sent with requests are left out, because they have no effect on results. The client records only the token and the application name.
- `GetCreateFlags` and `DriverName` are left out. `GetCreateFlags` declares the options and the defaults for the image and the server type, and docker-machine applies those defaults. The `flags` given to `SetConfigFromFlags` are the values after defaults, so the image and type errors need a value that is explicitly empty.
- The IPv4 address string is taken as the provider gives it. Formatting a `net.IP` value as text is not modelled.
- docker-machine's `MustBeRunning` and `BaseDriver.GetIP` are not part of this model's source. Their known behaviour is written out instead. `MustBeRunning` returns the state query's error, then "host is not running" for any other state than Running. `GetIP` fails while no address is stored.
- Go's `net.JoinHostPort` is written out from its documented behaviour as a helper of `Lifecycle.GetURL`, with no contract of its own. The stored address is always an IPv4 address, so the bracketed form is never used.

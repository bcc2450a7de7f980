# Docker container facade — a Dafny model

This project models the `Docker` facade in `docker/docker.go`, which a host agent uses to manage its containers through the Docker daemon. The facade holds a daemon connection and its configuration:

- whether it is enabled;
- the fluentd collector's hostname, config path and address;
- the managed network's id, subnet and gateway.

Its operations are:

- **Init**: connect and store the configuration.
- **Enabled**: report the enabled flag.
- **NetworkCreate**: inspect the network, or create a bridge network when the inspect fails.
- **PullImage**: fire and forget.
- **ContainerRunning**: look a name up, first in the running list and then in the full list.
- **ContainerCreateAndStart**: parse the `"a:b"` port and volume entries, choose the log driver, build the container, host and endpoint configuration, then create and start the container.
- **StartFluentBit**: force-remove the collector found under the configured hostname, then create and start a fresh one.

The model has four modules:

- `Strings` (`strings.dfy`): Go's `strings.Split` on one character, with its inverse `Join`, and `strings.Contains`.
- `ContainerSettings` (`settings.dfy`): the configuration values the facade builds, written as pure functions. These are the port set, the binding map, the bind mounts, the log configuration and the whole create request.
- `Runtime` (`runtime.dfy`): an in-memory daemon, the class `Daemon`, with a map of networks and an ordered sequence of containers. Some daemon decisions cannot be seen from the facade: a transport or lookup fault, the id it assigns, a start failure. Each of these is a `reply` parameter.
- `Docker` (`docker.dfy`): the facade as a class with the struct's fields. The methods follow the Go code statement by statement. Pure specification functions sit beside them (`Lookup`, `Cleared`, `CollectorRequest`).

Every method is proved against those functions. Lemmas then prove what the functions mean.

Three points of the code that the model keeps as written:

- **Port order.** The code takes the part of a port entry before `:` as both the exposed port and the binding key, and the part after it as the `HostPort`. So `"8080:80"` exposes `8080` bound to host port `80`. `PortEntryOrder` and `LastEntryWins` state this.
- **Collector name.** `StartFluentBit` looks up and removes the container named after the configured `fluentdHostname`, but creates the new collector under its `containerName` argument.
- **Malformed entries.** The code does not validate port or volume entries; an entry without `:` makes `tmp[1]` panic. The model therefore requires `WellFormedEntries`: every entry contains `:`.

## Model

| member | source | states |
|---|---|---|
| Strings.Split | docker/docker.go:158 | `strings.Split` on `:` yields at least one piece, two or more exactly when the separator occurs, no piece holds the separator, and joining the pieces restores the input |
| Strings.SplitJoin | docker/docker.go:173 | splitting a join of separator-free pieces gives back exactly those pieces |
| Strings.ContainsIff | docker/docker.go:202 | `strings.Contains(s, sub)` holds exactly when `sub` occurs at some index of `s` |
| ContainerSettings.EntryParts | docker/docker.go:158-162 | for `a` without `:`, `tmp[0]` of `a:rest` is `a` and `tmp[1]` is the first piece of `rest` |
| ContainerSettings.PairRoundTrip | docker/docker.go:173-177 | an entry `a:b` with colon-free parts splits back into `a` and `b` |
| ContainerSettings.EntriesExposed | docker/docker.go:157-167 | every port entry's first part ends up in the exposed-port set |
| ContainerSettings.OnlyEntriesExposed | docker/docker.go:157-167 | every exposed port comes from some entry's first part |
| ContainerSettings.PortBindingsKeys | docker/docker.go:155-167 | the binding map's keys are exactly the exposed ports, and every key is bound to a list of exactly one binding |
| ContainerSettings.LastEntryWins | docker/docker.go:157-164 | the binding for a port is `HostPort` = second part of the last entry with that first part, with an empty host ip |
| ContainerSettings.PortOverwrite | docker/docker.go:159-164 | adding an entry overwrites its key's binding and leaves every other key's binding unchanged |
| ContainerSettings.PortEntryOrder | docker/docker.go:157-166 | an entry `a:b` exposes `a` and binds it to host port `b` |
| ContainerSettings.MountsMeaning | docker/docker.go:170-180 | one mount per volume, in order, each a bind mount from the entry's first part to its second part |
| ContainerSettings.LogDriverRule | docker/docker.go:201-213 | the fluentd driver (address `tcp://<ip>:24224`, tag `system-agent-log`) is chosen exactly when collection is enabled and the image name does not contain `fluent-bit`; otherwise the zero log config |
| ContainerSettings.CollectorLogsByDefault | docker/docker.go:201-202 | an image whose name contains `fluent-bit` always keeps the default log driver |
| ContainerSettings.CreateRequestWiring | docker/docker.go:182-235 | the request carries the log configuration of `LogConfigFor`, the binding map of `PortBindings`, the given image, user, env, command, name as hostname, working dir `/app`, stdin/stdout attached, no tty, the restart policy, network mode = the managed network id, one endpoint keyed by that id with the container's name as alias and the given address; exposed ports equal the binding keys; mounts follow volumes in order |
| Runtime.RunningOnlyMembers | docker/docker.go:124 | the list without `All` holds exactly the running containers |
| Runtime.WithoutIdMembers | docker/docker.go:97 | removal by id keeps exactly the containers with another id |
| Runtime.SetRunning | docker/docker.go:244 | starting by id keeps the list's length (its contents are stated by `SetRunningMembers`) |
| Runtime.SetRunningMembers | docker/docker.go:244 | after a start by id the list holds exactly the containers with another id, unchanged, and the containers with that id, now running; if the id was listed, a running container with it is listed |
| Runtime.SetRunningAppended | docker/docker.go:237-244 | starting the container just created under a fresh id changes only that container, which becomes running |
| Runtime.CountNamedAppend | docker/docker.go:94-114 | the number of containers with a given first name adds up over concatenation |
| Runtime.CountNamedZero | docker/docker.go:94-98 | the count of a name is zero exactly when no container carries it as first name |
| Runtime.CountNamedWithoutId | docker/docker.go:97 | removing by id never raises the count of a name, and lowers it when the removed container carries that name |
| Runtime.Daemon.constructor | docker/docker.go:30 | builds an empty in-memory daemon, a stand-in that a `Connection` can hand to `Init`; the daemon line 30 connects to has whatever state it already has |
| Runtime.Daemon.NetworkInspect | docker/docker.go:61 | inspect succeeds exactly when there is no fault and a network of that name exists, and then returns its id |
| Runtime.Daemon.NetworkCreate | docker/docker.go:65-78 | a successful create records the network under its name with the returned id and the request; a failure changes nothing |
| Runtime.Daemon.ContainerList | docker/docker.go:124-133 | `All: true` lists every container, `All: false` the running ones in order |
| Runtime.Daemon.ContainerCreate | docker/docker.go:237-242 | a successful create appends a stopped container named `/name` with the new id and the request; a failure changes nothing |
| Runtime.Daemon.ContainerStart | docker/docker.go:244-247 | start succeeds exactly when there is no fault and the id exists, and then marks that container running; a fault is returned as is |
| Runtime.Daemon.ContainerRemove | docker/docker.go:97 | removal succeeds exactly when the id exists and it is forced or stopped, and then drops that container |
| Docker.FirstNamed | docker/docker.go:125-130 | the index of the first container whose first name is `/name`, or the list's length when none is |
| Docker.RunningScan | docker/docker.go:124-130 | the first match in the running list is the first running container of the full list with that name |
| Docker.LookupMeaning | docker/docker.go:119-142 | the lookup reports running exactly when a running container has the name, and then the id of the first such; otherwise the id of the first container of the full list with the name; `""` exactly when no container has the name; any non-empty id belongs to a container with that name |
| Docker.LookupAfterStart | docker/docker.go:237-249 | a container started under a name no other container has is then found as running with its id |
| Docker.ClearedHasNone | docker/docker.go:94-98 | when at most one container carried the collector's hostname, the removal step leaves none |
| Docker.ClearedMembers | docker/docker.go:94-98 | the removal step only drops containers |
| Docker.ReplacementKeepsOne | docker/docker.go:91-117 | when at most one container had the name before (the model's stand-in for Docker's name uniqueness), after removal and creation under the same name exactly one container carries it and the lookup finds the new one |
| Docker.ParsePorts | docker/docker.go:155-167 | the port loop yields the exposed-port set and binding map of the specification functions (whose meaning the port lemmas state) |
| Docker.ParseVolumes | docker/docker.go:170-180 | the volume loop yields the bind-mount list of the specification function (see `MountsMeaning`) |
| Docker.CollectorRequestWiring | docker/docker.go:100-114 | the collector runs image `fluent/fluent-bit:2.1.8` as `0:0` with restart `always` at the collector's address, exposes and binds no port, has no env, runs `-c <config>`, keeps the default log driver and has one bind mount, which maps its config file onto the same path when that path holds no `:` |
| Strings.Contains | docker/docker.go:202 | `strings.Contains` by sliding over the string; its meaning is stated by `ContainsIff` |
| ContainerSettings.ExposedPorts | docker/docker.go:155-167 | the exposed-port set after the port loop; its meaning is stated by `EntriesExposed` and `OnlyEntriesExposed` |
| ContainerSettings.PortBindings | docker/docker.go:155-167 | the binding map after the port loop; its meaning is stated by `PortBindingsKeys`, `LastEntryWins` and `PortOverwrite` |
| ContainerSettings.BindMounts | docker/docker.go:170-180 | the mount list after the volume loop; its meaning is stated by `MountsMeaning` |
| ContainerSettings.LogConfigFor | docker/docker.go:201-213 | the log configuration a container gets; its meaning is stated by `LogDriverRule` and `CollectorLogsByDefault` |
| ContainerSettings.CreateRequestFor | docker/docker.go:182-235 | the create request built from the arguments; its meaning is stated by `CreateRequestWiring` |
| Docker.Lookup | docker/docker.go:122-142 | the answer of the two scans; its meaning is stated by `LookupMeaning`, and `ContainerRunning` is proved equal to it |
| Docker.Cleared | docker/docker.go:94-98 | the containers left once the lookup's result, if any, is force-removed; its meaning is stated by `ClearedMembers` and `ClearedHasNone` |
| Docker.CollectorRequest | docker/docker.go:100-114 | the collector's create request; its meaning is stated by `CollectorRequestWiring` |
| Docker.Docker.Enabled | docker/docker.go:47-49 | returns the stored enabled flag; `Init`'s contract ties it to the `enabled` argument |
| Docker.Docker.PullImage | docker/docker.go:86-89 | the pull's result is discarded: the method modifies nothing |
| Docker.Docker.constructor | docker/docker.go:16-26 | the zero struct: no client, every field empty |
| Docker.Docker.Init | docker/docker.go:28-45 | a refused connection returns its error and leaves the configuration untouched; otherwise every field is stored, `Enabled()` reports `enabled`, and no error is returned |
| Docker.Docker.NetworkCreate | docker/docker.go:51-84 | an existing network is reused, with its id, an empty warning and no change; otherwise a bridge network with one IPAM entry (subnet, configured gateway) and no options is created, returning its id and warning, or `""`, `""` and the error; on success the network is recorded under `id` with the returned id |
| Docker.Docker.NetworkCreateTwice | docker/docker.go:51-84 | two calls with the same id, the second inspect assumed to go through: once the first has succeeded, the second succeeds with the same network id and adds no network; the networks are those after the first call (the old ones, or the old ones with `id` created once), and the containers are unchanged |
| Docker.Docker.ContainerRunning | docker/docker.go:119-142 | the result is the lookup: running list first, then the full list, comparing first names with `/name` |
| Docker.Docker.ContainerCreateAndStart | docker/docker.go:149-250 | a create failure returns `""`, no warnings and the error, and adds nothing; otherwise the created container, built from the request above, is appended; a start failure leaves it stopped and returns `""` with the error; success returns the new id and warnings, and the container runs; when no other container had the name, the lookup then finds it running under that id |
| Docker.Docker.StartFluentBit | docker/docker.go:91-117 | the container found under the configured hostname, if any, is removed, then the collector is created under `containerName` and started; the create or start error is returned; with `containerName` equal to the hostname and at most one container of that name before (the model's stand-in for Docker's name uniqueness), at most one survives the bootstrap and a successful create is what the next lookup finds |

## Left out

- The Docker SDK, `context.Background()` and the HTTP transport. The daemon is the in-memory `Runtime.Daemon`. The facts it decides are parameters of the facade methods: a connection refusal, an inspect fault, create and start replies, and the id it assigns.
- Daemon validation beyond what the facade observes. Duplicate container names, missing images and invalid restart policies are not modelled. A create with a fresh, non-empty id always adds the container.
- Image download: the model has no image store. `PullImage` is modelled as a method that changes nothing, because the source discards the pull's result.
- Docker.Docker.ContainerRunning: the errors of both `ContainerList` calls are discarded in the source; the model's list always succeeds.
- Docker.Docker.StartFluentBit: the error of the forced `ContainerRemove` is discarded in the source; the model's removal of a listed id always succeeds. Uniqueness of the collector is proved only when `containerName` equals the configured hostname, because the code looks up one name and creates under the other. It is also proved only when at most one container had the hostname before: with two or more, the source removes only the one the lookup finds, so more than one can remain.
- Docker.Docker.NetworkCreate: any inspect error leads to a create, as in the source. On a fault for an existing name, the daemon model overwrites that name's record instead of refusing a duplicate.
- The daemon lists containers in creation order; Docker's own newest-first order is not modelled. The lookup lemmas hold for the order the list has.
- `nat.Port` protocol suffixes (`80/tcp`): a port is the untouched string.
- Nil versus empty slices: the model returns an empty sequence where the source returns `nil`.
- Concurrency: the connection is shared by concurrent callers in the source; the model is sequential.
- Calling any facade operation without a successful `Init` (a zero `Docker{}`, or after a refused connection) dereferences a nil client in the source and panics; the model requires `client != null`.
- Docker.CollectorRequestWiring: a config path containing `:` is split by the source like any volume entry (`C:x` mounts `C` onto `x`); the same-path mount is stated only for a path without `:`.
- Port and volume entries without `:` make the source panic on `tmp[1]`; the model requires every entry to have one (`WellFormedEntries`).
- utils/git.go, utils/http.go, utils/jwt.go, utils/yaml.go and atreugo/middleware.go are not part of this model.

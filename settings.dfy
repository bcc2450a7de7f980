/**
 * The container settings that `ContainerCreateAndStart` assembles before it
 * talks to the daemon: the exposed-port set and port-binding map parsed from
 * "a:b" port strings, the bind mounts parsed from "src:dst" volume strings,
 * the log configuration, and the full create request.
 */
module ContainerSettings {
  import opened Strings

  /** `nat.PortBinding`; the facade never sets `HostIP`. */
  datatype PortBinding = PortBinding(hostIp: string, hostPort: string)

  /** `mount.Mount`: its type ("bind"), source and target. */
  datatype Mount = Mount(mountType: string, source: string, target: string)

  /** `container.LogConfig`: a driver name (`Type`) and its options (`Config`). */
  datatype LogConfig = LogConfig(driver: string, options: map<string, string>)

  /** The fields of `container.Config` that the facade sets. */
  datatype ContainerConfig = ContainerConfig(
    tty: bool,
    attachStdin: bool,
    attachStdout: bool,
    env: seq<string>,
    workingDir: string,
    image: string,
    user: string,
    exposedPorts: set<string>,
    networkDisabled: bool,
    cmd: seq<string>,
    hostname: string)

  /** The fields of `container.HostConfig` that the facade sets. */
  datatype HostConfig = HostConfig(
    mounts: seq<Mount>,
    autoRemove: bool,
    portBindings: map<string, seq<PortBinding>>,
    restartPolicy: string,
    logConfig: LogConfig,
    networkMode: string)

  /** `network.EndpointSettings` with its static IPv4 address. */
  datatype EndpointSettings = EndpointSettings(aliases: seq<string>, networkId: string, ipv4Address: string)

  /** Everything `ContainerCreate` receives: config, host config and endpoints by network. */
  datatype CreateRequest = CreateRequest(
    config: ContainerConfig,
    host: HostConfig,
    endpoints: map<string, EndpointSettings>)

  /** The configuration fields of the `Docker` struct. */
  datatype DockerSettings = DockerSettings(
    enabled: bool,
    fluentdEnabled: bool,
    fluentdHostname: string,
    fluentdConfig: string,
    fluentdIp: string,
    networkId: string,
    networkSubnet: string,
    networkGateway: string)

  const TypeBind: string := "bind"
  const WorkingDir: string := "/app"
  const CollectorImageMarker: string := "fluent-bit"
  const FluentdDriver: string := "fluentd"
  const LogTag: string := "system-agent-log"

  /** The zero `container.LogConfig`: the daemon's default logging driver. */
  const DefaultLogConfig: LogConfig := LogConfig("", map[])

  /** `tmp[0]` of `strings.Split(entry, ":")`. */
  function FirstPart(entry: string): string {
    Split(entry, ':')[0]
  }

  /** `tmp[1]` of `strings.Split(entry, ":")`, which exists only when `entry` has a ':'. */
  function SecondPart(entry: string): string
    requires ':' in entry
  {
    Split(entry, ':')[1]
  }

  /** Every entry has the ':' that indexing `tmp[1]` needs. */
  predicate WellFormedEntries(entries: seq<string>) {
    forall k :: 0 <= k < |entries| ==> ':' in entries[k]
  }

  /** The first part is everything before the first ':'; the second is the next piece. */
  lemma EntryParts(a: string, rest: string)
    requires ':' !in a
    ensures FirstPart(a + ":" + rest) == a
    ensures SecondPart(a + ":" + rest) == FirstPart(rest)
  {
    var parts := Split(rest, ':');
    SplitJoin([a] + parts, ':');
    assert ([a] + parts)[1..] == parts;
    assert Join([a] + parts, ':') == a + ":" + rest;
  }

  /** A "a:b" entry with colon-free `a` and `b` splits back into `a` and `b`. */
  lemma PairRoundTrip(a: string, b: string)
    requires ':' !in a && ':' !in b
    ensures FirstPart(a + ":" + b) == a && SecondPart(a + ":" + b) == b
  {
    EntryParts(a, b);
    SplitJoin([b], ':');
  }

  /** The single binding an entry installs for its port. */
  function BindingOf(entry: string): PortBinding
    requires ':' in entry
  {
    PortBinding("", SecondPart(entry))
  }

  /** The exposed-port set after the port loop has seen `ports`. */
  function ExposedPorts(ports: seq<string>): set<string>
    requires WellFormedEntries(ports)
  {
    if |ports| == 0 then {}
    else ExposedPorts(ports[..|ports| - 1]) + {FirstPart(ports[|ports| - 1])}
  }

  /** The port-binding map after the port loop has seen `ports`: each entry overwrites its key. */
  function PortBindings(ports: seq<string>): map<string, seq<PortBinding>>
    requires WellFormedEntries(ports)
  {
    if |ports| == 0 then map[]
    else
      var last := ports[|ports| - 1];
      PortBindings(ports[..|ports| - 1])[FirstPart(last) := [BindingOf(last)]]
  }

  /** No entry after index `k` has the same first part as entry `k`. */
  ghost predicate LastWithKey(ports: seq<string>, k: int)
    requires 0 <= k < |ports|
  {
    forall j :: k < j < |ports| ==> FirstPart(ports[j]) != FirstPart(ports[k])
  }

  /** Dropping the last entry keeps the list well formed, entry by entry. */
  lemma InitEntries(entries: seq<string>)
    requires WellFormedEntries(entries) && |entries| > 0
    ensures WellFormedEntries(entries[..|entries| - 1])
    ensures forall k :: 0 <= k < |entries| - 1 ==> entries[..|entries| - 1][k] == entries[k]
  {
  }

  /** Every entry's first part is exposed. */
  lemma {:induction false} EntriesExposed(ports: seq<string>)
    requires WellFormedEntries(ports)
    ensures forall k :: 0 <= k < |ports| ==> FirstPart(ports[k]) in ExposedPorts(ports)
    decreases |ports|
  {
    if |ports| > 0 {
      InitEntries(ports);
      EntriesExposed(ports[..|ports| - 1]);
    }
  }

  /** Nothing but first parts of entries is exposed. */
  lemma {:induction false} OnlyEntriesExposed(ports: seq<string>, p: string)
    requires WellFormedEntries(ports)
    requires p in ExposedPorts(ports)
    ensures exists k :: 0 <= k < |ports| && FirstPart(ports[k]) == p
    decreases |ports|
  {
    var init := ports[..|ports| - 1];
    InitEntries(ports);
    if p != FirstPart(ports[|ports| - 1]) {
      OnlyEntriesExposed(init, p);
      var k :| 0 <= k < |init| && FirstPart(init[k]) == p;
      assert FirstPart(ports[k]) == p;
    }
  }

  /** The binding map binds exactly the exposed ports, each to exactly one binding. */
  lemma {:induction false} PortBindingsKeys(ports: seq<string>)
    requires WellFormedEntries(ports)
    ensures PortBindings(ports).Keys == ExposedPorts(ports)
    ensures forall p :: p in PortBindings(ports) ==> |PortBindings(ports)[p]| == 1
    decreases |ports|
  {
    if |ports| > 0 {
      InitEntries(ports);
      PortBindingsKeys(ports[..|ports| - 1]);
    }
  }

  /** The binding of a port carries the second part of the LAST entry with that port. */
  lemma {:induction false} LastEntryWins(ports: seq<string>, k: int)
    requires WellFormedEntries(ports)
    requires 0 <= k < |ports| && LastWithKey(ports, k)
    ensures FirstPart(ports[k]) in PortBindings(ports)
    ensures PortBindings(ports)[FirstPart(ports[k])] == [BindingOf(ports[k])]
    decreases |ports|
  {
    var init := ports[..|ports| - 1];
    var last := ports[|ports| - 1];
    InitEntries(ports);
    if k < |init| {
      assert FirstPart(last) != FirstPart(ports[k]);
      assert LastWithKey(init, k) by {
        forall j | k < j < |init| ensures FirstPart(init[j]) != FirstPart(init[k]) {
          assert init[j] == ports[j];
        }
      }
      LastEntryWins(init, k);
    }
  }

  /** A later entry overwrites an earlier entry's binding and leaves every other key alone. */
  lemma PortOverwrite(ports: seq<string>, entry: string)
    requires WellFormedEntries(ports) && ':' in entry
    ensures WellFormedEntries(ports + [entry])
    ensures PortBindings(ports + [entry])[FirstPart(entry)] == [BindingOf(entry)]
    ensures forall p :: p != FirstPart(entry) && p in PortBindings(ports) ==>
              p in PortBindings(ports + [entry]) && PortBindings(ports + [entry])[p] == PortBindings(ports)[p]
  {
    assert (ports + [entry])[..|ports|] == ports;
  }

  /**
   * The order of a port entry: the part before ':' is both the exposed port
   * and the binding key, and the part after it is the host port.
   */
  lemma PortEntryOrder(a: string, b: string)
    requires ':' !in a && ':' !in b
    ensures WellFormedEntries([a + ":" + b])
    ensures ExposedPorts([a + ":" + b]) == {a}
    ensures PortBindings([a + ":" + b]) == map[a := [PortBinding("", b)]]
  {
    var entry := a + ":" + b;
    assert entry[|a|] == ':';
    PairRoundTrip(a, b);
    assert [entry][..0] == [];
  }

  /** The bind mount a volume entry becomes. */
  function MountOf(volume: string): Mount
    requires ':' in volume
  {
    Mount(TypeBind, FirstPart(volume), SecondPart(volume))
  }

  /** The mounts list after the volume loop has seen `volumes`. */
  function BindMounts(volumes: seq<string>): seq<Mount>
    requires WellFormedEntries(volumes)
  {
    if |volumes| == 0 then []
    else BindMounts(volumes[..|volumes| - 1]) + [MountOf(volumes[|volumes| - 1])]
  }

  /**
   * The volume loop keeps length and order: mount `k` is a bind mount from
   * the first part of volume `k` to its second part.
   */
  lemma {:induction false} MountsMeaning(volumes: seq<string>)
    requires WellFormedEntries(volumes)
    ensures |BindMounts(volumes)| == |volumes|
    ensures forall k :: 0 <= k < |volumes| ==>
              BindMounts(volumes)[k] == Mount(TypeBind, FirstPart(volumes[k]), SecondPart(volumes[k]))
    decreases |volumes|
  {
    if |volumes| > 0 {
      InitEntries(volumes);
      MountsMeaning(volumes[..|volumes| - 1]);
    }
  }

  /** The fluentd log driver addressed at the collector's port 24224. */
  function FluentdLogConfig(fluentdIp: string): LogConfig {
    LogConfig(FluentdDriver, map["fluentd-address" := "tcp://" + fluentdIp + ":24224", "tag" := LogTag])
  }

  /** The log configuration a container of `imageName` gets. */
  function LogConfigFor(fluentdEnabled: bool, fluentdIp: string, imageName: string): LogConfig {
    if fluentdEnabled && !Contains(imageName, CollectorImageMarker) then FluentdLogConfig(fluentdIp)
    else DefaultLogConfig
  }

  /**
   * The log-driver rule: a container ships its logs to the collector exactly
   * when collection is enabled and its image name does not mention
   * "fluent-bit"; every other container stays on the default driver.
   */
  lemma LogDriverRule(fluentdEnabled: bool, fluentdIp: string, imageName: string)
    ensures var r := LogConfigFor(fluentdEnabled, fluentdIp, imageName);
            (r == FluentdLogConfig(fluentdIp)) <==>
              (fluentdEnabled && !exists i :: OccursAt(imageName, CollectorImageMarker, i))
    ensures var r := LogConfigFor(fluentdEnabled, fluentdIp, imageName);
            r == FluentdLogConfig(fluentdIp) || r == DefaultLogConfig
  {
    ContainsIff(imageName, CollectorImageMarker);
  }

  /** The collector's own image never logs through itself. */
  lemma CollectorLogsByDefault(fluentdEnabled: bool, fluentdIp: string, imageName: string, i: int)
    requires OccursAt(imageName, CollectorImageMarker, i)
    ensures LogConfigFor(fluentdEnabled, fluentdIp, imageName) == DefaultLogConfig
  {
    ContainsIff(imageName, CollectorImageMarker);
  }

  /** The request `ContainerCreateAndStart` sends for its arguments. */
  function CreateRequestFor(
    s: DockerSettings, imageName: string, user: string, containerName: string, restart: string,
    ip: string, ports: seq<string>, volumes: seq<string>, environment: seq<string>, commands: seq<string>
  ): CreateRequest
    requires WellFormedEntries(ports) && WellFormedEntries(volumes)
  {
    CreateRequest(
      ContainerConfig(false, true, true, environment, WorkingDir, imageName, user,
                      ExposedPorts(ports), false, commands, containerName),
      HostConfig(BindMounts(volumes), false, PortBindings(ports), restart,
                 LogConfigFor(s.fluentdEnabled, s.fluentdIp, imageName), s.networkId),
      map[s.networkId := EndpointSettings([containerName], s.networkId, ip)])
  }

  /**
   * How the request is wired: the container is attached to the managed
   * network only, under its own name, with the caller's static address;
   * what it exposes is what it binds; its mounts follow the volumes in order.
   */
  lemma {:induction false} CreateRequestWiring(
    s: DockerSettings, imageName: string, user: string, containerName: string, restart: string,
    ip: string, ports: seq<string>, volumes: seq<string>, environment: seq<string>, commands: seq<string>)
    requires WellFormedEntries(ports) && WellFormedEntries(volumes)
    ensures var r := CreateRequestFor(s, imageName, user, containerName, restart, ip, ports, volumes, environment, commands);
      && r.config.hostname == containerName && r.config.workingDir == WorkingDir
      && !r.config.tty && r.config.attachStdin && r.config.attachStdout
      && r.config.env == environment && r.config.cmd == commands
      && r.config.image == imageName && r.config.user == user
      && r.host.restartPolicy == restart && r.host.networkMode == s.networkId
      && r.endpoints.Keys == {s.networkId}
      && r.endpoints[s.networkId] == EndpointSettings([containerName], s.networkId, ip)
      && r.host.logConfig == LogConfigFor(s.fluentdEnabled, s.fluentdIp, imageName)
      && r.host.portBindings == PortBindings(ports)
      && r.config.exposedPorts == r.host.portBindings.Keys
      && (forall k :: 0 <= k < |ports| ==> FirstPart(ports[k]) in r.config.exposedPorts)
      && |r.host.mounts| == |volumes|
      && (forall k :: 0 <= k < |volumes| ==> r.host.mounts[k] == MountOf(volumes[k]))
  {
    EntriesExposed(ports);
    PortBindingsKeys(ports);
    MountsMeaning(volumes);
  }
}

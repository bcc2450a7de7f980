/**
 * The `Docker` facade of docker/docker.go: the configuration it holds and
 * its operations against the daemon (network inspect-or-create, container
 * lookup, create-and-start, and replacement of the log-collector container).
 */
module Docker {
  import opened Strings
  import opened ContainerSettings
  import opened Runtime

  /** The log collector's image; its name contains "fluent-bit". */
  const CollectorImage: string := "fluent/fluent-bit:2.1.8"

  /** The outcome of `sdkClient.NewClientWithOpts(sdkClient.FromEnv)`. */
  datatype Connection = Connected(daemon: Daemon) | Refused(msg: string)

  /** The network `NetworkCreate` asks for: a bridge with one IPAM entry and no driver options. */
  function BridgeRequest(subnet: string, gateway: string): NetworkRequest {
    NetworkRequest("bridge", [IpamConfig(subnet, gateway)], map[])
  }

  // ---------------------------------------------------------------------------
  // Container lookup
  // ---------------------------------------------------------------------------

  /** Index of the first container in `list` whose first name is "/name", or |list| if none. */
  function FirstNamed(list: seq<Container>, name: string): (i: nat)
    ensures i <= |list|
    ensures forall j :: 0 <= j < i ==> !Named(list[j], name)
    ensures i < |list| ==> Named(list[i], name)
  {
    if |list| == 0 then 0
    else if Named(list[0], name) then 0
    else 1 + FirstNamed(list[1..], name)
  }

  /**
   * What `ContainerRunning` answers: first the running list is scanned,
   * then the full list; only the first name of each container is compared.
   */
  function Lookup(cs: seq<Container>, name: string): (bool, string)
    requires AllWellFormed(cs)
  {
    var running := RunningOnly(cs);
    var i := FirstNamed(running, name);
    if i < |running| then (true, running[i].id)
    else
      var j := FirstNamed(cs, name);
      if j < |cs| then (false, cs[j].id) else (false, "")
  }

  /** `k` is the first running container of `cs` named "/name". */
  ghost predicate FirstRunningNamed(cs: seq<Container>, name: string, k: int) {
    0 <= k < |cs| && cs[k].running && Named(cs[k], name) &&
    forall j :: 0 <= j < k ==> !(cs[j].running && Named(cs[j], name))
  }

  /** A first entry that is not named "/name" shifts the first match by one. */
  lemma FirstNamedSkip(c: Container, rest: seq<Container>, name: string)
    requires !Named(c, name)
    ensures FirstNamed([c] + rest, name) == 1 + FirstNamed(rest, name)
  {
    assert ([c] + rest)[1..] == rest;
  }

  /** Scanning the running list finds the first running container of the full list. */
  lemma {:induction false} RunningScan(cs: seq<Container>, name: string)
    requires FirstNamed(RunningOnly(cs), name) < |RunningOnly(cs)|
    ensures exists k :: FirstRunningNamed(cs, name, k) &&
              cs[k] == RunningOnly(cs)[FirstNamed(RunningOnly(cs), name)]
    decreases |cs|
  {
    var r := RunningOnly(cs);
    var rest := RunningOnly(cs[1..]);
    if cs[0].running && Named(cs[0], name) {
      assert FirstRunningNamed(cs, name, 0);
    } else {
      var i := FirstNamed(rest, name);
      if cs[0].running {
        assert r == [cs[0]] + rest;
        FirstNamedSkip(cs[0], rest, name);
        assert r[1 + i] == rest[i];
      } else {
        assert r == rest;
      }
      assert i < |rest| && r[FirstNamed(r, name)] == rest[i];
      RunningScan(cs[1..], name);
      var k :| FirstRunningNamed(cs[1..], name, k) && cs[1..][k] == rest[i];
      assert FirstRunningNamed(cs, name, k + 1);
    }
  }

  /**
   * The three outcomes of the lookup: (true, id of the first running
   * container named "/name") when there is one; otherwise (false, id of the
   * first container of the full list named "/name"); otherwise (false, "").
   */
  lemma LookupMeaning(cs: seq<Container>, name: string)
    requires AllWellFormed(cs)
    ensures var r := Lookup(cs, name);
      && (r.0 <==> exists k :: 0 <= k < |cs| && cs[k].running && Named(cs[k], name))
      && (r.0 ==> exists k :: FirstRunningNamed(cs, name, k) && cs[k].id == r.1)
      && (!r.0 && FirstNamed(cs, name) < |cs| ==> r.1 == cs[FirstNamed(cs, name)].id)
      && (r.1 == "" <==> forall c :: c in cs ==> !Named(c, name))
      && (r.1 != "" ==> exists c :: c in cs && c.id == r.1 && Named(c, name))
  {
    var running := RunningOnly(cs);
    var i := FirstNamed(running, name);
    if i < |running| {
      RunningScan(cs, name);
      var k :| FirstRunningNamed(cs, name, k) && cs[k] == running[i];
      assert cs[k] in cs;
    } else {
      RunningOnlyMembers(cs);
      forall k | 0 <= k < |cs| && cs[k].running ensures !Named(cs[k], name) {
        assert cs[k] in running;
      }
      var j := FirstNamed(cs, name);
      if j < |cs| {
        assert cs[j] in cs;
      }
    }
  }

  /** A container that is started under a name nobody else has is then reported running. */
  lemma LookupAfterStart(cs: seq<Container>, c: Container, name: string)
    requires AllWellFormed(cs) && WellFormed(c) && Named(c, name) && c.running
    requires CountNamed(cs, name) == 0
    ensures AllWellFormed(cs + [c])
    ensures Lookup(cs + [c], name) == (true, c.id)
  {
    var all := cs + [c];
    CountNamedZero(cs, name);
    LookupMeaning(all, name);
    assert all[|cs|] == c;
    assert forall j :: 0 <= j < |cs| ==> all[j] in cs;
    assert FirstRunningNamed(all, name, |cs|);
  }

  /** The containers left once the collector's lookup result has been force-removed. */
  function Cleared(cs: seq<Container>, hostname: string): seq<Container>
    requires AllWellFormed(cs)
  {
    var found := Lookup(cs, hostname).1;
    if found == "" then cs else WithoutId(cs, found)
  }

  /** If at most one container was named "/hostname", the removal step leaves none. */
  lemma ClearedHasNone(cs: seq<Container>, hostname: string)
    requires AllWellFormed(cs)
    requires CountNamed(cs, hostname) <= 1
    ensures CountNamed(Cleared(cs, hostname), hostname) == 0
  {
    LookupMeaning(cs, hostname);
    var found := Lookup(cs, hostname).1;
    if found == "" {
      CountNamedZero(cs, hostname);
    } else {
      CountNamedWithoutId(cs, found, hostname);
    }
  }

  /** The removal step only ever drops containers. */
  lemma ClearedMembers(cs: seq<Container>, hostname: string)
    requires AllWellFormed(cs)
    ensures forall c :: c in Cleared(cs, hostname) ==> c in cs
    ensures AllWellFormed(Cleared(cs, hostname))
  {
    var found := Lookup(cs, hostname).1;
    if found != "" {
      WithoutIdMembers(cs, found);
    }
  }

  /**
   * Replacing the collector keeps it unique: if at most one container was
   * named "/hostname" before, then after the removal step and the creation
   * of a new one under that name, the new one is the only one, and it is
   * what the next lookup of the name finds.
   */
  lemma ReplacementKeepsOne(cs: seq<Container>, hostname: string, c: Container)
    requires AllWellFormed(cs) && WellFormed(c) && Named(c, hostname)
    requires CountNamed(cs, hostname) <= 1
    ensures AllWellFormed(Cleared(cs, hostname) + [c])
    ensures CountNamed(Cleared(cs, hostname) + [c], hostname) == 1
    ensures Lookup(Cleared(cs, hostname) + [c], hostname).1 == c.id
  {
    var cleared := Cleared(cs, hostname);
    ClearedHasNone(cs, hostname);
    ClearedMembers(cs, hostname);
    CountNamedZero(cleared, hostname);
    CountNamedAppend(cleared, [c], hostname);
    assert [c][1..] == [];
    var all := cleared + [c];
    assert forall k :: 0 <= k < |cleared| ==> all[k] in cleared;
    assert all[|cleared|] == c;
    LookupMeaning(all, hostname);
  }

  // ---------------------------------------------------------------------------
  // Port and volume parsing
  // ---------------------------------------------------------------------------

  /** The port loop: fills the exposed-port set and the binding map entry by entry. */
  method ParsePorts(ports: seq<string>) returns (exposedPorts: set<string>, portBinding: map<string, seq<PortBinding>>)
    requires WellFormedEntries(ports)
    ensures exposedPorts == ExposedPorts(ports)
    ensures portBinding == PortBindings(ports)
  {
    exposedPorts := {};
    portBinding := map[];
    for i := 0 to |ports|
      invariant WellFormedEntries(ports[..i])
      invariant exposedPorts == ExposedPorts(ports[..i])
      invariant portBinding == PortBindings(ports[..i])
    {
      var tmp := Split(ports[i], ':');
      portBinding := portBinding[tmp[0] := [PortBinding("", tmp[1])]];
      exposedPorts := exposedPorts + {tmp[0]};
      assert ports[..i + 1][..i] == ports[..i];
    }
    assert ports[..|ports|] == ports;
  }

  /** The volume loop: appends one bind mount per volume entry. */
  method ParseVolumes(volumes: seq<string>) returns (mounts: seq<Mount>)
    requires WellFormedEntries(volumes)
    ensures mounts == BindMounts(volumes)
  {
    mounts := [];
    for i := 0 to |volumes|
      invariant WellFormedEntries(volumes[..i])
      invariant mounts == BindMounts(volumes[..i])
    {
      var tmp := Split(volumes[i], ':');
      var m := Mount(TypeBind, tmp[0], tmp[1]);
      mounts := mounts + [m];
      assert volumes[..i + 1][..i] == volumes[..i];
    }
    assert volumes[..|volumes|] == volumes;
  }

  // ---------------------------------------------------------------------------
  // The log collector's request
  // ---------------------------------------------------------------------------

  /** The request `StartFluentBit` makes for the collector container. */
  function CollectorRequest(s: DockerSettings, containerName: string): CreateRequest {
    var volume := s.fluentdConfig + ":" + s.fluentdConfig;
    assert volume[|s.fluentdConfig|] == ':';
    CreateRequestFor(s, CollectorImage, "0:0", containerName, "always", s.fluentdIp,
                     [], [volume], [], ["-c", s.fluentdConfig])
  }

  /**
   * The collector runs as root with restart "always" at the collector's
   * address, exposes and binds no port, runs "-c <config>", keeps the
   * default log driver, and mounts its config file onto the same path
   * (when that path holds no ':').
   */
  lemma CollectorRequestWiring(s: DockerSettings, containerName: string)
    ensures var r := CollectorRequest(s, containerName);
      && r.config.image == CollectorImage && r.config.user == "0:0"
      && r.config.hostname == containerName
      && r.host.restartPolicy == "always"
      && r.endpoints == map[s.networkId := EndpointSettings([containerName], s.networkId, s.fluentdIp)]
      && r.config.exposedPorts == {} && r.host.portBindings == map[]
      && r.config.env == [] && r.config.cmd == ["-c", s.fluentdConfig]
      && r.host.logConfig == DefaultLogConfig
      && |r.host.mounts| == 1
      && (':' !in s.fluentdConfig ==> r.host.mounts == [Mount(TypeBind, s.fluentdConfig, s.fluentdConfig)])
  {
    var volume := s.fluentdConfig + ":" + s.fluentdConfig;
    assert volume[|s.fluentdConfig|] == ':';
    assert CollectorImage[7..7 + |CollectorImageMarker|] == CollectorImageMarker;
    CollectorLogsByDefault(s.fluentdEnabled, s.fluentdIp, CollectorImage, 7);
    MountsMeaning([volume]);
    if ':' !in s.fluentdConfig {
      PairRoundTrip(s.fluentdConfig, s.fluentdConfig);
    }
  }

  // ---------------------------------------------------------------------------
  // The facade
  // ---------------------------------------------------------------------------

  /** The `Docker` struct: a daemon connection and the configuration it was initialised with. */
  class Docker {
    var client: Daemon?
    var enabled: bool
    var fluentdEnabled: bool
    var fluentdHostname: string
    var fluentdConfig: string
    var fluentdIp: string
    var networkId: string
    var networkSubnet: string
    var networkGateway: string

    /** The zero value `Docker{}`: no connection, every field empty. */
    constructor ()
      ensures client == null
      ensures Settings() == DockerSettings(false, false, "", "", "", "", "", "")
    {
      client := null;
      enabled, fluentdEnabled := false, false;
      fluentdHostname, fluentdConfig, fluentdIp := "", "", "";
      networkId, networkSubnet, networkGateway := "", "", "";
    }

    /** The configuration fields, as one value. */
    function Settings(): DockerSettings
      reads this
    {
      DockerSettings(enabled, fluentdEnabled, fluentdHostname, fluentdConfig, fluentdIp,
                     networkId, networkSubnet, networkGateway)
    }

    function Enabled(): bool
      reads this
    {
      enabled
    }

    /**
     * Connects to the daemon and stores the configuration. A failed
     * connection clears the client and leaves the configuration alone.
     */
    method Init(fluentdEnable: bool, fluentdHostname: string, fluentdConfig: string, fluentdIp: string,
                networkId: string, networkSubnet: string, networkGateway: string, enabled: bool,
                connection: Connection)
      returns (err: Outcome)
      modifies this
      ensures connection.Refused? ==>
                err == Fail(connection.msg) && client == null && Settings() == old(Settings())
      ensures connection.Connected? ==>
                && err == Pass && client == connection.daemon
                && Settings() == DockerSettings(enabled, fluentdEnable, fluentdHostname, fluentdConfig,
                                                fluentdIp, networkId, networkSubnet, networkGateway)
                && Enabled() == enabled
    {
      if connection.Refused? {
        client := null;
        return Fail(connection.msg);
      }
      client := connection.daemon;
      this.fluentdEnabled := fluentdEnable;
      this.fluentdHostname := fluentdHostname;
      this.fluentdConfig := fluentdConfig;
      this.networkId := networkId;
      this.networkSubnet := networkSubnet;
      this.enabled := enabled;
      this.networkGateway := networkGateway;
      this.fluentdIp := fluentdIp;
      return Pass;
    }

    /**
     * Inspect-or-create: an existing network named `id` is reused as is;
     * otherwise a bridge network with `subnet` and the configured gateway is
     * created. On success the network is recorded under `id` with the
     * returned id, so a later call finds it.
     */
    method NetworkCreate(id: string, subnet: string, inspectReply: Outcome, createReply: Reply<NetworkResponse>)
      returns (netId: string, warning: string, err: Outcome)
      requires client != null
      modifies client
      ensures client.containers == old(client.containers)
      ensures inspectReply.Pass? && id in old(client.networks) ==>
                && netId == old(client.networks[id].id) && warning == "" && err == Pass
                && client.networks == old(client.networks)
      ensures !(inspectReply.Pass? && id in old(client.networks)) ==>
                && client.networks == (if createReply.Ok?
                                       then old(client.networks)[id := Network(createReply.value.id, BridgeRequest(subnet, networkGateway))]
                                       else old(client.networks))
                && (createReply.Ok? ==> netId == createReply.value.id && warning == createReply.value.warning && err == Pass)
                && (createReply.Err? ==> netId == "" && warning == "" && err == Fail(createReply.msg))
      ensures err.Pass? ==> id in client.networks && client.networks[id].id == netId
    {
      var options: map<string, string> := map[];
      var netData := client.NetworkInspect(id, inspectReply);
      if netData.Err? {
        var resp := client.NetworkCreate(id, NetworkRequest("bridge", [IpamConfig(subnet, networkGateway)], options), createReply);
        if resp.Err? {
          return "", "", Fail(resp.msg);
        }
        return resp.value.id, resp.value.warning, Pass;
      }
      return netData.value, "", Pass;
    }

    /**
     * Two calls in a row with the same id: once the first has succeeded,
     * the second (whose inspect goes through) returns the same id and
     * changes nothing.
     */
    method NetworkCreateTwice(id: string, subnet: string, inspect1: Outcome, create1: Reply<NetworkResponse>,
                              create2: Reply<NetworkResponse>)
      returns (first: string, second: string, err1: Outcome, err2: Outcome)
      requires client != null
      modifies client
      ensures err1.Pass? ==> err2 == Pass && second == first
      ensures err1.Pass? ==> id in client.networks && client.networks[id].id == first
      ensures err1.Pass? && inspect1.Pass? && id in old(client.networks) ==>
                client.networks == old(client.networks)
      ensures err1.Pass? && !(inspect1.Pass? && id in old(client.networks)) ==>
                && create1.Ok?
                && client.networks == old(client.networks)[id := Network(create1.value.id, BridgeRequest(subnet, networkGateway))]
      ensures client.containers == old(client.containers)
    {
      var w1, w2;
      first, w1, err1 := NetworkCreate(id, subnet, inspect1, create1);
      ghost var between := client.networks;
      second, w2, err2 := NetworkCreate(id, subnet, Pass, create2);
      assert err1.Pass? ==> client.networks == between;
    }

    /** `PullImage`: the pull is started and its result discarded; nothing observable changes. */
    method PullImage(imageName: string)
      requires client != null
    {
    }

    /**
     * Resolves a name: (true, id) for the first running container named
     * "/containerName", else (false, id) for the first such container in the
     * full list, else (false, "").
     */
    method ContainerRunning(containerName: string) returns (running: bool, id: string)
      requires client != null && client.Valid()
      ensures (running, id) == Lookup(client.containers, containerName)
    {
      var containerList := client.ContainerList(false);
      var i := 0;
      while i < |containerList| && containerList[i].names[0] != "/" + containerName
        invariant 0 <= i <= |containerList|
        invariant forall j :: 0 <= j < i ==> !Named(containerList[j], containerName)
      {
        i := i + 1;
      }
      assert i == FirstNamed(containerList, containerName);
      if i < |containerList| {
        return true, containerList[i].id;
      }

      containerList := client.ContainerList(true);
      i := 0;
      while i < |containerList| && containerList[i].names[0] != "/" + containerName
        invariant 0 <= i <= |containerList|
        invariant forall j :: 0 <= j < i ==> !Named(containerList[j], containerName)
      {
        i := i + 1;
      }
      assert i == FirstNamed(containerList, containerName);
      if i < |containerList| {
        return false, containerList[i].id;
      }
      return false, "";
    }

    /**
     * Builds the container settings from the string specs, then creates and
     * starts the container. A create failure adds nothing; a start failure
     * leaves the created, stopped container behind and still reports an
     * empty id.
     */
    method ContainerCreateAndStart(imageName: string, user: string, containerName: string, restart: string,
                                   ip: string, ports: seq<string>, volumes: seq<string>,
                                   environment: seq<string>, commands: seq<string>,
                                   createReply: Reply<CreateResponse>, startReply: Outcome)
      returns (id: string, warnings: seq<string>, err: Outcome)
      requires client != null && client.Valid()
      requires WellFormedEntries(ports) && WellFormedEntries(volumes)
      requires createReply.Ok? ==> createReply.value.id != "" && !HasId(client.containers, createReply.value.id)
      modifies client
      ensures client.Valid()
      ensures client.networks == old(client.networks)
      ensures createReply.Err? ==>
                && id == "" && warnings == [] && err == Fail(createReply.msg)
                && client.containers == old(client.containers)
      ensures createReply.Ok? ==>
                var request := CreateRequestFor(Settings(), imageName, user, containerName, restart, ip,
                                                ports, volumes, environment, commands);
                var created := Created(createReply.value.id, containerName, request);
                && client.containers == old(client.containers) + [created.(running := startReply.Pass?)]
                && (startReply.Fail? ==> id == "" && warnings == [] && err == startReply)
                && (startReply.Pass? ==> id == createReply.value.id && warnings == createReply.value.warnings && err == Pass)
      ensures err.Pass? && old(CountNamed(client.containers, containerName)) == 0 ==>
                Lookup(client.containers, containerName) == (true, id)
    {
      PullImage(imageName);

      var exposedPorts, portBinding := ParsePorts(ports);
      var mounts := ParseVolumes(volumes);

      var config := ContainerConfig(false, true, true, environment, WorkingDir, imageName, user,
                                    exposedPorts, false, commands, containerName);

      var logConfig := DefaultLogConfig;
      if fluentdEnabled && !Contains(imageName, CollectorImageMarker) {
        logConfig := FluentdLogConfig(fluentdIp);
      }

      var hostConfig := HostConfig(mounts, false, portBinding, restart, logConfig, networkId);
      var endPoint := EndpointSettings([containerName], networkId, ip);
      var endpointsConfig := map[networkId := endPoint];

      ghost var before := client.containers;
      var dockCont := client.ContainerCreate(CreateRequest(config, hostConfig, endpointsConfig), containerName, createReply);
      if dockCont.Err? {
        return "", [], Fail(dockCont.msg);
      }

      ghost var created := client.containers[|client.containers| - 1];
      var startErr := client.ContainerStart(dockCont.value.id, startReply);
      if startErr.Fail? {
        return "", [], startErr;
      }
      SetRunningAppended(before, created);
      if CountNamed(before, containerName) == 0 {
        LookupAfterStart(before, created.(running := true), containerName);
      }
      return dockCont.value.id, dockCont.value.warnings, Pass;
    }

    /**
     * Replaces the log collector: force-removes whatever the lookup finds
     * under the configured collector hostname, then creates and starts the
     * collector under `containerName`.
     */
    method StartFluentBit(containerName: string, createReply: Reply<CreateResponse>, startReply: Outcome)
      returns (err: Outcome)
      requires client != null && client.Valid()
      requires createReply.Ok? ==> createReply.value.id != "" && !HasId(client.containers, createReply.value.id)
      modifies client
      ensures client.Valid()
      ensures client.networks == old(client.networks)
      ensures var cleared := old(Cleared(client.containers, fluentdHostname));
              client.containers ==
                if createReply.Ok?
                then cleared + [Created(createReply.value.id, containerName, CollectorRequest(Settings(), containerName))
                                  .(running := startReply.Pass?)]
                else cleared
      ensures err == if createReply.Err? then Fail(createReply.msg) else startReply
      ensures containerName == fluentdHostname && old(CountNamed(client.containers, fluentdHostname)) <= 1 ==>
                CountNamed(client.containers, fluentdHostname) <= 1
      ensures containerName == fluentdHostname && createReply.Ok? && old(CountNamed(client.containers, fluentdHostname)) <= 1 ==>
                Lookup(client.containers, fluentdHostname).1 == createReply.value.id
    {
      PullImage(CollectorImage);

      ghost var before := client.containers;
      var isRunning, id := ContainerRunning(fluentdHostname);
      if id != "" {
        LookupMeaning(before, fluentdHostname);
        var removed := client.ContainerRemove(id, true);
      }
      assert client.containers == Cleared(before, fluentdHostname);
      assert forall c :: c in client.containers ==> c in before by {
        if id != "" {
          WithoutIdMembers(before, id);
        }
      }

      var cmd := ["-c", fluentdConfig];
      var volume := fluentdConfig + ":" + fluentdConfig;
      assert volume[|fluentdConfig|] == ':';

      var createdId, warnings;
      createdId, warnings, err := ContainerCreateAndStart(
        CollectorImage,
        "0:0",
        containerName,
        "always",
        fluentdIp,
        [],
        [volume],
        [],
        cmd,
        createReply,
        startReply);

      if containerName == fluentdHostname && CountNamed(before, fluentdHostname) <= 1 {
        if createReply.Ok? {
          ReplacementKeepsOne(before, fluentdHostname, client.containers[|client.containers| - 1]);
        } else {
          ClearedHasNone(before, fluentdHostname);
        }
      }
    }
  }
}

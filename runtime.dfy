/**
 * An in-memory stand-in for the Docker daemon the facade talks to: a map
 * from network name to network record and the ordered list of containers
 * the daemon reports. The daemon's own decisions that the facade cannot
 * see (a transport or lookup error, the id it assigns, a start failure) are
 * passed in as the `reply` parameters of its operations.
 */
module Runtime {
  import opened ContainerSettings

  /** A Go `error` result: nil or an error message. */
  datatype Outcome = Pass | Fail(msg: string)

  /** A daemon answer that carries a value on success. */
  datatype Reply<T> = Ok(value: T) | Err(msg: string)

  /** `network.IPAMConfig`. */
  datatype IpamConfig = IpamConfig(subnet: string, gateway: string)

  /** The parts of `types.NetworkCreate` the facade sets. */
  datatype NetworkRequest = NetworkRequest(driver: string, ipam: seq<IpamConfig>, options: map<string, string>)

  /** `types.NetworkCreateResponse`. */
  datatype NetworkResponse = NetworkResponse(id: string, warning: string)

  /** A network the daemon knows, with the id it assigned and how it was requested. */
  datatype Network = Network(id: string, request: NetworkRequest)

  /** `container.CreateResponse`. */
  datatype CreateResponse = CreateResponse(id: string, warnings: seq<string>)

  /** A container as the daemon lists it: id, names, whether it runs, and how it was created. */
  datatype Container = Container(id: string, names: seq<string>, running: bool, request: CreateRequest)

  /** The daemon always reports a non-empty id and at least one name. */
  predicate WellFormed(c: Container) {
    c.id != "" && |c.names| > 0
  }

  predicate AllWellFormed(cs: seq<Container>) {
    forall k :: 0 <= k < |cs| ==> WellFormed(cs[k])
  }

  /** The container's first name is the one the daemon gives a container created as `name`. */
  predicate Named(c: Container, name: string) {
    |c.names| > 0 && c.names[0] == "/" + name
  }

  /** Some listed container has this id. */
  predicate HasId(cs: seq<Container>, id: string) {
    exists c :: c in cs && c.id == id
  }

  /** The list `ContainerList` returns without `All`: the running containers, in order. */
  function RunningOnly(cs: seq<Container>): seq<Container> {
    if |cs| == 0 then []
    else (if cs[0].running then [cs[0]] else []) + RunningOnly(cs[1..])
  }

  /** The running list holds exactly the running containers. */
  lemma {:induction false} RunningOnlyMembers(cs: seq<Container>)
    ensures forall c :: c in RunningOnly(cs) <==> c in cs && c.running
    decreases |cs|
  {
    if |cs| > 0 {
      RunningOnlyMembers(cs[1..]);
      assert forall c :: c in cs <==> c == cs[0] || c in cs[1..];
    }
  }

  /** The containers left after removing the one with id `id`. */
  function WithoutId(cs: seq<Container>, id: string): seq<Container> {
    if |cs| == 0 then []
    else (if cs[0].id == id then [] else [cs[0]]) + WithoutId(cs[1..], id)
  }

  /** Removal by id keeps exactly the containers with another id. */
  lemma {:induction false} WithoutIdMembers(cs: seq<Container>, id: string)
    ensures forall c :: c in WithoutId(cs, id) <==> c in cs && c.id != id
    decreases |cs|
  {
    if |cs| > 0 {
      WithoutIdMembers(cs[1..], id);
      assert forall c :: c in cs <==> c == cs[0] || c in cs[1..];
    }
  }

  /** The containers after the one with id `id` has been started. */
  function SetRunning(cs: seq<Container>, id: string): (r: seq<Container>)
    ensures |r| == |cs|
  {
    seq(|cs|, k requires 0 <= k < |cs| => if cs[k].id == id then cs[k].(running := true) else cs[k])
  }

  /**
   * After a start by id, the list holds the containers with another id as
   * they were, and the containers with that id, now running.
   */
  lemma SetRunningMembers(cs: seq<Container>, id: string)
    ensures forall c :: c in SetRunning(cs, id) <==>
              (c in cs && c.id != id) || (exists d :: d in cs && d.id == id && c == d.(running := true))
    ensures HasId(cs, id) ==> exists c :: c in SetRunning(cs, id) && c.id == id && c.running
  {
    var r := SetRunning(cs, id);
    forall c | c in r
      ensures (c in cs && c.id != id) || (exists d :: d in cs && d.id == id && c == d.(running := true))
    {
      var k :| 0 <= k < |r| && r[k] == c;
      assert cs[k] in cs;
    }
    forall c | (c in cs && c.id != id) || (exists d :: d in cs && d.id == id && c == d.(running := true))
      ensures c in r
    {
      if c in cs && c.id != id {
        var k :| 0 <= k < |cs| && cs[k] == c;
        assert r[k] == c;
      } else {
        var d :| d in cs && d.id == id && c == d.(running := true);
        var k :| 0 <= k < |cs| && cs[k] == d;
        assert r[k] == c;
      }
    }
    if HasId(cs, id) {
      var d :| d in cs && d.id == id;
      assert d.(running := true) in r;
    }
  }

  /** How many listed containers carry `name` as their first name. */
  function CountNamed(cs: seq<Container>, name: string): nat {
    if |cs| == 0 then 0
    else (if Named(cs[0], name) then 1 else 0) + CountNamed(cs[1..], name)
  }

  /** The container a successful create adds, not yet running. */
  function Created(id: string, name: string, request: CreateRequest): Container {
    Container(id, ["/" + name], false, request)
  }

  /** Starting the container just appended touches no other container. */
  lemma SetRunningAppended(cs: seq<Container>, c: Container)
    requires !HasId(cs, c.id)
    ensures SetRunning(cs + [c], c.id) == cs + [c.(running := true)]
  {
    var r := SetRunning(cs + [c], c.id);
    forall k | 0 <= k < |cs| ensures r[k] == cs[k] {
      assert cs[k] in cs;
    }
  }

  /** The containers named `name` are counted by concatenation. */
  lemma {:induction false} CountNamedAppend(cs: seq<Container>, ds: seq<Container>, name: string)
    ensures CountNamed(cs + ds, name) == CountNamed(cs, name) + CountNamed(ds, name)
    decreases |cs|
  {
    if |cs| == 0 {
      assert cs + ds == ds;
    } else {
      assert (cs + ds)[0] == cs[0];
      assert (cs + ds)[1..] == cs[1..] + ds;
      CountNamedAppend(cs[1..], ds, name);
    }
  }

  /** No container carries `name` exactly when the count is zero. */
  lemma {:induction false} CountNamedZero(cs: seq<Container>, name: string)
    ensures CountNamed(cs, name) == 0 <==> forall c :: c in cs ==> !Named(c, name)
    decreases |cs|
  {
    if |cs| > 0 {
      CountNamedZero(cs[1..], name);
      assert forall c :: c in cs <==> c == cs[0] || c in cs[1..];
    }
  }

  /**
   * Removing a container named `name` lowers the count of that name, and
   * removing by id never raises it.
   */
  lemma {:induction false} CountNamedWithoutId(cs: seq<Container>, id: string, name: string)
    ensures CountNamed(WithoutId(cs, id), name) <= CountNamed(cs, name)
    ensures (exists c :: c in cs && c.id == id && Named(c, name)) ==>
              CountNamed(WithoutId(cs, id), name) < CountNamed(cs, name)
    decreases |cs|
  {
    if |cs| > 0 {
      CountNamedWithoutId(cs[1..], id, name);
      WithoutIdMembers(cs[1..], id);
      var head := if cs[0].id == id then [] else [cs[0]];
      CountNamedAppend(head, WithoutId(cs[1..], id), name);
      assert forall c :: c in cs <==> c == cs[0] || c in cs[1..];
    }
  }

  /** An in-memory Docker daemon. */
  class Daemon {
    var networks: map<string, Network>
    var containers: seq<Container>

    ghost predicate Valid()
      reads this
    {
      AllWellFormed(containers)
    }

    constructor ()
      ensures Valid() && networks == map[] && containers == []
    {
      networks := map[];
      containers := [];
    }

    /** `NetworkInspect`: the id of the network called `name`, or an error. */
    method NetworkInspect(name: string, reply: Outcome) returns (r: Reply<string>)
      ensures r.Ok? <==> reply.Pass? && name in networks
      ensures r.Ok? ==> r.value == networks[name].id
    {
      if reply.Fail? {
        r := Err(reply.msg);
      } else if name in networks {
        r := Ok(networks[name].id);
      } else {
        r := Err("network " + name + " not found");
      }
    }

    /** `NetworkCreate`: on success the daemon records the network under `name`. */
    method NetworkCreate(name: string, request: NetworkRequest, reply: Reply<NetworkResponse>)
      returns (r: Reply<NetworkResponse>)
      modifies this
      ensures r == reply
      ensures networks == if reply.Ok? then old(networks)[name := Network(reply.value.id, request)]
                          else old(networks)
      ensures containers == old(containers)
    {
      r := reply;
      if reply.Ok? {
        networks := networks[name := Network(reply.value.id, request)];
      }
    }

    /** `ContainerList`: every container when `all` holds, only the running ones otherwise. */
    method ContainerList(all: bool) returns (list: seq<Container>)
      requires Valid()
      ensures list == if all then containers else RunningOnly(containers)
      ensures AllWellFormed(list)
    {
      RunningOnlyMembers(containers);
      list := if all then containers else RunningOnly(containers);
    }

    /**
     * `ContainerCreate`: on success a new, stopped container named "/name"
     * joins the list under the fresh id the daemon assigned.
     */
    method ContainerCreate(request: CreateRequest, name: string, reply: Reply<CreateResponse>)
      returns (r: Reply<CreateResponse>)
      requires Valid()
      requires reply.Ok? ==> reply.value.id != "" && !HasId(containers, reply.value.id)
      modifies this
      ensures Valid()
      ensures r == reply
      ensures containers == if reply.Ok? then old(containers) + [Created(reply.value.id, name, request)]
                            else old(containers)
      ensures networks == old(networks)
    {
      r := reply;
      if reply.Ok? {
        containers := containers + [Created(reply.value.id, name, request)];
      }
    }

    /** `ContainerStart`: fails on a daemon error or an unknown id, otherwise marks it running. */
    method ContainerStart(id: string, reply: Outcome) returns (err: Outcome)
      requires Valid()
      modifies this
      ensures Valid()
      ensures err.Pass? <==> reply.Pass? && HasId(old(containers), id)
      ensures reply.Fail? ==> err == reply
      ensures containers == if err.Pass? then SetRunning(old(containers), id) else old(containers)
      ensures networks == old(networks)
    {
      if reply.Fail? {
        err := reply;
      } else if HasId(containers, id) {
        containers := SetRunning(containers, id);
        err := Pass;
        assert forall k :: 0 <= k < |containers| ==> containers[k] == old(containers)[k] || containers[k] == old(containers)[k].(running := true);
        assert forall c :: c in containers ==> WellFormed(c) by {
          forall c | c in containers ensures WellFormed(c) {
            var k :| 0 <= k < |containers| && containers[k] == c;
            assert old(containers)[k] in old(containers);
          }
        }
      } else {
        err := Fail("No such container: " + id);
      }
    }

    /**
     * `ContainerRemove`: removes the container with this id; without `force`
     * a running container is refused.
     */
    method ContainerRemove(id: string, force: bool) returns (err: Outcome)
      requires Valid()
      modifies this
      ensures Valid()
      ensures err.Pass? <==> exists c :: c in old(containers) && c.id == id && (force || !c.running)
      ensures containers == if err.Pass? then WithoutId(old(containers), id) else old(containers)
      ensures networks == old(networks)
    {
      if exists c :: c in containers && c.id == id && (force || !c.running) {
        WithoutIdMembers(containers, id);
        containers := WithoutId(containers, id);
        err := Pass;
      } else {
        err := Fail("cannot remove container " + id);
      }
    }
  }
}

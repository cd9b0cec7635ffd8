/** Sequences of driver calls, as docker-machine makes them one at a time on
    one driver, and what holds across any such sequence: which operations may
    change which fields, the configuration invariant, when a call would
    dereference a missing client, and the end-to-end scenario of creating a
    machine, asking for its URL and removing it. */
module Sessions {
  import opened Wrappers
  import opened Hcloud
  import Config
  import Lifecycle
  import StatusMapper

  /** One call on the driver, together with the provider's answers to it. */
  datatype Op =
    | Configure(flags: map<string, string>)
    | CreateMachine(p: Provider)
    | QueryState(p: Provider)
    | Power(kind: ActionKind, p: Provider)
    | RemoveMachine(p: Provider)
    | QueryURL(p: Provider)
    | QuerySSHHostname

  /** The calls that go through the client. */
  predicate NeedsClient(op: Op)
  {
    !op.Configure? && !op.QuerySSHHostname?
  }

  /** The fields after `op`, or `None` when `op` dereferences a client that
      was never constructed (a nil dereference in Go). Only
      configuration and creation write fields. */
  function Step(d: DriverState, op: Op): Option<DriverState>
  {
    if NeedsClient(op) && d.client.None? then None
    else
      match op
      case Configure(flags) => Some(Config.SetConfigFromFlags(d, flags).value)
      case CreateMachine(p) => Some(Lifecycle.Create(d, p).value)
      case _ => Some(d)
  }

  /** The fields after the calls `ops`, or `None` if one of them panics. */
  function Run(d: DriverState, ops: seq<Op>): Option<DriverState>
    decreases |ops|
  {
    if |ops| == 0 then Some(d)
    else
      match Step(d, ops[0])
      case None => None
      case Some(d') => Run(d', ops[1..])
  }

  /** Once a client exists, the image and server type it was configured with
      are set. */
  predicate WellConfigured(d: DriverState)
  {
    d.client.Some? ==> d.image != "" && d.serverType != ""
  }

  /** One call keeps the configuration invariant, keeps an existing client,
      and never changes the machine name or store path. */
  lemma StepKeepsWellConfigured(d: DriverState, op: Op)
    requires Step(d, op).Some?
    ensures WellConfigured(d) ==> WellConfigured(Step(d, op).value)
    ensures d.client.Some? ==> Step(d, op).value.client.Some?
    ensures Step(d, op).value.machineName == d.machineName
    ensures Step(d, op).value.storePath == d.storePath
  {
  }

  /** A driver that has a client never again reaches a missing client,
      whatever is called on it and whatever the provider answers. (Nil
      answers of the provider, which the oracle cannot give, are not covered.) */
  lemma {:induction false} ConfiguredRunsNeverPanic(d: DriverState, ops: seq<Op>)
    requires d.client.Some?
    ensures Run(d, ops).Some?
    ensures Run(d, ops).value.client.Some?
    decreases |ops|
  {
    if |ops| > 0 {
      StepKeepsWellConfigured(d, ops[0]);
      ConfiguredRunsNeverPanic(Step(d, ops[0]).value, ops[1..]);
    }
  }

  /** The configuration invariant and the machine's name and store path hold
      across any sequence of calls. */
  lemma {:induction false} RunKeepsWellConfigured(d: DriverState, ops: seq<Op>)
    requires WellConfigured(d)
    ensures Run(d, ops).Some? ==> WellConfigured(Run(d, ops).value)
    ensures Run(d, ops).Some? ==>
      Run(d, ops).value.machineName == d.machineName && Run(d, ops).value.storePath == d.storePath
    decreases |ops|
  {
    if |ops| > 0 && Step(d, ops[0]).Some? {
      StepKeepsWellConfigured(d, ops[0]);
      RunKeepsWellConfigured(Step(d, ops[0]).value, ops[1..]);
    }
  }

  /** Only `Create` binds the server id and the address: a sequence without
      it leaves both as they were. */
  lemma {:induction false} OnlyCreateBindsIdentity(d: DriverState, ops: seq<Op>)
    requires forall i | 0 <= i < |ops| :: !ops[i].CreateMachine?
    ensures Run(d, ops).Some? ==>
      Run(d, ops).value.serverId == d.serverId && Run(d, ops).value.ipAddress == d.ipAddress
    decreases |ops|
  {
    if |ops| > 0 && Step(d, ops[0]).Some? {
      if ops[0].Configure? {
        var r := Config.SetConfigFromFlags(d, ops[0].flags);
        assert r.value.serverId == d.serverId && r.value.ipAddress == d.ipAddress;
      }
      OnlyCreateBindsIdentity(Step(d, ops[0]).value, ops[1..]);
    }
  }

  /** Only `SetConfigFromFlags` binds the provisioning parameters and the
      client: a sequence without it leaves them as they were. */
  lemma {:induction false} OnlyConfigureBindsParameters(d: DriverState, ops: seq<Op>)
    requires forall i | 0 <= i < |ops| :: !ops[i].Configure?
    ensures Run(d, ops).Some? ==>
      var e := Run(d, ops).value;
      e.image == d.image && e.serverType == d.serverType && e.datacenter == d.datacenter &&
      e.location == d.location && e.client == d.client
    decreases |ops|
  {
    if |ops| > 0 && Step(d, ops[0]).Some? {
      if ops[0].CreateMachine? {
        var r := Lifecycle.Create(d, ops[0].p);
        assert r.value == d.(serverId := r.value.serverId, ipAddress := r.value.ipAddress);
      }
      OnlyConfigureBindsParameters(Step(d, ops[0]).value, ops[1..]);
    }
  }

  /** Before any `Create`, a new driver has no URL: whatever was configured
      and whatever the provider reports, `GetURL` fails. */
  lemma NoURLBeforeCreate(hostName: string, storePath: string, ops: seq<Op>, p: Provider)
    requires forall i | 0 <= i < |ops| :: !ops[i].CreateMachine?
    requires Run(Config.NewDriver(hostName, storePath), ops).Some?
    ensures Lifecycle.GetURL(Run(Config.NewDriver(hostName, storePath), ops).value, p).err != None
  {
    OnlyCreateBindsIdentity(Config.NewDriver(hostName, storePath), ops);
  }

  /** `Create` does not look at what the wait reported: two providers that
      differ only in the outcome of action watches give the same result. */
  lemma CreateIgnoresWaitOutcome(d: DriverState, p: Provider, watch: Action -> Option<DriverError>)
    ensures Lifecycle.Create(d, p.(watch := watch)) == Lifecycle.Create(d, p)
  {
  }

  /** After a successful `Create`, a provider reporting the new server as
      running gives the URL of the address the creation returned. */
  lemma URLAfterCreate(d: DriverState, p: Provider, q: Provider)
    requires Lifecycle.CreateLookupsSucceed(d, p)
    requires var created := Lifecycle.Create(d, p).value;
      q.serverById(created.serverId).Success? &&
      q.serverById(created.serverId).value.status == StatusRunning
    requires var ip := Lifecycle.Create(d, p).value.ipAddress; ip != "" && ':' !in ip
    ensures Lifecycle.GetURL(Lifecycle.Create(d, p).value, q) ==
      Reply("tcp://" + Lifecycle.Create(d, p).value.ipAddress + ":2376", None,
            [GetServerById(Lifecycle.Create(d, p).value.serverId)])
  {
    var created := Lifecycle.Create(d, p).value;
    assert StatusMapper.MapStatus(StatusRunning) == Running;
    assert Lifecycle.GetState(created, q).value == Running;
    assert Lifecycle.JoinHostPort(created.ipAddress, Lifecycle.DockerPort) == created.ipAddress + ":2376";
    assert "tcp://" + (created.ipAddress + ":2376") == "tcp://" + created.ipAddress + ":2376";
  }

  /** A provider that knows one server, id 42 at 203.0.113.9, running, and
      answers every other request with success. */
  function ExampleProvider(): Provider
  {
    Provider(
      k => Success(ServerType(k)),
      k => Success(Image(k)),
      k => Success(Some(Datacenter(k))),
      k => Success(Some(Location(k))),
      opts => CreateResponse(Server(42, StatusRunning, "203.0.113.9"), Action(1, "create_server")),
      id => if id == 42 then Success(Server(42, StatusRunning, "203.0.113.9"))
            else Failure(ApiError(ErrorCodeNotFound, "server not found")),
      (kind, server) => Success(Action(2, "power")),
      server => None,
      a => None)
  }

  /** The same provider once the server is gone. */
  function GoneProvider(): Provider
  {
    ExampleProvider().(serverById := id => Failure(ApiError(ErrorCodeNotFound, "server not found")))
  }

  /** The options of the example session. */
  function ExampleFlags(): map<string, string>
  {
    map[Config.TokenFlag := "T", Config.ImageFlag := "ubuntu-18.04", Config.TypeFlag := "cx11"]
  }

  /** The example driver once configured, and once created. */
  function ExampleConfigured(): DriverState
  {
    DriverState("m", "/store", "", 0, "ubuntu-18.04", "", "", "cx11", Some(Client("T", Config.ApplicationName)))
  }

  function ExampleCreated(): DriverState
  {
    ExampleConfigured().(serverId := 42, ipAddress := "203.0.113.9")
  }

  lemma ExampleConfigure()
    ensures Config.SetConfigFromFlags(Config.NewDriver("m", "/store"), ExampleFlags()) ==
      Reply(ExampleConfigured(), None, [])
  {
    var flags := ExampleFlags();
    assert Config.FlagString(flags, Config.TokenFlag) == "T";
    assert Config.FlagString(flags, Config.ImageFlag) == "ubuntu-18.04";
    assert Config.FlagString(flags, Config.TypeFlag) == "cx11";
    assert Config.FlagString(flags, Config.DatacenterFlag) == "";
    assert Config.FlagString(flags, Config.LocationFlag) == "";
  }

  lemma ExampleCreate()
    ensures Lifecycle.Create(ExampleConfigured(), ExampleProvider()).err == None
    ensures Lifecycle.Create(ExampleConfigured(), ExampleProvider()).value == ExampleCreated()
  {
    var p := ExampleProvider();
    var c := ExampleConfigured();
    assert Lifecycle.CreateLookupsSucceed(c, p);
    var opts := Lifecycle.ResolveCreateOpts(c, p).opts.value;
    assert p.createServer(opts) == CreateResponse(Server(42, StatusRunning, "203.0.113.9"), Action(1, "create_server"));
  }

  lemma ExampleQueries()
    ensures Lifecycle.GetState(ExampleCreated(), ExampleProvider()).value == Running
    ensures Lifecycle.GetURL(ExampleCreated(), ExampleProvider()).value == "tcp://203.0.113.9:2376"
    ensures Lifecycle.GetSSHHostname(ExampleCreated()) == Success("203.0.113.9")
    ensures Lifecycle.Remove(ExampleCreated(), GoneProvider()).err == None
  {
    var p := ExampleProvider();
    var d := ExampleCreated();
    assert p.serverById(42) == Success(Server(42, StatusRunning, "203.0.113.9"));
    assert StatusMapper.MapStatus(StatusRunning) == Running;
    assert ':' !in "203.0.113.9";
    assert Lifecycle.JoinHostPort("203.0.113.9", Lifecycle.DockerPort) == "203.0.113.9:2376";
    assert GoneProvider().serverById(42).Failure?;
  }

  /** Configure with token T, image ubuntu-18.04 and type cx11; create; the
      state is Running and the URL points at the new address; removing a
      server the provider no longer knows succeeds. */
  lemma ExampleSession()
    ensures var configured := Config.SetConfigFromFlags(Config.NewDriver("m", "/store"), ExampleFlags());
      var created := Lifecycle.Create(configured.value, ExampleProvider());
      configured.err == None && created.err == None &&
      created.value.serverId == 42 && created.value.ipAddress == "203.0.113.9" &&
      Lifecycle.GetState(created.value, ExampleProvider()).value == Running &&
      Lifecycle.GetURL(created.value, ExampleProvider()).value == "tcp://203.0.113.9:2376" &&
      Lifecycle.GetSSHHostname(created.value) == Success("203.0.113.9") &&
      Lifecycle.Remove(created.value, GoneProvider()).err == None
  {
    ExampleConfigure();
    ExampleCreate();
    ExampleQueries();
  }
}

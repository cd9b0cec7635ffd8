/** The `Driver` struct of drivers/hcloud/hcloud.go as an object whose fields
    the operations read and update. Each method follows the Go method step by
    step and is proved to agree with its specification in `Config` or
    `Lifecycle`. The provider is the `Provider` oracle passed in; every method
    that reaches it requires the client, since the Go code dereferences it. */
module Machine {
  import opened Wrappers
  import opened Hcloud
  import Config
  import Lifecycle
  import StatusMapper

  class Driver {
    var machineName: string
    var storePath: string
    var ipAddress: string
    var serverId: int
    var image: string
    var location: string
    var datacenter: string
    var serverType: string
    var client: Option<Client>

    /** The driver's fields as a value. */
    function Fields(): DriverState
      reads this
    {
      DriverState(machineName, storePath, ipAddress, serverId, image, location, datacenter, serverType, client)
    }

    /** `NewDriver`. */
    constructor (hostName: string, storePath: string)
      ensures Fields() == Config.NewDriver(hostName, storePath)
    {
      machineName := hostName;
      this.storePath := storePath;
      ipAddress := "";
      serverId := 0;
      image := "";
      location := "";
      datacenter := "";
      serverType := "";
      client := None;
    }

    /** `SetConfigFromFlags`: writes the options one by one, returning at the
        first required one that is empty. */
    method SetConfigFromFlags(flags: map<string, string>) returns (err: Option<DriverError>)
      modifies this
      ensures Fields() == Config.SetConfigFromFlags(old(Fields()), flags).value
      ensures err == Config.SetConfigFromFlags(old(Fields()), flags).err
    {
      var token := Config.FlagString(flags, Config.TokenFlag);
      if token == "" {
        return Some(ConfigError(Config.TokenRequired));
      }
      var image := Config.FlagString(flags, Config.ImageFlag);
      if image == "" {
        return Some(ConfigError(Config.ImageRequired));
      }
      this.image := image;
      var serverType := Config.FlagString(flags, Config.TypeFlag);
      if serverType == "" {
        return Some(ConfigError(Config.TypeRequired));
      }
      this.serverType := serverType;
      datacenter := Config.FlagString(flags, Config.DatacenterFlag);
      location := Config.FlagString(flags, Config.LocationFlag);
      client := Some(Client(token, Config.ApplicationName));
      return None;
    }

    /** `Create`: only the server id and the address may change. */
    method Create(p: Provider) returns (err: Option<DriverError>, calls: seq<Call>)
      requires client.Some?
      modifies this`serverId, this`ipAddress
      ensures Reply(Fields(), err, calls) == Lifecycle.Create(old(Fields()), p)
    {
      calls := [GetServerType(serverType)];
      var st := p.serverType(serverType);
      if st.Failure? {
        return Some(st.error), calls;
      }
      calls := calls + [GetImage(image)];
      var img := p.image(image);
      if img.Failure? {
        return Some(img.error), calls;
      }
      var dc: Option<Datacenter> := None;
      if datacenter != "" {
        calls := calls + [GetDatacenter(image)];
        var found := p.datacenter(image);
        if found.Failure? {
          return Some(found.error), calls;
        }
        dc := found.value;
      }
      var loc: Option<Location> := None;
      if location != "" {
        calls := calls + [GetLocation(image)];
        var found := p.location(image);
        if found.Failure? {
          return Some(found.error), calls;
        }
        loc := found.value;
      }
      var opts := CreateOpts(machineName, st.value, img.value, dc, loc);
      calls := calls + [CreateServer(opts)];
      var resp := p.createServer(opts);
      var _, waitCalls := WaitOnAction(p, resp.action);
      calls := calls + waitCalls;
      serverId := resp.server.id;
      ipAddress := resp.server.ipv4;
      return None, calls;
    }

    /** `GetState`. */
    method GetState(p: Provider) returns (s: State, err: Option<DriverError>, calls: seq<Call>)
      requires client.Some?
      ensures Reply(s, err, calls) == Lifecycle.GetState(Fields(), p)
    {
      calls := [GetServerById(serverId)];
      var lookup := p.serverById(serverId);
      if lookup.Failure? {
        return Error, Some(lookup.error), calls;
      }
      s := StatusMapper.MapStatus(lookup.value.status);
      return s, None, calls;
    }

    /** `Start`: a power-on. */
    method Start(p: Provider) returns (err: Option<DriverError>, calls: seq<Call>)
      requires client.Some?
      ensures Outcome(err, calls) == Lifecycle.PowerAction(Poweron, Fields(), p)
    {
      err, calls := RunAction(Poweron, p);
    }

    /** `Stop`: a graceful shutdown. */
    method Stop(p: Provider) returns (err: Option<DriverError>, calls: seq<Call>)
      requires client.Some?
      ensures Outcome(err, calls) == Lifecycle.PowerAction(Shutdown, Fields(), p)
    {
      err, calls := RunAction(Shutdown, p);
    }

    /** `Restart`: a reboot. */
    method Restart(p: Provider) returns (err: Option<DriverError>, calls: seq<Call>)
      requires client.Some?
      ensures Outcome(err, calls) == Lifecycle.PowerAction(Reboot, Fields(), p)
    {
      err, calls := RunAction(Reboot, p);
    }

    /** `Kill`: a forced power-off. */
    method Kill(p: Provider) returns (err: Option<DriverError>, calls: seq<Call>)
      requires client.Some?
      ensures Outcome(err, calls) == Lifecycle.PowerAction(Poweroff, Fields(), p)
    {
      err, calls := RunAction(Poweroff, p);
    }

    /** The body `Start`, `Stop`, `Restart` and `Kill` share: look the server
        up, submit the action, wait on it. */
    method RunAction(kind: ActionKind, p: Provider) returns (err: Option<DriverError>, calls: seq<Call>)
      requires client.Some?
      ensures Outcome(err, calls) == Lifecycle.PowerAction(kind, Fields(), p)
    {
      calls := [GetServerById(serverId)];
      var lookup := p.serverById(serverId);
      if lookup.Failure? {
        return Some(lookup.error), calls;
      }
      calls := calls + [Submit(kind, lookup.value)];
      var action := p.submit(kind, lookup.value);
      if action.Failure? {
        return Some(action.error), calls;
      }
      var waitCalls;
      err, waitCalls := WaitOnAction(p, action.value);
      calls := calls + waitCalls;
    }

    /** `Remove`. */
    method Remove(p: Provider) returns (err: Option<DriverError>, calls: seq<Call>)
      requires client.Some?
      ensures Outcome(err, calls) == Lifecycle.Remove(Fields(), p)
    {
      calls := [GetServerById(serverId)];
      var lookup := p.serverById(serverId);
      if lookup.Failure? {
        if IsNotFound(lookup.error) {
          return None, calls;
        }
        return Some(lookup.error), calls;
      }
      calls := calls + [DeleteServer(lookup.value)];
      err := p.delete(lookup.value);
    }

    /** `waitOnAction`: the terminal signal of the action's progress watch. */
    method WaitOnAction(p: Provider, a: Action) returns (err: Option<DriverError>, calls: seq<Call>)
      requires client.Some?
      ensures Outcome(err, calls) == Lifecycle.WaitOnAction(p, a)
    {
      calls := [WatchProgress(a)];
      err := p.watch(a);
      if err != None {
        return err, calls;
      }
      return None, calls;
    }

    /** `GetURL`: the must-be-running guard, the address, then the URL. */
    method GetURL(p: Provider) returns (url: string, err: Option<DriverError>, calls: seq<Call>)
      requires client.Some?
      ensures Reply(url, err, calls) == Lifecycle.GetURL(Fields(), p)
    {
      var s;
      s, err, calls := GetState(p);
      if err != None {
        return "", err, calls;
      }
      if s != Running {
        return "", Some(HostNotRunning), calls;
      }
      var ip := GetSSHHostname();
      if ip.Failure? {
        return "", Some(ip.error), calls;
      }
      return "tcp://" + Lifecycle.JoinHostPort(ip.value, Lifecycle.DockerPort), None, calls;
    }

    /** `GetSSHHostname`: docker-machine's `GetIP`. */
    method GetSSHHostname() returns (r: Result<string, DriverError>)
      ensures r == Lifecycle.GetSSHHostname(Fields())
    {
      if ipAddress == "" {
        return Failure(IPNotSet);
      }
      return Success(ipAddress);
    }
  }
}

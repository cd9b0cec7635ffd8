/** The lifecycle operations of drivers/hcloud/hcloud.go as functions of the
    driver's fields and of the provider's answers. Each returns what the Go
    method returns together with the requests it issued, in order. */
module Lifecycle {
  import opened Wrappers
  import opened Hcloud
  import opened StatusMapper

  /** The port of the Docker daemon in the machine URL. */
  const DockerPort := "2376"

  /** `waitOnAction`: watches the action's progress and returns its terminal
      signal unchanged. */
  function WaitOnAction(p: Provider, a: Action): (r: Outcome)
    ensures r.calls == [WatchProgress(a)]
    ensures r.err == None <==> p.watch(a) == None
    ensures r.err != None ==> r.err == p.watch(a)
  {
    Outcome(p.watch(a), [WatchProgress(a)])
  }

  /** `GetState`: looks the server up by its id and maps its status. */
  function GetState(d: DriverState, p: Provider): (r: Reply<State>)
    ensures r.calls == [GetServerById(d.serverId)]
    // a failed lookup is reported as the Error state with that same error
    ensures p.serverById(d.serverId).Failure? ==>
      r.value == Error && r.err == Some(p.serverById(d.serverId).error)
    // a successful lookup is never an error, and its status decides the state
    ensures p.serverById(d.serverId).Success? ==>
      r.err == None && r.value == MapStatus(p.serverById(d.serverId).value.status)
    ensures r.value == Error <==> r.err != None
  {
    var lookup := p.serverById(d.serverId);
    if lookup.Failure? then
      Reply(Error, Some(lookup.error), [GetServerById(d.serverId)])
    else
      Reply(MapStatus(lookup.value.status), None, [GetServerById(d.serverId)])
  }

  /** `Start`, `Stop`, `Restart` and `Kill` (power-on, shutdown, reboot and
      power-off): look the server up, submit the action on it, wait for it. */
  function PowerAction(kind: ActionKind, d: DriverState, p: Provider): (r: Outcome)
    // the server is looked up first, by the driver's server id
    ensures 1 <= |r.calls| <= 3 && r.calls[0] == GetServerById(d.serverId)
    // then the action is submitted on the server that lookup returned
    ensures |r.calls| >= 2 ==>
      p.serverById(d.serverId).Success? && r.calls[1] == Submit(kind, p.serverById(d.serverId).value)
    // then the submitted action is the one waited on
    ensures |r.calls| == 3 ==>
      r.calls[1].Submit? && p.submit(kind, r.calls[1].server).Success? &&
      r.calls[2] == WatchProgress(p.submit(kind, r.calls[1].server).value)
    // it goes on only after a call that succeeded, stops only at one that failed,
    // and returns the error of its last call verbatim
    ensures ShortCircuits(p, r.calls)
    ensures |r.calls| < 3 ==> r.err != None
    ensures r.err == CallFailure(p, r.calls[|r.calls| - 1])
    // one action at most, of the requested kind, submitted once the lookup succeeded
    ensures |r.calls| >= 2 <==> p.serverById(d.serverId).Success?
    ensures forall i | 0 <= i < |r.calls| :: r.calls[i].Submit? <==> i == 1
    ensures forall i | 0 <= i < |r.calls| :: r.calls[i].Submit? ==> r.calls[i].kind == kind
    // the wait happens last, and only after a successful submission
    ensures forall i | 0 <= i < |r.calls| :: r.calls[i].WatchProgress? <==> i == 2
  {
    var lookup := p.serverById(d.serverId);
    if lookup.Failure? then
      Outcome(Some(lookup.error), [GetServerById(d.serverId)])
    else
      var submitted := p.submit(kind, lookup.value);
      var calls := [GetServerById(d.serverId), Submit(kind, lookup.value)];
      if submitted.Failure? then
        Outcome(Some(submitted.error), calls)
      else
        var wait := WaitOnAction(p, submitted.value);
        Outcome(wait.err, calls + wait.calls)
  }

  /** `Remove`: looks the server up and deletes it; a server the provider does
      not know is already removed. */
  function Remove(d: DriverState, p: Provider): (r: Outcome)
    ensures 1 <= |r.calls| <= 2 && r.calls[0] == GetServerById(d.serverId)
    // the delete is issued exactly when the lookup succeeded, on the server it returned
    ensures |r.calls| == 2 <==> p.serverById(d.serverId).Success?
    ensures |r.calls| == 2 ==>
      r.calls[1] == DeleteServer(p.serverById(d.serverId).value) &&
      r.err == p.delete(p.serverById(d.serverId).value)
    // not found is success; any other lookup error is returned as it is
    ensures p.serverById(d.serverId).Failure? ==>
      r.err == if IsNotFound(p.serverById(d.serverId).error) then None
               else Some(p.serverById(d.serverId).error)
    ensures r.err == None <==>
      (p.serverById(d.serverId).Failure? && IsNotFound(p.serverById(d.serverId).error)) ||
      (p.serverById(d.serverId).Success? && p.delete(p.serverById(d.serverId).value) == None)
    // deletion is not waited on and submits no action
    ensures forall i | 0 <= i < |r.calls| :: !r.calls[i].Submit? && !r.calls[i].WatchProgress?
  {
    var lookup := p.serverById(d.serverId);
    if lookup.Failure? then
      if IsNotFound(lookup.error) then Outcome(None, [GetServerById(d.serverId)])
      else Outcome(Some(lookup.error), [GetServerById(d.serverId)])
    else
      Outcome(p.delete(lookup.value), [GetServerById(d.serverId), DeleteServer(lookup.value)])
  }

  /** Every lookup `Create` performs succeeds; the datacenter and location are
      looked up only when configured, and both under the image name. */
  predicate CreateLookupsSucceed(d: DriverState, p: Provider)
  {
    p.serverType(d.serverType).Success? && p.image(d.image).Success? &&
    (d.datacenter != "" ==> p.datacenter(d.image).Success?) &&
    (d.location != "" ==> p.location(d.image).Success?)
  }

  /** The options `Create` assembles, or the lookup error that stops it, with
      the lookups issued on the way. */
  datatype Lookups = Lookups(opts: Result<CreateOpts, DriverError>, calls: seq<Call>)

  /** The lookups `Create` plans, in order: the server type, the image, then
      the datacenter and the location when each is configured. */
  function PlannedLookups(d: DriverState): seq<Call>
  {
    [GetServerType(d.serverType), GetImage(d.image)] +
    (if d.datacenter != "" then [GetDatacenter(d.image)] else []) +
    (if d.location != "" then [GetLocation(d.image)] else [])
  }

  /** The first half of `Create`: resolves the server type, the image and,
      when configured, the datacenter and the location into creation options. */
  function ResolveCreateOpts(d: DriverState, p: Provider): (r: Lookups)
    ensures 1 <= |r.calls| <= 4 && r.calls[0] == GetServerType(d.serverType)
    // the lookups made are the planned ones in their order, each at most once,
    // stopping at the first failure; a successful call makes all of them
    ensures r.calls <= PlannedLookups(d)
    ensures r.opts.Success? ==> r.calls == PlannedLookups(d)
    ensures |r.calls| >= 2 ==> r.calls[1] == GetImage(d.image)
    // the datacenter and the location are looked up only when configured and
    // after the server type and image were found, both keyed by the image name
    ensures GetDatacenter(d.image) in r.calls <==>
      d.datacenter != "" && p.serverType(d.serverType).Success? && p.image(d.image).Success?
    ensures forall i | 0 <= i < |r.calls| ::
      (r.calls[i].GetDatacenter? ==> r.calls[i].key == d.image && d.datacenter != "") &&
      (r.calls[i].GetLocation? ==> r.calls[i].key == d.image && d.location != "")
    // only lookups are issued, each after one that succeeded
    ensures forall i | 0 <= i < |r.calls| ::
      r.calls[i].GetServerType? || r.calls[i].GetImage? || r.calls[i].GetDatacenter? || r.calls[i].GetLocation?
    ensures ShortCircuits(p, r.calls)
    // options exist exactly when every lookup succeeds; else the failing lookup is the last
    ensures r.opts.Success? <==> CreateLookupsSucceed(d, p)
    ensures r.opts.Failure? ==> Some(r.opts.error) == CallFailure(p, r.calls[|r.calls| - 1])
    // the options carry the machine name and what each lookup returned; a
    // datacenter or location the provider does not know is silently left out
    ensures r.opts.Success? ==>
      r.opts.value.name == d.machineName &&
      r.opts.value.serverType == p.serverType(d.serverType).value &&
      r.opts.value.image == p.image(d.image).value &&
      r.opts.value.datacenter == (if d.datacenter != "" then p.datacenter(d.image).value else None) &&
      r.opts.value.location == (if d.location != "" then p.location(d.image).value else None)
  {
    var st := p.serverType(d.serverType);
    if st.Failure? then
      Lookups(Failure(st.error), [GetServerType(d.serverType)])
    else
      var img := p.image(d.image);
      var calls1 := [GetServerType(d.serverType), GetImage(d.image)];
      if img.Failure? then
        Lookups(Failure(img.error), calls1)
      else
        var dc := p.datacenter(d.image);
        if d.datacenter != "" && dc.Failure? then
          Lookups(Failure(dc.error), calls1 + [GetDatacenter(d.image)])
        else
          var calls2 := calls1 + (if d.datacenter != "" then [GetDatacenter(d.image)] else []);
          var loc := p.location(d.image);
          if d.location != "" && loc.Failure? then
            Lookups(Failure(loc.error), calls2 + [GetLocation(d.image)])
          else
            var calls3 := calls2 + (if d.location != "" then [GetLocation(d.image)] else []);
            Lookups(Success(CreateOpts(d.machineName, st.value, img.value,
                                       if d.datacenter != "" then dc.value else None,
                                       if d.location != "" then loc.value else None)),
                    calls3)
  }

  /** `Create`: resolves the creation options, creates the server, waits on
      its action, and binds the server id and address whatever the wait
      reported. */
  function Create(d: DriverState, p: Provider): (r: Reply<DriverState>)
    // it succeeds exactly when every lookup succeeds, whatever the wait reports
    ensures r.err == None <==> CreateLookupsSucceed(d, p)
    // a failed lookup is returned as it is, before any server is created, and
    // leaves the driver as it was
    ensures r.err != None ==>
      r.value == d && r.calls == ResolveCreateOpts(d, p).calls &&
      r.err == CallFailure(p, r.calls[|r.calls| - 1])
    // otherwise the server is created from the resolved options, its action is
    // waited on, and its id and address are bound
    ensures r.err == None ==>
      var opts := ResolveCreateOpts(d, p).opts.value;
      var resp := p.createServer(opts);
      r.calls == ResolveCreateOpts(d, p).calls + [CreateServer(opts), WatchProgress(resp.action)] &&
      r.value == d.(serverId := resp.server.id, ipAddress := resp.server.ipv4)
  {
    var lookups := ResolveCreateOpts(d, p);
    match lookups.opts
    case Failure(e) => Reply(d, Some(e), lookups.calls)
    case Success(opts) =>
      var resp := p.createServer(opts);
      var _ := WaitOnAction(p, resp.action);
      Reply(d.(serverId := resp.server.id, ipAddress := resp.server.ipv4),
            None, lookups.calls + [CreateServer(opts), WatchProgress(resp.action)])
  }

  /** A configured datacenter or location is looked up under the image name;
      when the provider knows no datacenter or location of that name, the
      server is still created, without one. */
  lemma UnknownPlacementIsDropped(d: DriverState, p: Provider)
    requires p.serverType(d.serverType).Success? && p.image(d.image).Success?
    requires d.datacenter != "" && d.location != ""
    requires p.datacenter(d.image) == Success(None) && p.location(d.image) == Success(None)
    ensures Create(d, p).err == None
    ensures ResolveCreateOpts(d, p).opts.Success?
    ensures ResolveCreateOpts(d, p).opts.value.datacenter == None
    ensures ResolveCreateOpts(d, p).opts.value.location == None
    ensures CreateServer(ResolveCreateOpts(d, p).opts.value) in Create(d, p).calls
  {
  }

  /** docker-machine's `GetIP`: the stored address, an error while none is stored. */
  function GetIP(d: DriverState): (r: Result<string, DriverError>)
    ensures r.Failure? <==> d.ipAddress == ""
    ensures r.Failure? ==> r.error == IPNotSet
    ensures r.Success? ==> r.value == d.ipAddress
  {
    if d.ipAddress == "" then Failure(IPNotSet) else Success(d.ipAddress)
  }

  /** `GetSSHHostname`: the machine's address, through `GetIP`. */
  function GetSSHHostname(d: DriverState): (r: Result<string, DriverError>)
    ensures r.Success? <==> d.ipAddress != ""
    ensures r.Success? ==> r.value == d.ipAddress
    ensures r.Failure? ==> r.error == IPNotSet
  {
    GetIP(d)
  }

  /** Go's `net.JoinHostPort`: `host:port`, with the host in brackets when it
      contains a colon (an IPv6 address). */
  function JoinHostPort(host: string, port: string): string
  {
    if ':' in host then "[" + host + "]:" + port else host + ":" + port
  }

  /** `GetURL`: docker-machine's must-be-running guard (the state query must
      succeed and report Running), then the address, then the URL. */
  function GetURL(d: DriverState, p: Provider): (r: Reply<string>)
    // the state query is the only provider call
    ensures r.calls == [GetServerById(d.serverId)]
    // a URL exists exactly when the machine runs and has an address
    ensures r.err == None <==> GetState(d, p).value == Running && d.ipAddress != ""
    ensures r.err == None ==> r.value == "tcp://" + JoinHostPort(d.ipAddress, DockerPort)
    ensures r.err != None ==> r.value == ""
    // the errors, in the order they are checked
    ensures GetState(d, p).err != None ==> r.err == GetState(d, p).err
    ensures GetState(d, p).err == None && GetState(d, p).value != Running ==> r.err == Some(HostNotRunning)
    ensures GetState(d, p).value == Running && d.ipAddress == "" ==> r.err == Some(IPNotSet)
  {
    var st := GetState(d, p);
    if st.err != None then Reply("", st.err, st.calls)
    else if st.value != Running then Reply("", Some(HostNotRunning), st.calls)
    else
      match GetIP(d)
      case Failure(e) => Reply("", Some(e), st.calls)
      case Success(ip) => Reply("tcp://" + JoinHostPort(ip, DockerPort), None, st.calls)
  }
}

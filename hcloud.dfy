/** The vocabulary shared by the whole model: docker-machine's machine states,
    the errors the driver can return, the Hetzner Cloud resources it handles,
    the provider seen as an oracle, the record of calls an operation issues to
    it, and the driver's own fields as a value. */
module Hcloud {
  import opened Wrappers

  /** docker-machine's `state.State` enumeration, in declaration order (`NoState` is its `None`). */
  datatype State = NoState | Running | Paused | Saved | Stopped | Stopping | Starting | Error | Timeout

  /** Server status strings reported by the Hetzner Cloud API. The status is a
      plain string in the client library, so any other string can arrive too. */
  const StatusRunning := "running"
  const StatusOff := "off"
  const StatusStopping := "stopping"
  const StatusStarting := "starting"
  const StatusInitializing := "initializing"

  /** The API error code the client library uses for a missing resource. */
  const ErrorCodeNotFound := "not_found"

  /** Errors the driver returns. */
  datatype DriverError =
    | ConfigError(message: string)             // a required option is missing
    | ApiError(code: string, message: string)  // an error reported by the Hetzner Cloud API
    | Transport(message: string)               // any other failure of a provider call
    | HostNotRunning                           // docker-machine's "host is not running" guard
    | IPNotSet                                 // docker-machine's "IP address is not set"

  /** The client library's `IsError(err, ErrorCodeNotFound)`: an API error
      carrying the not-found code. */
  predicate IsNotFound(e: DriverError)
  {
    e.ApiError? && e.code == ErrorCodeNotFound
  }

  /** Provider resources, reduced to what the driver looks at. */
  datatype Server = Server(id: int, status: string, ipv4: string)
  datatype Action = Action(id: int, command: string)
  datatype ServerType = ServerType(name: string)
  datatype Image = Image(name: string)
  datatype Datacenter = Datacenter(name: string)
  datatype Location = Location(name: string)

  /** The options of a server creation request. */
  datatype CreateOpts = CreateOpts(
    name: string,
    serverType: ServerType,
    image: Image,
    datacenter: Option<Datacenter>,
    location: Option<Location>)

  /** What a server creation returns: the new server and the action that boots it. */
  datatype CreateResponse = CreateResponse(server: Server, action: Action)

  /** The four power actions the driver submits. */
  datatype ActionKind = Poweron | Shutdown | Reboot | Poweroff

  /** The authenticated API client, with the token and application name it tags
      its requests with. */
  datatype Client = Client(token: string, application: string)

  /** The Hetzner Cloud API as an oracle: each field gives the answer the
      provider would return to one kind of request. A datacenter or location
      lookup may also find nothing without an error (`Success(None)`), which is
      how the client library answers a name it does not know. */
  datatype Provider = Provider(
    serverType: string -> Result<ServerType, DriverError>,
    image: string -> Result<Image, DriverError>,
    datacenter: string -> Result<Option<Datacenter>, DriverError>,
    location: string -> Result<Option<Location>, DriverError>,
    createServer: CreateOpts -> CreateResponse,
    serverById: int -> Result<Server, DriverError>,
    submit: (ActionKind, Server) -> Result<Action, DriverError>,
    delete: Server -> Option<DriverError>,
    watch: Action -> Option<DriverError>)

  /** One request issued to the provider. */
  datatype Call =
    | GetServerType(key: string)
    | GetImage(key: string)
    | GetDatacenter(key: string)
    | GetLocation(key: string)
    | CreateServer(opts: CreateOpts)
    | GetServerById(id: int)
    | Submit(kind: ActionKind, server: Server)
    | DeleteServer(server: Server)
    | WatchProgress(action: Action)

  /** The error the provider answers `c` with, if any. A server creation never
      contributes one: the driver ignores the error of that call. */
  function CallFailure(p: Provider, c: Call): Option<DriverError>
  {
    match c
    case GetServerType(k) => if p.serverType(k).Failure? then Some(p.serverType(k).error) else None
    case GetImage(k) => if p.image(k).Failure? then Some(p.image(k).error) else None
    case GetDatacenter(k) => if p.datacenter(k).Failure? then Some(p.datacenter(k).error) else None
    case GetLocation(k) => if p.location(k).Failure? then Some(p.location(k).error) else None
    case CreateServer(_) => None
    case GetServerById(id) => if p.serverById(id).Failure? then Some(p.serverById(id).error) else None
    case Submit(kind, s) => if p.submit(kind, s).Failure? then Some(p.submit(kind, s).error) else None
    case DeleteServer(s) => p.delete(s)
    case WatchProgress(a) => p.watch(a)
  }

  /** Every call of `calls` but the last one succeeded: the protocol only goes
      on after a call that did not fail. */
  predicate ShortCircuits(p: Provider, calls: seq<Call>)
  {
    forall i | 0 <= i < |calls| - 1 :: CallFailure(p, calls[i]) == None
  }

  /** The driver's fields: docker-machine's base driver part (machine name,
      store path, IP address) and the Hetzner Cloud part. */
  datatype DriverState = DriverState(
    machineName: string,
    storePath: string,
    ipAddress: string,
    serverId: int,
    image: string,
    location: string,
    datacenter: string,
    serverType: string,
    client: Option<Client>)

  /** What an operation returns: its value, its error (`None` for Go's nil) and
      the requests it issued to the provider, in order. */
  datatype Reply<+T> = Reply(value: T, err: Option<DriverError>, calls: seq<Call>)

  /** What an operation that returns only an error returns. */
  datatype Outcome = Outcome(err: Option<DriverError>, calls: seq<Call>)
}

/** Creating a driver and binding its configuration options (`NewDriver` and
    `SetConfigFromFlags` in drivers/hcloud/hcloud.go). */
module Config {
  import opened Wrappers
  import opened Hcloud

  /** The option names the driver reads. */
  const TokenFlag := "hcloud-token"
  const ImageFlag := "hcloud-image"
  const TypeFlag := "hcloud-type"
  const DatacenterFlag := "hcloud-datacenter"
  const LocationFlag := "hcloud-location"

  /** The application name the client tags its requests with. */
  const ApplicationName := "docker-machine"

  /** The messages of the three configuration errors. */
  const TokenRequired := "--hcloud-token option is required"
  const ImageRequired := "--hcloud-image option is required"
  const TypeRequired := "--hcloud-type option is required"

  /** docker-machine's `DriverOptions.String`. `flags` holds the option values
      after docker-machine applied the defaults declared in `GetCreateFlags`
      (an image and a server type), so the image and type checks fail only on
      a value that is explicitly empty; an option absent from `flags` reads as
      the empty string. */
  function FlagString(flags: map<string, string>, name: string): string
  {
    if name in flags then flags[name] else ""
  }

  /** A new driver: only the machine name and store path are set, every other
      field holds Go's zero value, and no client exists yet. */
  function NewDriver(hostName: string, storePath: string): (r: DriverState)
    ensures r.machineName == hostName && r.storePath == storePath
    ensures r.client == None && r.serverId == 0 && r.ipAddress == ""
    ensures r.image == "" && r.serverType == "" && r.datacenter == "" && r.location == ""
  {
    DriverState(hostName, storePath, "", 0, "", "", "", "", None)
  }

  /** `SetConfigFromFlags`: checks the token, the image and the server type in
      that order, returning at the first one that is empty; the image is bound
      before the server type is checked. It never calls the provider. */
  function SetConfigFromFlags(d: DriverState, flags: map<string, string>): (r: Reply<DriverState>)
    ensures r.calls == []
    // success exactly when the three required options are non-empty
    ensures r.err == None <==>
      FlagString(flags, TokenFlag) != "" && FlagString(flags, ImageFlag) != "" && FlagString(flags, TypeFlag) != ""
    // an empty token is reported first, before any field is written
    ensures FlagString(flags, TokenFlag) == "" ==>
      r.err == Some(ConfigError(TokenRequired)) && r.value == d
    // an empty image is reported next, with the image still unchanged
    ensures FlagString(flags, TokenFlag) != "" && FlagString(flags, ImageFlag) == "" ==>
      r.err == Some(ConfigError(ImageRequired)) && r.value == d
    // an empty server type is reported last, after the image was written
    ensures FlagString(flags, TokenFlag) != "" && FlagString(flags, ImageFlag) != "" && FlagString(flags, TypeFlag) == "" ==>
      r.err == Some(ConfigError(TypeRequired)) && r.value == d.(image := FlagString(flags, ImageFlag))
    // on success every option is bound and a client carrying the token exists
    ensures r.err == None ==>
      r.value == d.(image := FlagString(flags, ImageFlag),
                    serverType := FlagString(flags, TypeFlag),
                    datacenter := FlagString(flags, DatacenterFlag),
                    location := FlagString(flags, LocationFlag),
                    client := Some(Client(FlagString(flags, TokenFlag), ApplicationName)))
    // only a successful call constructs a client
    ensures r.err != None ==> r.value.client == d.client
    // the machine identity, the remote identity and the address are never touched
    ensures r.value.machineName == d.machineName && r.value.storePath == d.storePath
    ensures r.value.serverId == d.serverId && r.value.ipAddress == d.ipAddress
  {
    var token := FlagString(flags, TokenFlag);
    if token == "" then
      Reply(d, Some(ConfigError(TokenRequired)), [])
    else
      var image := FlagString(flags, ImageFlag);
      if image == "" then
        Reply(d, Some(ConfigError(ImageRequired)), [])
      else
        var d1 := d.(image := image);
        var serverType := FlagString(flags, TypeFlag);
        if serverType == "" then
          Reply(d1, Some(ConfigError(TypeRequired)), [])
        else
          var d2 := d1.(serverType := serverType,
                        datacenter := FlagString(flags, DatacenterFlag),
                        location := FlagString(flags, LocationFlag),
                        client := Some(Client(token, ApplicationName)));
          Reply(d2, None, [])
  }
}

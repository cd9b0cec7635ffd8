/** The status table of `GetState` in drivers/hcloud/hcloud.go: a provider
    server status to a docker-machine state. */
module StatusMapper {
  import opened Hcloud

  /** The `switch` on the server status. The `starting` case has an empty
      body, and a Go `case` does not fall through, so that status leaves the
      switch and reaches the final `return state.Running` like any status the
      switch does not list. */
  function MapStatus(status: string): (r: State)
    // each listed status has its own state, and no other status reaches it
    ensures r == Stopped <==> status == StatusOff
    ensures r == Stopping <==> status == StatusStopping
    ensures r == Starting <==> status == StatusInitializing
    // everything else, `starting` included, is reported as running
    ensures r == Running <==> status !in {StatusOff, StatusStopping, StatusInitializing}
    ensures status == StatusStarting ==> r == Running
  {
    if status == StatusRunning then Running
    else if status == StatusOff then Stopped
    else if status == StatusStopping then Stopping
    else if status == StatusStarting then Running
    else if status == StatusInitializing then Starting
    else Running
  }
}

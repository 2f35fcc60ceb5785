/** example.go: a CPU device plugin on the restart-flag wrapper of
    frame/plugin.go. `getCpuDevices` enumerates the CPUs from /proc/cpuinfo
    exactly as `getDevices` of simple-dp.go does, and `main` builds the
    wrapper for resource "cpu" on socket "cpu-dp.sock" and runs it. */
module Example {
  import opened Wrappers
  import opened PluginApi
  import opened Watch
  import opened Producer
  import opened SimpleDp
  import opened PluginModel
  import opened PluginFrame

  const ResourceName := "cpu"
  const SocketName := "cpu-dp.sock"

  /** getCpuDevices (example.go:20-43), given the outcome of reading
      /proc/cpuinfo (`None` when the read fails). */
  method GetCpuDevices(cpuinfo: Option<string>) returns (devices: seq<Device>)
    ensures devices == CpuInfoDevices(cpuinfo)
  {
    devices := [];
    if cpuinfo.None? {
      return;
    }
    var strCpuinfo := cpuinfo.value;
    var phyIdCounts := GoLib.Count(strCpuinfo, "physical id");
    var processorCounts := GoLib.Count(strCpuinfo, "processor");
    if phyIdCounts != processorCounts || phyIdCounts == 0 {
      return;
    }
    var i := 0;
    while i < phyIdCounts
      invariant 0 <= i <= phyIdCounts
      invariant devices == NumberedDevices(i)
    {
      devices := devices + [Device(GoLib.Itoa(i), Healthy)];
      i := i + 1;
    }
  }

  /** The two enumerations return the same list on every cpuinfo text. */
  method EnumerationsAgree(cpuinfo: Option<string>) returns (cpu: seq<Device>, simple: seq<Device>)
    ensures cpu == simple
  {
    cpu := GetCpuDevices(cpuinfo);
    simple := GetDevices(cpuinfo);
  }

  /** How `main` ends: a panic, the wrapper's run (WatcherSetupFailed being
      os.Exit(1)), or returning without running anything. */
  datatype MainResult = NilDereference | Ran(outcome: Outcome) | NoDevices

  /** `main` as written (example.go:13-18): when Build returns nil, the
      method is still called on the nil wrapper; it creates the watcher
      (or exits) and then reads `dpw.DevicePlugin` at plugin.go:51. */
  function MainOutcomeAsWritten(devices: seq<Device>, watcherOk: bool, events: seq<Event>, serveOk: nat -> bool): (r: MainResult)
    ensures r == NilDereference <==> devices == [] && watcherOk
    ensures r != NoDevices
  {
    if devices == [] then
      if watcherOk then NilDereference else Ran(WatcherSetupFailed)
    else Ran(PluginModel.RunDevicePlugin(SocketName, 0, watcherOk, events, serveOk).outcome)
  }

  /** On a machine whose /proc/cpuinfo cannot be read, `main` as written
      panics as soon as the watcher is up. */
  lemma UnreadableCpuInfoPanics(events: seq<Event>, serveOk: nat -> bool)
    ensures MainOutcomeAsWritten(CpuInfoDevices(None), true, events, serveOk) == NilDereference
  {
    CpuInfoDevicesFacts(None);
  }

  /** The same on a machine whose /proc/cpuinfo has no "physical id" entry
      (as many virtual machines' do). */
  lemma NoPhysicalIdPanics(text: string, events: seq<Event>, serveOk: nat -> bool)
    requires !GoLib.Contains(text, "physical id")
    ensures MainOutcomeAsWritten(CpuInfoDevices(Some(text)), true, events, serveOk) == NilDereference
  {
    NoPhysicalIdNoDevices(text);
  }

  /** `main` as intended: without devices there is nothing to run. */
  function MainOutcomeWithNilCheck(devices: seq<Device>, watcherOk: bool, events: seq<Event>, serveOk: nat -> bool): (r: MainResult)
    ensures r != NilDereference
    ensures r == NoDevices <==> devices == []
    ensures devices != [] ==> r == MainOutcomeAsWritten(devices, watcherOk, events, serveOk)
  {
    if devices == [] then NoDevices
    else Ran(PluginModel.RunDevicePlugin(SocketName, 0, watcherOk, events, serveOk).outcome)
  }

  /** `main` as written, on the device function `getCpuDevices`, whose
      k-th call reads /proc/cpuinfo with outcome `cpuinfo(k)`. */
  method MainAsWritten(getCpuDevices: DeviceProducer, cpuinfo: nat -> Option<string>,
                       watcherOk: bool, events: seq<Event>, serveOk: nat -> bool)
    returns (outcome: MainResult)
    requires forall k :: getCpuDevices.outputs(k) == CpuInfoDevices(cpuinfo(k))
    modifies getCpuDevices
    ensures outcome == MainOutcomeAsWritten(CpuInfoDevices(cpuinfo(old(getCpuDevices.calls))), watcherOk, events, serveOk)
  {
    var cpuDPWrapper := PluginFrame.Build(ResourceName, SocketName, getCpuDevices);
    if cpuDPWrapper == null {
      if !watcherOk {
        return Ran(WatcherSetupFailed);
      }
      return NilDereference;
    }
    var run, _, _ := cpuDPWrapper.RunDevicePlugin(watcherOk, events, serveOk);
    outcome := Ran(run);
  }

  /** `main` with the nil check Build's result calls for. */
  method MainWithNilCheck(getCpuDevices: DeviceProducer, cpuinfo: nat -> Option<string>,
                          watcherOk: bool, events: seq<Event>, serveOk: nat -> bool)
    returns (outcome: MainResult)
    requires forall k :: getCpuDevices.outputs(k) == CpuInfoDevices(cpuinfo(k))
    modifies getCpuDevices
    ensures outcome == MainOutcomeWithNilCheck(CpuInfoDevices(cpuinfo(old(getCpuDevices.calls))), watcherOk, events, serveOk)
  {
    var cpuDPWrapper := PluginFrame.Build(ResourceName, SocketName, getCpuDevices);
    if cpuDPWrapper == null {
      return NoDevices;
    }
    var run, _, _ := cpuDPWrapper.RunDevicePlugin(watcherOk, events, serveOk);
    outcome := Ran(run);
  }
}

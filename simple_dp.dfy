/** The device enumeration of the vpc-port plugin: `getDevices` reads
    /proc/cpuinfo, counts the "physical id" and "processor" entries, and, when
    the two counts agree and are not zero, advertises that many devices named
    "0", "1", ... , all healthy. */
module SimpleDp {
  import opened Wrappers
  import opened PluginApi
  import opened GoLib

  /** The devices numbered 0 .. n-1, each named by its decimal number. */
  function NumberedDevices(n: nat): seq<Device> {
    seq(n, i requires 0 <= i < n => Device(Itoa(i), Healthy))
  }

  /** The list `getDevices` returns, given the outcome of reading
      /proc/cpuinfo (`None` when the read fails). */
  function CpuInfoDevices(cpuinfo: Option<string>): (r: seq<Device>)
    ensures r != [] ==>
      cpuinfo.Some? && |r| == Count(cpuinfo.value, "physical id") == Count(cpuinfo.value, "processor")
  {
    match cpuinfo
    case None => []
    case Some(text) =>
      var physicalIds := Count(text, "physical id");
      var processors := Count(text, "processor");
      if physicalIds != processors || physicalIds == 0 then [] else NumberedDevices(physicalIds)
  }

  /** What the enumeration promises: nothing on a read failure; devices
      exactly when both counts agree and are non-zero; then one device per
      "physical id", named by its index, healthy, with distinct names in
      ascending numeric order. */
  lemma CpuInfoDevicesFacts(cpuinfo: Option<string>)
    ensures cpuinfo.None? ==> CpuInfoDevices(cpuinfo) == []
    ensures cpuinfo.Some? ==>
      var text := cpuinfo.value;
      (CpuInfoDevices(cpuinfo) != [] <==>
         Count(text, "physical id") == Count(text, "processor") && Count(text, "physical id") > 0)
    ensures cpuinfo.Some? && CpuInfoDevices(cpuinfo) != [] ==>
      |CpuInfoDevices(cpuinfo)| == Count(cpuinfo.value, "physical id")
    ensures forall i :: 0 <= i < |CpuInfoDevices(cpuinfo)| ==>
      CpuInfoDevices(cpuinfo)[i] == Device(Itoa(i), Healthy) && Atoi(CpuInfoDevices(cpuinfo)[i].id) == i
    ensures forall i, j :: 0 <= i < j < |CpuInfoDevices(cpuinfo)| ==>
      CpuInfoDevices(cpuinfo)[i].id != CpuInfoDevices(cpuinfo)[j].id
  {
    var r := CpuInfoDevices(cpuinfo);
    forall i | 0 <= i < |r| ensures Atoi(r[i].id) == i {
      AtoiItoa(i);
    }
    forall i, j | 0 <= i < j < |r| ensures r[i].id != r[j].id {
      ItoaInjective(i, j);
    }
  }

  /** A cpuinfo text without any "physical id" entry (as on many virtual
      machines) yields no devices. */
  lemma NoPhysicalIdNoDevices(text: string)
    requires !Contains(text, "physical id")
    ensures CpuInfoDevices(Some(text)) == []
  {
    CountZeroIff(text, "physical id");
  }

  /** `getDevices`: the two counts, then a loop appending device i. */
  method GetDevices(cpuinfo: Option<string>) returns (devices: seq<Device>)
    ensures devices == CpuInfoDevices(cpuinfo)
  {
    devices := [];
    if cpuinfo.None? {
      return;
    }
    var text := cpuinfo.value;
    var physicalIds := Count(text, "physical id");
    var processors := Count(text, "processor");
    if physicalIds != processors || physicalIds == 0 {
      return;
    }
    for i := 0 to physicalIds
      invariant devices == NumberedDevices(i)
    {
      devices := devices + [Device(Itoa(i), Healthy)];
    }
  }
}

/** A `GetDeviceFunc` callback. Its answer may change from one call to the
    next (the hardware inventory is re-read each time), so it is modelled as
    the sequence of its answers, `outputs(k)` being the answer to the k-th call,
    together with the number of calls made so far. */
module Producer {
  import opened PluginApi

  class DeviceProducer {
    const outputs: nat -> seq<Device>
    var calls: nat

    constructor (outputs: nat -> seq<Device>)
      ensures this.outputs == outputs && calls == 0
    {
      this.outputs := outputs;
      calls := 0;
    }

    /** Invoke the callback once. */
    method Call() returns (devices: seq<Device>)
      modifies this
      ensures devices == outputs(old(calls))
      ensures calls == old(calls) + 1
    {
      devices := outputs(calls);
      calls := calls + 1;
    }
  }
}

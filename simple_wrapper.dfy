/** frame/simple-wrapper.go: SimpleDevicePlugin, a state holder whose device
    list is replaced wholesale on Refresh and whose stop channel ends the
    ListAndWatch stream when Destroy closes it. */
module SimpleWrapper {
  import opened Wrappers
  import opened PluginApi
  import opened Producer
  import WrapperModel

  /** A Go channel that is only ever closed (`chan interface{}` used as a
      signal). */
  class Channel {
    var closed: bool

    constructor ()
      ensures !closed
    {
      closed := false;
    }

    /** `close(ch)`; closing a closed channel panics, so it is not allowed. */
    method Close()
      requires !closed
      modifies this
      ensures closed
    {
      closed := true;
    }
  }

  /** The server end of one ListAndWatch stream: the messages sent on it. */
  class ListAndWatchServer {
    var sent: seq<ListAndWatchResponse>

    constructor ()
      ensures sent == []
    {
      sent := [];
    }

    method Send(r: ListAndWatchResponse)
      modifies this
      ensures sent == old(sent) + [r]
    {
      sent := sent + [r];
    }
  }

  /** Where a ListAndWatch call stands: it has returned nil, or it is blocked
      waiting for the stop channel it saw to be closed. */
  datatype StreamState = ReturnedNil | WaitingForStop

  /** The response Allocate gives to every request. */
  const EmptyAllocateResponse := AllocateResponse(map[], [], [], map[])

  class SimpleDevicePlugin {
    var devs: seq<Device>
    var stop: Channel
    const getDevFunc: DeviceProducer

    /** The plugin's state as WrapperModel sees it. */
    function Abs(): WrapperModel.Plugin
      reads this, stop, getDevFunc
    {
      WrapperModel.Plugin(devs, stop.closed, getDevFunc.calls)
    }

    /** The struct literal of BuildSimpleDevicePlugin: the callback's
        current answer, an open channel, and the callback itself. */
    constructor (getDevFunc: DeviceProducer)
      modifies getDevFunc
      ensures this.getDevFunc == getDevFunc && fresh(stop)
      ensures devs == getDevFunc.outputs(old(getDevFunc.calls)) && !stop.closed
      ensures getDevFunc.calls == old(getDevFunc.calls) + 1
    {
      var d := getDevFunc.Call();
      devs := d;
      stop := new Channel();
      this.getDevFunc := getDevFunc;
    }

    /** Refresh: the device list becomes exactly the callback's current
        answer and a new, open stop channel is installed. */
    method Refresh()
      modifies this, getDevFunc
      ensures fresh(stop)
      ensures Abs() == WrapperModel.Refresh(old(Abs()), getDevFunc.outputs)
    {
      devs := getDevFunc.Call();
      stop := new Channel();
    }

    /** Destroy closes the stop channel; the channel must still be open. */
    method Destroy()
      requires !stop.closed
      modifies stop
      ensures Abs() == WrapperModel.Destroy(old(Abs()))
    {
      stop.Close();
    }

    /** ListAndWatch sends the current device list once, then returns nil as
        soon as the stop channel is closed, and sends nothing more. The Go
        code waits in a `for`/`select` over that single channel; in this
        sequential model the wait either ends at once (the channel is already
        closed) or is still pending. */
    method ListAndWatch(s: ListAndWatchServer) returns (state: StreamState)
      modifies s
      ensures s.sent == old(s.sent) + [ListAndWatchResponse(devs)]
      ensures state == if stop.closed then ReturnedNil else WaitingForStop
    {
      s.Send(ListAndWatchResponse(devs));
      state := if stop.closed then ReturnedNil else WaitingForStop;
    }

    /** Allocate answers every request with an empty response and no error. */
    method Allocate(r: AllocateRequest) returns (response: AllocateResponse, err: Option<string>)
      ensures response.envs == map[] && response.mounts == [] && response.devices == []
      ensures response.annotations == map[]
      ensures err == None
    {
      response := EmptyAllocateResponse;
      err := None;
    }
  }
}

/** BuildSimpleDevicePlugin (frame/simple-wrapper.go) wraps a new
    SimpleDevicePlugin with Build; it sits in its own module because it needs
    both the plugin and the wrapper. */
module SimpleWrapperBuild {
  import opened PluginApi
  import opened Producer
  import opened SimpleWrapper
  import opened WrapperFrame
  import WrapperModel

  method BuildSimpleDevicePlugin(resourceName: string, socketName: string, getDevFunc: DeviceProducer,
                                 socketFile: SocketFile) returns (w: DevicePluginWrapper)
    modifies getDevFunc
    ensures fresh(w) && fresh(w.impl) && fresh(w.impl.stop)
    ensures w.resourceName == resourceName && w.socketName == DevicePluginPath + socketName
    ensures w.impl.getDevFunc == getDevFunc && w.socketFile == socketFile && !w.server
    ensures w.impl.devs == getDevFunc.outputs(old(getDevFunc.calls)) && !w.impl.stop.closed
    ensures getDevFunc.calls == old(getDevFunc.calls) + 1
    ensures WrapperModel.Inv(w.Abs())
  {
    var plugin := new SimpleDevicePlugin(getDevFunc);
    w := new DevicePluginWrapper.Build(resourceName, socketName, plugin, socketFile);
  }
}

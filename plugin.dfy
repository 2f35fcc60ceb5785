/** frame/plugin.go: the second wrapper variant, which holds one
    DevicePlugin at a time and replaces it on every restart. Build and
    RunDevicePlugin are proved to follow PluginModel. */
module PluginFrame {
  import opened Wrappers
  import opened PluginApi
  import opened Watch
  import opened Producer
  import opened PluginModel

  /** The device plugin the loop drives. Its implementation is not part of
      this model: what the loop sees is its socket, whether it was stopped,
      and whether its last Serve succeeded (an outcome given by the caller).
      `id` numbers the plugins in the order they are constructed. */
  class DevicePlugin {
    const socket: string
    ghost const id: nat
    var stopped: bool
    var serving: bool

    /** NewDevicePlugin: fresh, not serving, on the socket for `socketName`. */
    constructor (socketName: string, ghost id: nat)
      ensures socket == PluginSocket(socketName) && this.id == id && !stopped && !serving
    {
      socket := PluginSocket(socketName);
      this.id := id;
      stopped := false;
      serving := false;
    }

    method Serve(serveOk: bool) returns (success: bool)
      modifies this
      ensures success == serveOk && serving == serveOk && stopped == old(stopped)
    {
      serving := serveOk;
      success := serveOk;
    }

    method Stop()
      modifies this
      ensures stopped && !serving
    {
      stopped := true;
      serving := false;
    }
  }

  class DevicePluginWrapper {
    var devicePlugin: DevicePlugin
    const resourceName: string
    const socketName: string
    const getDeviceFunc: DeviceProducer

    constructor (devicePlugin: DevicePlugin, resourceName: string, socketName: string, getDeviceFunc: DeviceProducer)
      ensures this.devicePlugin == devicePlugin && this.resourceName == resourceName
      ensures this.socketName == socketName && this.getDeviceFunc == getDeviceFunc
    {
      this.devicePlugin := devicePlugin;
      this.resourceName := resourceName;
      this.socketName := socketName;
      this.getDeviceFunc := getDeviceFunc;
    }

    /** The current plugin is the one built for this wrapper's socket name. */
    predicate Valid()
      reads this, devicePlugin
    {
      devicePlugin.socket == PluginSocket(socketName)
    }

    /** `halted` lists plugins `first`, `first + 1`, ... in order, each of
        them stopped. */
    static ghost predicate StoppedInOrder(halted: seq<DevicePlugin>, first: nat)
      reads set k | 0 <= k < |halted| :: halted[k]
    {
      forall k :: 0 <= k < |halted| ==> halted[k].id == first + k && halted[k].stopped
    }

    /** The top of an iteration (plugin.go:50-61): with a restart pending,
        stop the current plugin, construct the next one and serve it.
        `halted` lists the plugin this call stopped, if any. */
    method AttemptRestart(restart: bool, serveOk: bool)
      returns (restartAfter: bool, ghost attemptTrace: seq<Action>, ghost halted: seq<DevicePlugin>)
      requires Valid() && !devicePlugin.stopped
      modifies this, devicePlugin
      ensures var a := Attempt(Loop(old(devicePlugin.id), restart), serveOk);
        Loop(devicePlugin.id, restartAfter) == a.loop && attemptTrace == a.trace
      ensures Valid() && !devicePlugin.stopped
      ensures restart ==> fresh(devicePlugin) && (devicePlugin.serving <==> !restartAfter)
      ensures restart ==> old(devicePlugin).stopped && !old(devicePlugin).serving
      ensures !restart ==> devicePlugin == old(devicePlugin) && unchanged(devicePlugin)
      ensures halted == if restart then [old(devicePlugin)] else []
    {
      restartAfter := restart;
      attemptTrace := [];
      halted := [];
      if restart {
        ghost var stoppedId := devicePlugin.id;
        halted := [devicePlugin];
        devicePlugin.Stop();
        devicePlugin := new DevicePlugin(socketName, stoppedId + 1);
        var success := devicePlugin.Serve(serveOk);
        if success {
          restartAfter := false;
        }
        attemptTrace := [StopPlugin(stoppedId), NewPlugin(stoppedId + 1), ServePlugin(stoppedId + 1, serveOk)];
      }
    }

    /** The `select` on one event (plugin.go:63-87). `halted` lists the
        plugin it stopped, if any. */
    method HandleEvent(e: Event, restart: bool)
      returns (restartAfter: bool, terminated: bool, ghost handleTrace: seq<Action>, ghost halted: seq<DevicePlugin>)
      requires Valid() && !devicePlugin.stopped
      modifies devicePlugin
      ensures var h := Handle(PluginSocket(socketName), Loop(devicePlugin.id, restart), e);
        Loop(devicePlugin.id, restartAfter) == h.loop && handleTrace == h.trace && terminated == h.terminated
      ensures terminated ==> devicePlugin.stopped
      ensures !terminated ==> unchanged(devicePlugin)
      ensures halted == if terminated then [devicePlugin] else []
    {
      restartAfter := restart;
      terminated := false;
      handleTrace := [];
      halted := [];
      match e {
        case FsEvent(name, op) =>
          if name == KubeletSocket && HasOp(op, Create) {
            restartAfter := true;
          }
          if name == devicePlugin.socket && HasOp(op, Remove) {
            restartAfter := true;
          }
        case WatchError =>
        case Sig(s) =>
          if s == SIGHUP {
            restartAfter := true;
          } else {
            handleTrace := [StopPlugin(devicePlugin.id)];
            halted := [devicePlugin];
            devicePlugin.Stop();
            terminated := true;
          }
      }
    }

    /** One iteration that receives an event: the attempt at its top, then
        the `select` body for `events[i]`. It is the step RunFrom takes at
        iteration `i`. `halted` extends `haltedBefore`, the plugins stopped
        so far (numbered from `first` up to the current one), with those
        this iteration stops. */
    method Iterate(restart: bool, events: seq<Event>, serveOk: nat -> bool, i: nat,
                   ghost first: nat, ghost haltedBefore: seq<DevicePlugin>)
      returns (restartAfter: bool, terminated: bool, ghost trace: seq<Action>, ghost halted: seq<DevicePlugin>)
      requires Valid() && !devicePlugin.stopped && i < |events|
      requires !restart ==> devicePlugin.serving
      requires first + |haltedBefore| == devicePlugin.id && StoppedInOrder(haltedBefore, first)
      modifies this, devicePlugin
      ensures Valid()
      ensures devicePlugin == old(devicePlugin) || fresh(devicePlugin)
      ensures restart ==> fresh(devicePlugin)
      ensures terminated ==> devicePlugin.stopped
      ensures !terminated ==> !devicePlugin.stopped && (!restartAfter ==> devicePlugin.serving)
      ensures var r := RunFrom(PluginSocket(socketName), Loop(old(devicePlugin.id), restart), events[i..], serveOk, i);
        if terminated then r == Run(Loop(devicePlugin.id, restartAfter), trace, Terminated)
        else
          var rest := RunFrom(PluginSocket(socketName), Loop(devicePlugin.id, restartAfter), events[i + 1..], serveOk, i + 1);
          r == Run(rest.loop, trace + rest.trace, rest.outcome)
      ensures first + |halted| == devicePlugin.id + (if terminated then 1 else 0) && StoppedInOrder(halted, first)
    {
      RunFromAt(PluginSocket(socketName), Loop(devicePlugin.id, restart), events, serveOk, i);
      var restartNow;
      ghost var attemptTrace, handleTrace, attemptHalted, handleHalted;
      restartNow, attemptTrace, attemptHalted := AttemptRestart(restart, serveOk(i));
      restartAfter, terminated, handleTrace, handleHalted := HandleEvent(events[i], restartNow);
      trace := attemptTrace + [EventTaken(events[i])] + handleTrace;
      halted := haltedBefore + attemptHalted + handleHalted;
    }

    /** The attempt at the top of the iteration after the last event: what
        RunFrom does once the events are used up, before it waits in
        `select`. */
    method Settle(restart: bool, events: seq<Event>, serveOk: nat -> bool, i: nat,
                  ghost first: nat, ghost haltedBefore: seq<DevicePlugin>)
      returns (restartAfter: bool, ghost trace: seq<Action>, ghost halted: seq<DevicePlugin>)
      requires Valid() && !devicePlugin.stopped && i == |events|
      requires !restart ==> devicePlugin.serving
      requires first + |haltedBefore| == devicePlugin.id && StoppedInOrder(haltedBefore, first)
      modifies this, devicePlugin
      ensures Valid() && !devicePlugin.stopped && (devicePlugin.serving <==> !restartAfter)
      ensures devicePlugin == old(devicePlugin) || fresh(devicePlugin)
      ensures restart ==> fresh(devicePlugin)
      ensures RunFrom(PluginSocket(socketName), Loop(old(devicePlugin.id), restart), events[i..], serveOk, i)
           == Run(Loop(devicePlugin.id, restartAfter), trace, Waiting)
      ensures first + |halted| == devicePlugin.id && StoppedInOrder(halted, first)
    {
      RunFromAt(PluginSocket(socketName), Loop(devicePlugin.id, restart), events, serveOk, i);
      ghost var attemptHalted;
      restartAfter, trace, attemptHalted := AttemptRestart(restart, serveOk(i));
      halted := haltedBefore + attemptHalted;
    }

    /** RunDevicePlugin (plugin.go:34-89), with the watcher's creation
        outcome, the events from the watcher and the signal channel in the
        order the `select` takes them, and the outcome of the Serve in
        iteration k given by the caller. Once the events are used up, the
        loop makes the attempt at the top of the next iteration and waits in
        `select`. The wrapper ends where the model's run ends; a run that
        waits has a plugin serving exactly when no restart is pending; once
        the watcher is created, the plugin it leaves current is a fresh one. `halted` lists the plugins the run
        stopped, in order: plugin `first`, `first + 1`, ... up to the current
        one, which is included when the run terminates, each of them stopped.
        By `PluginModel.RunDevicePluginStops` these are exactly the plugins
        the trace's stops name. */
    method RunDevicePlugin(watcherOk: bool, events: seq<Event>, serveOk: nat -> bool)
      returns (outcome: Outcome, ghost trace: seq<Action>, ghost halted: seq<DevicePlugin>)
      requires Valid() && !devicePlugin.stopped
      modifies this, devicePlugin
      ensures var r := PluginModel.RunDevicePlugin(socketName, old(devicePlugin.id), watcherOk, events, serveOk);
        outcome == r.outcome && trace == r.trace && devicePlugin.id == r.loop.current &&
        (outcome == Terminated ==> devicePlugin.stopped) &&
        (outcome == Waiting ==> !devicePlugin.stopped && (devicePlugin.serving <==> !r.loop.restart))
      ensures old(devicePlugin.id) + |halted| == devicePlugin.id + (if outcome == Terminated then 1 else 0)
      ensures StoppedInOrder(halted, old(devicePlugin.id))
      ensures Valid()
      ensures !watcherOk ==> devicePlugin == old(devicePlugin) && unchanged(devicePlugin)
      ensures watcherOk ==> fresh(devicePlugin)
      ensures devicePlugin == old(devicePlugin) || fresh(devicePlugin)
    {
      ghost var first := devicePlugin.id;
      ghost var whole := PluginModel.RunDevicePlugin(socketName, first, watcherOk, events, serveOk);
      trace, halted := [], [];
      if !watcherOk {
        return WatcherSetupFailed, trace, halted;
      }
      var restart := true;
      var i := 0;
      assert events[0..] == events;
      while i < |events|
        invariant 0 <= i <= |events|
        invariant Valid() && !devicePlugin.stopped
        invariant devicePlugin == old(devicePlugin) || fresh(devicePlugin)
        invariant i > 0 || !restart ==> fresh(devicePlugin)
        invariant !restart ==> devicePlugin.serving
        invariant var rest := RunFrom(PluginSocket(socketName), Loop(devicePlugin.id, restart), events[i..], serveOk, i);
          whole == Run(rest.loop, trace + rest.trace, rest.outcome)
        invariant first + |halted| == devicePlugin.id && StoppedInOrder(halted, first)
      {
        var terminated;
        ghost var t, traceAtTop := [], trace;
        restart, terminated, t, halted := Iterate(restart, events, serveOk, i, first, halted);
        trace := trace + t;
        if terminated {
          return Terminated, trace, halted;
        }
        ghost var rest := RunFrom(PluginSocket(socketName), Loop(devicePlugin.id, restart), events[i + 1..], serveOk, i + 1);
        assert traceAtTop + (t + rest.trace) == trace + rest.trace;
        i := i + 1;
      }
      ghost var t;
      restart, t, halted := Settle(restart, events, serveOk, i, first, halted);
      return Waiting, trace + t, halted;
    }
  }

  /** Build (plugin.go:20-31): asks for the devices once; refuses (nil) when
      there are none, and otherwise returns a wrapper holding the names, the
      device function and a fresh plugin, plugin number 0. */
  method Build(resourceName: string, socketName: string, getDevices: DeviceProducer) returns (w: DevicePluginWrapper?)
    modifies getDevices
    ensures getDevices.calls == old(getDevices.calls) + 1
    ensures w == null <==> getDevices.outputs(old(getDevices.calls)) == []
    ensures w != null ==>
      fresh(w) && fresh(w.devicePlugin) && w.Valid() &&
      w.resourceName == resourceName && w.socketName == socketName && w.getDeviceFunc == getDevices &&
      w.devicePlugin.id == 0 && !w.devicePlugin.stopped && !w.devicePlugin.serving
  {
    var devices := getDevices.Call();
    if |devices| == 0 {
      return null;
    }
    var plugin := new DevicePlugin(socketName, 0);
    w := new DevicePluginWrapper(plugin, resourceName, socketName, getDevices);
  }
}

/** frame/device-plugin-wrapper.go: DevicePluginWrapper owns the plugin's
    gRPC server and socket, registers with the kubelet, and runs the restart
    loop. Each method is proved to do to the abstract state what the function
    of the same name in WrapperModel does. */
module WrapperFrame {
  import opened Wrappers
  import opened PluginApi
  import opened Watch
  import opened SimpleWrapper
  import opened WrapperModel

  /** The file-system entry at the wrapper's socket path. */
  class SocketFile {
    var present: bool

    constructor (present: bool)
      ensures this.present == present
    {
      this.present := present;
    }
  }

  class DevicePluginWrapper {
    const resourceName: string
    const socketName: string
    /** Whether `server` is set (a *grpc.Server or nil). */
    var server: bool
    /** The embedded DevicePluginImpl. */
    const impl: SimpleDevicePlugin
    const socketFile: SocketFile

    /** The wrapper's state as WrapperModel sees it. */
    function Abs(): Session
      reads this, socketFile, impl, impl.stop, impl.getDevFunc
    {
      Session(server, socketFile.present, impl.Abs())
    }

    function Configuration(): Config {
      Config(resourceName, socketName, impl.getDevFunc.outputs)
    }

    /** Build: the socket name is placed in the registration directory, the
        resource name and the implementation are kept, no server is set. */
    constructor Build(resourceName: string, socketName: string, devicePluginI: SimpleDevicePlugin, socketFile: SocketFile)
      ensures Configuration() == WrapperModel.Build(resourceName, socketName, devicePluginI.getDevFunc.outputs)
      ensures this.resourceName == resourceName && this.socketName == DevicePluginPath + socketName
      ensures impl == devicePluginI && this.socketFile == socketFile && !server
    {
      this.resourceName := resourceName;
      this.socketName := DevicePluginPath + socketName;
      impl := devicePluginI;
      this.socketFile := socketFile;
      server := false;
    }

    /** cleanup: remove the socket file, ignoring "does not exist". */
    method Cleanup(removeFails: bool) returns (err: Status)
      modifies socketFile
      ensures FileResult(socketFile.present, err) == WrapperModel.Cleanup(old(socketFile.present), removeFails)
    {
      if socketFile.present && removeFails {
        return Failed(RemoveFailed);
      }
      socketFile.present := false;
      err := Ok;
    }

    /** Start: cleanup, Listen, set `server`, then the readiness dial. */
    method Start(env: StartEnv) returns (err: Status)
      modifies this, socketFile
      ensures Abs() == WrapperModel.Start(old(Abs()), env).session
      ensures err == WrapperModel.Start(old(Abs()), env).status
    {
      err := Cleanup(env.removeFails);
      if err.Failed? {
        return;
      }
      if !env.listenOk {
        return Failed(ListenFailed);
      }
      socketFile.present := true;
      server := true;
      if !env.dialOk {
        return Failed(DialFailed);
      }
      err := Ok;
    }

    /** Stop: nothing without a server; otherwise clear it, Destroy the
        implementation, and clean up. */
    method Stop(removeFails: bool) returns (err: Status, ghost trace: seq<Call>)
      requires Inv(Abs())
      modifies this, socketFile, impl.stop
      ensures Outcome(Abs(), err, trace) == WrapperModel.Stop(old(Abs()), removeFails)
    {
      if !server {
        return Ok, [];
      }
      server := false;
      impl.Destroy();
      err := Cleanup(removeFails);
      trace := [DestroyCall];
    }

    /** Register: dial the kubelet and, when that works, send the request
        naming this plugin's endpoint and resource. `sent` is the RPC that
        went out, if any: its target and its request. */
    method Register(kubeletEndpoint: string, resourceName: string, env: RegisterEnv)
      returns (sent: Option<Call>, err: Status)
      ensures sent.Some? <==> env.dialOk
      ensures sent.Some? ==>
        sent.value == RegisterCall(kubeletEndpoint, RegisterRequest(Version, GoLib.Base(socketName), resourceName))
      ensures Reply(err, if sent.Some? then [sent.value] else [])
           == WrapperModel.Register(socketName, kubeletEndpoint, resourceName, env)
    {
      if !env.dialOk {
        return None, Failed(RegisterDialFailed);
      }
      var reqt := RegisterRequest(Version, GoLib.Base(socketName), resourceName);
      sent := Some(RegisterCall(kubeletEndpoint, reqt));
      err := if env.accepted then Ok else Failed(RegisterRejected);
    }

    /** Serve: Start, then Register; only a Register failure calls Stop. */
    method Serve(env: ServeEnv) returns (err: Status, ghost trace: seq<Call>)
      requires !impl.stop.closed
      modifies this, socketFile, impl.stop
      ensures Outcome(Abs(), err, trace) == WrapperModel.Serve(Configuration(), old(Abs()), env)
    {
      err := Start(env.start);
      if err.Failed? {
        return err, [];
      }
      var sent, regErr := Register(KubeletSocket, resourceName, env.register);
      ghost var regTrace := if sent.Some? then [sent.value] else [];
      if regErr.Failed? {
        var _, stopTrace := Stop(env.rollbackRemoveFails);
        return regErr, regTrace + stopTrace;
      }
      trace := regTrace;
    }

    /** The top of a loop iteration: when `needToStart` is set, Refresh the
        implementation and Serve; a successful Serve clears the flag. */
    method AttemptStart(needToStart: bool, env: ServeEnv) returns (stillToStart: bool, ghost trace: seq<Call>)
      requires Inv(Abs())
      modifies this, socketFile, impl, impl.stop, impl.getDevFunc
      ensures Inv(Abs())
      ensures impl.stop == old(impl.stop) || fresh(impl.stop)
      ensures Step(Loop(Abs(), stillToStart), trace) == Attempt(Configuration(), Loop(old(Abs()), needToStart), env)
    {
      stillToStart := needToStart;
      trace := [];
      if needToStart {
        impl.Refresh();
        var err, serveTrace := Serve(env);
        trace := [RefreshCall, ServeCall] + serveTrace;
        if err.Ok? {
          stillToStart := false;
        }
      }
    }

    /** Stop (its error is dropped, as in the loop) and ask for a restart. */
    method StopForRestart(removeFails: bool) returns (ghost trace: seq<Call>)
      requires Inv(Abs())
      modifies this, socketFile, impl.stop
      ensures Step(Loop(Abs(), true), trace) == StopAndRestart(Loop(old(Abs()), false), removeFails)
    {
      var _, stopTrace := Stop(removeFails);
      trace := stopTrace;
    }

    /** The body of the loop's `select` for one received event. */
    method HandleEvent(e: Event, removeFails: bool, needToStart: bool)
      returns (needToStartAfter: bool, terminated: bool, ghost trace: seq<Call>)
      requires Inv(Abs())
      modifies this, socketFile, impl.stop
      ensures Reaction(Loop(Abs(), needToStartAfter), trace, terminated)
           == Handle(Configuration(), Loop(old(Abs()), needToStart), e, removeFails)
    {
      ghost var before := Loop(Abs(), needToStart);
      needToStartAfter, terminated, trace := needToStart, false, [];
      match e {
        case FsEvent(name, op) =>
          if name == KubeletSocket && HasOp(op, Create) {
            trace := StopForRestart(removeFails);
            needToStartAfter := true;
          }
          ghost var first := if KubeletCreated(e) then StopAndRestart(before, removeFails) else Step(before, []);
          assert Step(Loop(Abs(), needToStartAfter), trace) == first;
          if name == socketName && HasOp(op, Remove) {
            var stopTrace := StopForRestart(removeFails);
            trace := trace + stopTrace;
            needToStartAfter := true;
          }
        case WatchError =>
        case Sig(s) =>
          trace := StopForRestart(removeFails);
          if s == SIGHUP {
            needToStartAfter := true;
          } else {
            terminated := true;
          }
      }
    }

    /** One iteration that receives an event: the attempt at its top, then
        the `select` body for `events[i]`. It is the step RunFrom takes at
        iteration `i`. */
    method Iterate(needToStart: bool, events: seq<Event>, envs: nat -> IterEnv, i: nat)
      returns (needToStartAfter: bool, terminated: bool, ghost trace: seq<Call>)
      requires Inv(Abs()) && i < |events|
      modifies this, socketFile, impl, impl.stop, impl.getDevFunc
      ensures Inv(Abs())
      ensures impl.stop == old(impl.stop) || fresh(impl.stop)
      ensures var r := RunFrom(Configuration(), Loop(old(Abs()), needToStart), events[i..], envs, i);
        if terminated then r == Run(Loop(Abs(), needToStartAfter), trace, Terminated)
        else
          var rest := RunFrom(Configuration(), Loop(Abs(), needToStartAfter), events[i + 1..], envs, i + 1);
          r == Run(rest.loop, trace + rest.trace, rest.outcome)
    {
      RunFromAt(Configuration(), Loop(Abs(), needToStart), events, envs, i);
      var stillToStart;
      ghost var attemptTrace, handleTrace;
      stillToStart, attemptTrace := AttemptStart(needToStart, envs(i).serve);
      needToStartAfter, terminated, handleTrace := HandleEvent(events[i], envs(i).stopRemoveFails, stillToStart);
      trace := attemptTrace + [EventTaken(events[i])] + handleTrace;
    }

    /** The attempt at the top of the iteration after the last event: what
        RunFrom does once the events are used up, before it waits in
        `select`. */
    method Settle(needToStart: bool, events: seq<Event>, envs: nat -> IterEnv, i: nat)
      returns (needToStartAfter: bool, ghost trace: seq<Call>)
      requires Inv(Abs()) && i == |events|
      modifies this, socketFile, impl, impl.stop, impl.getDevFunc
      ensures Inv(Abs())
      ensures impl.stop == old(impl.stop) || fresh(impl.stop)
      ensures RunFrom(Configuration(), Loop(old(Abs()), needToStart), events[i..], envs, i)
           == Run(Loop(Abs(), needToStartAfter), trace, Waiting)
    {
      RunFromAt(Configuration(), Loop(Abs(), needToStart), events, envs, i);
      needToStartAfter, trace := AttemptStart(needToStart, envs(i).serve);
    }

    /** RunDevicePlugin: set up the watcher (exit status 1 on failure), then
        the loop; `events` are what the `select` receives, in order, and
        `envs(i)` the outcomes of the external calls of iteration `i`. Once
        the events are used up, the loop makes the attempt at the top of the
        next iteration and waits in `select`. */
    method RunDevicePlugin(watcherOk: bool, events: seq<Event>, envs: nat -> IterEnv)
      returns (outcome: RunOutcome, ghost trace: seq<Call>)
      requires Inv(Abs())
      modifies this, socketFile, impl, impl.stop, impl.getDevFunc
      ensures var r := WrapperModel.RunDevicePlugin(Configuration(), old(Abs()), watcherOk, events, envs);
        Abs() == r.loop.session && trace == r.trace && outcome == r.outcome
    {
      ghost var c := Configuration();
      ghost var whole := WrapperModel.RunDevicePlugin(c, Abs(), watcherOk, events, envs);
      if !watcherOk {
        return WatcherSetupFailed, [];
      }
      assert events[0..] == events;
      var needToStart := true;
      var i := 0;
      trace := [];
      while i < |events|
        invariant 0 <= i <= |events|
        invariant Inv(Abs())
        invariant impl.stop == old(impl.stop) || fresh(impl.stop)
        invariant var rest := RunFrom(c, Loop(Abs(), needToStart), events[i..], envs, i);
          whole == Run(rest.loop, trace + rest.trace, rest.outcome)
      {
        var terminated;
        ghost var t, traceAtTop := [], trace;
        needToStart, terminated, t := Iterate(needToStart, events, envs, i);
        trace := trace + t;
        if terminated {
          return Terminated, trace;
        }
        ghost var rest := RunFrom(c, Loop(Abs(), needToStart), events[i + 1..], envs, i + 1);
        assert traceAtTop + (t + rest.trace) == trace + rest.trace;
        i := i + 1;
      }
      ghost var t;
      needToStart, t := Settle(needToStart, events, envs, i);
      return Waiting, trace + t;
    }
  }
}

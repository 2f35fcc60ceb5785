/** A value-level model of the session control in frame/device-plugin-wrapper.go
    together with the state of the SimpleDevicePlugin it drives
    (frame/simple-wrapper.go). The classes in WrapperFrame and SimpleWrapper are
    proved to follow these functions step by step; the lemmas here state what
    the lifecycle promises. The outcomes of `os.Remove`, `net.Listen`, the
    readiness dial and the Register call are inputs ("environments"). */
module WrapperModel {
  import opened Wrappers
  import opened PluginApi
  import opened GoLib
  import opened Watch

  /** The answers of the device callback, call by call. */
  type Outputs = nat -> seq<Device>

  // ---------------------------------------------------------------------
  // SimpleDevicePlugin
  // ---------------------------------------------------------------------

  /** A SimpleDevicePlugin: its device list, whether its stop channel is
      closed, and how many times its callback has been invoked. */
  datatype Plugin = Plugin(devs: seq<Device>, stopClosed: bool, calls: nat)

  /** Refresh: a new device list from the callback and a new, open channel. */
  function Refresh(p: Plugin, outputs: Outputs): (r: Plugin)
    ensures r.devs == outputs(p.calls) && !r.stopClosed && r.calls == p.calls + 1
  {
    Plugin(outputs(p.calls), false, p.calls + 1)
  }

  /** Destroy closes the stop channel; closing a closed channel panics. */
  function Destroy(p: Plugin): (r: Plugin)
    requires !p.stopClosed
    ensures r.stopClosed && r.devs == p.devs && r.calls == p.calls
  {
    p.(stopClosed := true)
  }

  /** The plugin after `n` refreshes in a row. */
  function RefreshTimes(p: Plugin, outputs: Outputs, n: nat): Plugin
    decreases n
  {
    if n == 0 then p else Refresh(RefreshTimes(p, outputs, n - 1), outputs)
  }

  /** After the n-th of a run of refreshes the device list is exactly the
      callback's latest answer, whatever the list held before (nothing is
      merged), and the channel is open. */
  lemma {:induction false} RefreshTimesYieldsLatest(p: Plugin, q: Plugin, outputs: Outputs, n: nat)
    requires n > 0 && p.calls == q.calls
    ensures RefreshTimes(p, outputs, n).devs == outputs(p.calls + n - 1)
    ensures RefreshTimes(p, outputs, n).calls == p.calls + n
    ensures RefreshTimes(p, outputs, n) == RefreshTimes(q, outputs, n)
    ensures !RefreshTimes(p, outputs, n).stopClosed
    decreases n
  {
    if n > 1 {
      RefreshTimesYieldsLatest(p, q, outputs, n - 1);
    }
  }

  // ---------------------------------------------------------------------
  // The wrapper's session
  // ---------------------------------------------------------------------

  /** The wrapper's abstract state: whether `server` is set, whether the
      socket file exists, and the plugin it drives. */
  datatype Session = Session(server: bool, socketFile: bool, plugin: Plugin)

  /** A live server implies an open stop channel: the condition under which
      Stop's Destroy cannot panic. */
  predicate Inv(s: Session) {
    s.server ==> !s.plugin.stopClosed
  }

  /** The fixed configuration of one wrapper. `socketName` is the full path
      that Build stored. */
  datatype Config = Config(resourceName: string, socketName: string, outputs: Outputs)

  /** Build: the socket name is placed in the registration directory; the
      resource name is kept as given. */
  function Build(resourceName: string, socketName: string, outputs: Outputs): (c: Config)
    ensures c.resourceName == resourceName && c.outputs == outputs
    ensures |c.socketName| == |DevicePluginPath| + |socketName|
    ensures c.socketName[..|DevicePluginPath|] == DevicePluginPath && c.socketName[|DevicePluginPath|..] == socketName
  {
    Config(resourceName, DevicePluginPath + socketName, outputs)
  }

  datatype Error = RemoveFailed | ListenFailed | DialFailed | RegisterDialFailed | RegisterRejected

  /** A Go `error` result: nil or an error. */
  datatype Status = Ok | Failed(error: Error)

  /** What happened, in order, as seen from the loop. */
  datatype Call =
    | RefreshCall
    | ServeCall
    | DestroyCall
    | RegisterCall(target: string, request: RegisterRequest)
    | EventTaken(event: Event)

  datatype Outcome = Outcome(session: Session, status: Status, trace: seq<Call>)

  // ---------------------------------------------------------------------
  // cleanup, Start, Register, Stop, Serve
  // ---------------------------------------------------------------------

  datatype FileResult = FileResult(socketFile: bool, status: Status)

  /** cleanup: remove the socket file; a missing file is not an error.
      `removeFails` says whether removing an existing file fails. */
  function Cleanup(socketFile: bool, removeFails: bool): (r: FileResult)
    ensures r.status.Ok? <==> !socketFile || !removeFails
    ensures r.status.Ok? ==> !r.socketFile
    ensures r.status.Failed? ==> r == FileResult(true, Failed(RemoveFailed))
  {
    if socketFile && removeFails then FileResult(true, Failed(RemoveFailed))
    else FileResult(false, Ok)
  }

  /** Outcomes of the external calls Start makes. */
  datatype StartEnv = StartEnv(removeFails: bool, listenOk: bool, dialOk: bool)

  /** Start: cleanup, then Listen (which creates the socket file), then set
      `server`, then the readiness dial. */
  function Start(s: Session, env: StartEnv): (r: Outcome)
    ensures r.session.plugin == s.plugin && r.trace == []
    ensures r.status.Ok? <==> Cleanup(s.socketFile, env.removeFails).status.Ok? && env.listenOk && env.dialOk
    ensures r.session.server <==> s.server || (Cleanup(s.socketFile, env.removeFails).status.Ok? && env.listenOk)
    ensures r.status == Failed(DialFailed) ==> r.session.server
    ensures r.status.Ok? ==> r.session.server && r.session.socketFile
  {
    var c := Cleanup(s.socketFile, env.removeFails);
    if c.status.Failed? then Outcome(s.(socketFile := c.socketFile), c.status, [])
    else if !env.listenOk then Outcome(s.(socketFile := c.socketFile), Failed(ListenFailed), [])
    else
      var started := s.(server := true, socketFile := true);
      if !env.dialOk then Outcome(started, Failed(DialFailed), []) else Outcome(started, Ok, [])
  }

  /** The request Register sends. */
  function RegisterRequestFor(socketName: string, resourceName: string): (r: RegisterRequest)
    ensures r.version == Version && r.resourceName == resourceName && r.endpoint != []
  {
    RegisterRequest(Version, Base(socketName), resourceName)
  }

  /** For a plain socket file name the endpoint announced to the kubelet is
      the very name the wrapper was built with. */
  lemma RegisterEndpointIsSocketName(resourceName: string, socketName: string)
    requires socketName != [] && '/' !in socketName
    ensures RegisterRequestFor(Build(resourceName, socketName, _ => []).socketName, resourceName)
         == RegisterRequest(Version, socketName, resourceName)
  {
    BaseOfJoin(DevicePluginPath, socketName);
  }

  /** Outcomes of the dial to the kubelet and of the Register RPC. */
  datatype RegisterEnv = RegisterEnv(dialOk: bool, accepted: bool)

  datatype Reply = Reply(status: Status, trace: seq<Call>)

  /** Register: dial the kubelet; when that works send the request. It
      succeeds only if both the dial and the RPC do. */
  function Register(socketName: string, kubeletEndpoint: string, resourceName: string, env: RegisterEnv): (r: Reply)
    ensures r.status.Ok? <==> env.dialOk && env.accepted
    ensures r.trace == if env.dialOk then [RegisterCall(kubeletEndpoint, RegisterRequestFor(socketName, resourceName))] else []
  {
    if !env.dialOk then Reply(Failed(RegisterDialFailed), [])
    else
      var sent := [RegisterCall(kubeletEndpoint, RegisterRequestFor(socketName, resourceName))];
      Reply(if env.accepted then Ok else Failed(RegisterRejected), sent)
  }

  /** Stop: with no server nothing happens; otherwise clear `server`,
      Destroy the plugin once, and clean up the socket file. */
  function Stop(s: Session, removeFails: bool): (r: Outcome)
    requires Inv(s)
    ensures !r.session.server && Inv(r.session)
    ensures r.trace == if s.server then [DestroyCall] else []
    ensures !s.server ==> r == Outcome(s, Ok, [])
    ensures s.server ==> r.session.plugin == Destroy(s.plugin)
    ensures s.server ==> FileResult(r.session.socketFile, r.status) == Cleanup(s.socketFile, removeFails)
  {
    if !s.server then Outcome(s, Ok, [])
    else
      var c := Cleanup(s.socketFile, removeFails);
      Outcome(Session(false, c.socketFile, Destroy(s.plugin)), c.status, [DestroyCall])
  }

  /** Stop is idempotent: a second Stop changes nothing and reports success. */
  lemma StopIdempotent(s: Session, removeFails: bool, removeFails': bool)
    requires Inv(s)
    ensures Stop(Stop(s, removeFails).session, removeFails') == Outcome(Stop(s, removeFails).session, Ok, [])
  {
  }

  /** Outcomes of everything Serve calls. */
  datatype ServeEnv = ServeEnv(start: StartEnv, register: RegisterEnv, rollbackRemoveFails: bool)

  /** Serve: Start, then Register with the kubelet; a Register failure rolls
      the session back with Stop. */
  function Serve(c: Config, s: Session, env: ServeEnv): (r: Outcome)
    requires !s.plugin.stopClosed
    ensures Inv(r.session)
    ensures r.status.Ok? <==> Start(s, env.start).status.Ok? && env.register.dialOk && env.register.accepted
    ensures Start(s, env.start).status.Failed? ==> r == Start(s, env.start)
    ensures r.status.Ok? ==> r.session.server && r.session.plugin == s.plugin
  {
    var st := Start(s, env.start);
    if st.status.Failed? then st
    else
      var reg := Register(c.socketName, KubeletSocket, c.resourceName, env.register);
      if reg.status.Failed? then
        var stop := Stop(st.session, env.rollbackRemoveFails);
        Outcome(stop.session, reg.status, reg.trace + stop.trace)
      else Outcome(st.session, Ok, reg.trace)
  }

  /** Serve Destroys the plugin exactly when Start worked and Register
      failed; that rollback leaves no server and a closed channel. */
  lemma ServeRollsBack(c: Config, s: Session, env: ServeEnv)
    requires !s.plugin.stopClosed
    ensures var r := Serve(c, s, env);
      (DestroyCall in r.trace <==> Start(s, env.start).status.Ok? && r.status.Failed?) &&
      (DestroyCall in r.trace ==> !r.session.server && r.session.plugin == Destroy(s.plugin))
  {
    var r := Serve(c, s, env);
    var st := Start(s, env.start);
    if st.status.Ok? {
      var reg := Register(c.socketName, KubeletSocket, c.resourceName, env.register);
      assert DestroyCall !in reg.trace;
      if reg.status.Failed? {
        assert r.trace[|reg.trace|] == DestroyCall;
      }
    }
  }

  // ---------------------------------------------------------------------
  // RunDevicePlugin's event loop
  // ---------------------------------------------------------------------

  /** The loop's state: the session and the `needToStart` flag. */
  datatype Loop = Loop(session: Session, needToStart: bool)

  datatype Step = Step(loop: Loop, trace: seq<Call>)

  /** The top of an iteration: when `needToStart` is set, Refresh and then
      one Serve; a successful Serve clears the flag. */
  function Attempt(c: Config, l: Loop, env: ServeEnv): (r: Step)
    requires Inv(l.session)
    ensures Inv(r.loop.session)
    ensures !l.needToStart ==> r == Step(l, [])
    ensures l.needToStart ==>
      var s := l.session.(plugin := Refresh(l.session.plugin, c.outputs));
      r.loop == Loop(Serve(c, s, env).session, Serve(c, s, env).status.Failed?) &&
      r.trace == [RefreshCall, ServeCall] + Serve(c, s, env).trace
  {
    if !l.needToStart then Step(l, [])
    else
      var s := l.session.(plugin := Refresh(l.session.plugin, c.outputs));
      var o := Serve(c, s, env);
      Step(Loop(o.session, o.status.Failed?), [RefreshCall, ServeCall] + o.trace)
  }

  /** An attempt refreshes first, so the plugin serves the callback's
      latest answer; it Serves once, and only a successful Serve clears the
      flag, which then leaves a server running on the plugin just refreshed. */
  lemma AttemptFacts(c: Config, l: Loop, env: ServeEnv)
    requires Inv(l.session) && l.needToStart
    ensures var r := Attempt(c, l, env);
      var s := l.session.(plugin := Refresh(l.session.plugin, c.outputs));
      |r.trace| >= 2 && r.trace[..2] == [RefreshCall, ServeCall] &&
      r.loop.session.plugin.devs == c.outputs(l.session.plugin.calls) &&
      r.loop.session.plugin.calls == l.session.plugin.calls + 1 &&
      (r.loop.needToStart <==> Serve(c, s, env).status.Failed?) &&
      (!r.loop.needToStart ==> r.loop.session.server && !r.loop.session.plugin.stopClosed)
  {
    var s := l.session.(plugin := Refresh(l.session.plugin, c.outputs));
    var o := Serve(c, s, env);
    assert ([RefreshCall, ServeCall] + o.trace)[..2] == [RefreshCall, ServeCall];
  }

  /** Stop (its error is dropped) and ask for a new session. */
  function StopAndRestart(l: Loop, removeFails: bool): (r: Step)
    requires Inv(l.session)
    ensures Inv(r.loop.session) && r.loop.needToStart && !r.loop.session.server
  {
    var o := Stop(l.session, removeFails);
    Step(Loop(o.session, true), o.trace)
  }

  /** An FS event names the kubelet socket and carries the Create bit. */
  predicate KubeletCreated(e: Event) {
    e.FsEvent? && e.name == KubeletSocket && HasOp(e.op, Create)
  }

  /** An FS event names the plugin's own socket and carries the Remove bit. */
  predicate OwnSocketRemoved(c: Config, e: Event) {
    e.FsEvent? && e.name == c.socketName && HasOp(e.op, Remove)
  }

  datatype Reaction = Reaction(loop: Loop, trace: seq<Call>, terminated: bool)

  /** The body of the `select` for one event. The two FS tests are
      independent `if`s, so one event can pass both. */
  function Handle(c: Config, l: Loop, e: Event, removeFails: bool): (r: Reaction)
    requires Inv(l.session)
    ensures Inv(r.loop.session)
  {
    match e
    case FsEvent(_, _) =>
      var first := if KubeletCreated(e) then StopAndRestart(l, removeFails) else Step(l, []);
      var second := if OwnSocketRemoved(c, e) then StopAndRestart(first.loop, removeFails) else Step(first.loop, []);
      Reaction(second.loop, first.trace + second.trace, false)
    case WatchError => Reaction(l, [], false)
    case Sig(sig) =>
      var s := StopAndRestart(l, removeFails);
      if sig == SIGHUP then Reaction(s.loop, s.trace, false)
      else Reaction(s.loop.(needToStart := l.needToStart), s.trace, true)
  }

  /** How each kind of event moves the loop. */
  lemma HandleTransitions(c: Config, l: Loop, e: Event, removeFails: bool)
    requires Inv(l.session)
    ensures Handle(c, l, e, removeFails).terminated <==> Terminates(e)
    ensures e.WatchError? ==> Handle(c, l, e, removeFails) == Reaction(l, [], false)
    ensures e.FsEvent? && !KubeletCreated(e) && !OwnSocketRemoved(c, e) ==>
      Handle(c, l, e, removeFails) == Reaction(l, [], false)
    ensures (KubeletCreated(e) || OwnSocketRemoved(c, e) || e == Sig(SIGHUP)) ==>
      var r := Handle(c, l, e, removeFails);
      r.loop.needToStart && !r.loop.session.server && !r.terminated &&
      r.trace == (if l.session.server then [DestroyCall] else [])
    ensures e.Sig? && e.signal != SIGHUP ==>
      var r := Handle(c, l, e, removeFails);
      r.terminated && !r.loop.session.server && r.loop.session == Stop(l.session, removeFails).session
  {
  }

  /** Outcomes of the external calls of one loop iteration. */
  datatype IterEnv = IterEnv(serve: ServeEnv, stopRemoveFails: bool)

  /** How a run ends: the watcher could not be set up (exit status 1), a
      termination signal broke the loop, or the loop is blocked in `select`
      waiting for an event beyond those given. */
  datatype RunOutcome = WatcherSetupFailed | Terminated | Waiting

  datatype Run = Run(loop: Loop, trace: seq<Call>, outcome: RunOutcome)

  /** The loop from iteration `k` on, fed `events`. */
  function RunFrom(c: Config, l: Loop, events: seq<Event>, envs: nat -> IterEnv, k: nat): (r: Run)
    requires Inv(l.session)
    ensures Inv(r.loop.session)
    ensures r.outcome != WatcherSetupFailed
    decreases |events|
  {
    var a := Attempt(c, l, envs(k).serve);
    if events == [] then Run(a.loop, a.trace, Waiting)
    else
      var h := Handle(c, a.loop, events[0], envs(k).stopRemoveFails);
      var t := a.trace + [EventTaken(events[0])] + h.trace;
      if h.terminated then Run(h.loop, t, Terminated)
      else
        var rest := RunFrom(c, h.loop, events[1..], envs, k + 1);
        Run(rest.loop, t + rest.trace, rest.outcome)
  }

  /** One iteration of RunFrom over `events[i..]`, for a loop that walks
      `events` by index. */
  lemma RunFromAt(c: Config, l: Loop, events: seq<Event>, envs: nat -> IterEnv, i: nat)
    requires Inv(l.session) && i <= |events|
    ensures var a := Attempt(c, l, envs(i).serve);
      var r := RunFrom(c, l, events[i..], envs, i);
      if i == |events| then r == Run(a.loop, a.trace, Waiting)
      else
        var h := Handle(c, a.loop, events[i], envs(i).stopRemoveFails);
        var t := a.trace + [EventTaken(events[i])] + h.trace;
        if h.terminated then r == Run(h.loop, t, Terminated)
        else
          var rest := RunFrom(c, h.loop, events[i + 1..], envs, i + 1);
          r == Run(rest.loop, t + rest.trace, rest.outcome)
  {
    if i < |events| {
      assert events[i..][0] == events[i] && events[i..][1..] == events[i + 1..];
    }
  }

  /** The loop ends by a signal exactly when one of the events is a signal
      other than SIGHUP (otherwise it waits for more), and it then leaves no
      server behind. */
  lemma {:induction false} RunFromTerminates(c: Config, l: Loop, events: seq<Event>, envs: nat -> IterEnv, k: nat)
    requires Inv(l.session)
    ensures var r := RunFrom(c, l, events, envs, k);
      (r.outcome == Terminated <==> exists i :: 0 <= i < |events| && Terminates(events[i])) &&
      (r.outcome == Terminated ==> !r.loop.session.server)
    decreases |events|
  {
    if events != [] {
      var a := Attempt(c, l, envs(k).serve);
      var h := Handle(c, a.loop, events[0], envs(k).stopRemoveFails);
      HandleTransitions(c, a.loop, events[0], envs(k).stopRemoveFails);
      if !h.terminated {
        RunFromTerminates(c, h.loop, events[1..], envs, k + 1);
        assert forall i :: 1 <= i < |events| ==> events[1..][i - 1] == events[i];
      }
    }
  }

  /** RunDevicePlugin: set up the watcher, then loop with `needToStart` set. */
  function RunDevicePlugin(c: Config, s: Session, watcherOk: bool, events: seq<Event>, envs: nat -> IterEnv): (r: Run)
    requires Inv(s)
    ensures !watcherOk <==> r.outcome == WatcherSetupFailed
    ensures !watcherOk ==> r == Run(Loop(s, true), [], WatcherSetupFailed)
  {
    if !watcherOk then Run(Loop(s, true), [], WatcherSetupFailed)
    else RunFrom(c, Loop(s, true), events, envs, 0)
  }

  // ---------------------------------------------------------------------
  // What the loop's history satisfies
  // ---------------------------------------------------------------------

  /** A reader of the loop's history, left to right. It rejects a Destroy
      while the stop channel is closed (Go's `close` would panic; a Refresh
      installs a new open channel), a Serve that does not come right after a
      Refresh, and a second Serve before another event has been taken. */
  datatype Monitor = Monitor(stopClosed: bool, afterRefresh: bool, mayServe: bool)

  function Next(m: Monitor, call: Call): Option<Monitor> {
    match call
    case RefreshCall => Some(Monitor(false, true, m.mayServe))
    case ServeCall => if m.afterRefresh && m.mayServe then Some(Monitor(m.stopClosed, false, false)) else None
    case DestroyCall => if m.stopClosed then None else Some(Monitor(true, false, m.mayServe))
    case RegisterCall(_, _) => Some(m.(afterRefresh := false))
    case EventTaken(_) => Some(Monitor(m.stopClosed, false, true))
  }

  /** The history `t` read from `m`: `None` if some call is rejected,
      otherwise the final state. */
  function Replay(m: Monitor, t: seq<Call>): Option<Monitor>
    decreases |t|
  {
    if t == [] then Some(m)
    else match Next(m, t[0])
      case None => None
      case Some(m') => Replay(m', t[1..])
  }

  /** Reading `a + b` is reading `a`, then `b` from where `a` left off. */
  lemma {:induction false} ReplayAppend(m: Monitor, a: seq<Call>, b: seq<Call>)
    ensures Replay(m, a + b) == match Replay(m, a) case None => None case Some(m') => Replay(m', b)
    decreases |a|
  {
    if a != [] {
      assert (a + b)[0] == a[0];
      assert (a + b)[1..] == a[1..] + b;
      match Next(m, a[0])
      case None =>
      case Some(m') => ReplayAppend(m', a[1..], b);
    } else {
      assert a + b == b;
    }
  }

  /** The monitor's channel bit matches the plugin's. */
  predicate Agrees(m: Monitor, l: Loop) {
    m.stopClosed == l.session.plugin.stopClosed
  }

  /** Reading a single call is one step of the monitor. */
  lemma ReplayOne(m: Monitor, call: Call)
    ensures Replay(m, [call]) == Next(m, call)
  {
    assert [call][1..] == [];
  }

  /** Reading two calls is two steps of the monitor. */
  lemma ReplayPair(m: Monitor, first: Call, second: Call)
    requires Next(m, first).Some?
    ensures Replay(m, [first, second]) == Next(Next(m, first).value, second)
  {
    assert [first, second][1..] == [second];
    ReplayOne(Next(m, first).value, second);
  }

  /** The calls Serve makes leave the monitor's channel bit in agreement. */
  lemma ServeMonitored(c: Config, s: Session, env: ServeEnv, m: Monitor)
    requires !s.plugin.stopClosed && !m.stopClosed && !m.afterRefresh
    ensures var o := Serve(c, s, env);
      Replay(m, o.trace).Some? && Replay(m, o.trace).value.stopClosed == o.session.plugin.stopClosed
  {
    var o := Serve(c, s, env);
    var call := RegisterCall(KubeletSocket, RegisterRequestFor(c.socketName, c.resourceName));
    if Start(s, env.start).status.Failed? {
      assert o.trace == [] && o.session.plugin == s.plugin;
    } else if !env.register.dialOk {
      assert o.trace == [DestroyCall] && o.session.plugin.stopClosed;
      ReplayOne(m, DestroyCall);
    } else if !env.register.accepted {
      assert o.trace == [call, DestroyCall] && o.session.plugin.stopClosed;
      ReplayPair(m, call, DestroyCall);
    } else {
      assert o.trace == [call] && o.session.plugin == s.plugin;
      ReplayOne(m, call);
    }
  }

  lemma AttemptMonitored(c: Config, l: Loop, env: ServeEnv, m: Monitor)
    requires Inv(l.session) && Agrees(m, l) && m.mayServe
    ensures var r := Attempt(c, l, env);
      Replay(m, r.trace).Some? && Agrees(Replay(m, r.trace).value, r.loop)
  {
    if l.needToStart {
      var s := l.session.(plugin := Refresh(l.session.plugin, c.outputs));
      var o := Serve(c, s, env);
      var m2 := Monitor(false, false, false);
      assert Replay(m, [RefreshCall, ServeCall]) == Some(m2) by {
        assert [RefreshCall, ServeCall][1..] == [ServeCall];
        assert Replay(m2, []) == Some(m2);
      }
      ReplayAppend(m, [RefreshCall, ServeCall], o.trace);
      ServeMonitored(c, s, env, m2);
    }
  }

  lemma StopMonitored(l: Loop, removeFails: bool, m: Monitor)
    requires Inv(l.session) && Agrees(m, l)
    ensures var r := StopAndRestart(l, removeFails);
      Replay(m, r.trace).Some? && Agrees(Replay(m, r.trace).value, r.loop) &&
      Replay(m, r.trace).value.mayServe == m.mayServe
  {
  }

  lemma HandleMonitored(c: Config, l: Loop, e: Event, removeFails: bool, m: Monitor)
    requires Inv(l.session) && Agrees(m, l)
    ensures var r := Handle(c, l, e, removeFails);
      Replay(m, r.trace).Some? && Agrees(Replay(m, r.trace).value, r.loop) &&
      Replay(m, r.trace).value.mayServe == m.mayServe
  {
    if e.FsEvent? {
      var first := if KubeletCreated(e) then StopAndRestart(l, removeFails) else Step(l, []);
      StopMonitored(l, removeFails, m);
      var m1 := Replay(m, first.trace).value;
      StopMonitored(first.loop, removeFails, m1);
      var second := if OwnSocketRemoved(c, e) then StopAndRestart(first.loop, removeFails) else Step(first.loop, []);
      ReplayAppend(m, first.trace, second.trace);
    } else if e.Sig? {
      StopMonitored(l, removeFails, m);
    }
  }

  /** Reading an accepted `a` and then `b` is reading `a + b`. */
  lemma ReplayThen(m: Monitor, a: seq<Call>, b: seq<Call>)
    requires Replay(m, a).Some?
    ensures Replay(m, a + b) == Replay(Replay(m, a).value, b)
  {
    ReplayAppend(m, a, b);
  }

  /** Reading an attempt's calls, an event, then the handler's calls. */
  lemma ReplayIteration(m: Monitor, attempt: seq<Call>, e: Event, handler: seq<Call>)
    requires Replay(m, attempt).Some?
    ensures Replay(m, attempt + [EventTaken(e)] + handler)
         == Replay(Monitor(Replay(m, attempt).value.stopClosed, false, true), handler)
  {
    assert ([EventTaken(e)] + handler)[1..] == handler;
    ReplayThen(m, attempt, [EventTaken(e)] + handler);
    assert attempt + [EventTaken(e)] + handler == attempt + ([EventTaken(e)] + handler);
  }

  /** One iteration that takes an event is accepted, leaves the monitor in
      agreement with the loop, and lets the next attempt Serve. */
  lemma IterationMonitored(c: Config, l: Loop, e: Event, env: IterEnv, m: Monitor)
    requires Inv(l.session) && Agrees(m, l) && m.mayServe
    ensures var a := Attempt(c, l, env.serve);
      var h := Handle(c, a.loop, e, env.stopRemoveFails);
      var t := a.trace + [EventTaken(e)] + h.trace;
      Replay(m, t).Some? && Agrees(Replay(m, t).value, h.loop) && Replay(m, t).value.mayServe
  {
    var a := Attempt(c, l, env.serve);
    AttemptMonitored(c, l, env.serve, m);
    var h := Handle(c, a.loop, e, env.stopRemoveFails);
    HandleMonitored(c, a.loop, e, env.stopRemoveFails, Monitor(Replay(m, a.trace).value.stopClosed, false, true));
    ReplayIteration(m, a.trace, e, h.trace);
  }

  lemma {:induction false} RunFromMonitored(c: Config, l: Loop, events: seq<Event>, envs: nat -> IterEnv, k: nat, m: Monitor)
    requires Inv(l.session) && Agrees(m, l) && m.mayServe
    ensures Replay(m, RunFrom(c, l, events, envs, k).trace).Some?
    decreases |events|
  {
    var a := Attempt(c, l, envs(k).serve);
    if events == [] {
      AttemptMonitored(c, l, envs(k).serve, m);
    } else {
      var h := Handle(c, a.loop, events[0], envs(k).stopRemoveFails);
      var t := a.trace + [EventTaken(events[0])] + h.trace;
      IterationMonitored(c, l, events[0], envs(k), m);
      if !h.terminated {
        RunFromMonitored(c, h.loop, events[1..], envs, k + 1, Replay(m, t).value);
        ReplayThen(m, t, RunFrom(c, h.loop, events[1..], envs, k + 1).trace);
      }
    }
  }

  /** From a closed channel, a Destroy needs a Refresh somewhere before it. */
  lemma {:induction false} ClosedUntilRefresh(m: Monitor, t: seq<Call>, j: nat)
    requires Replay(m, t).Some? && m.stopClosed && j < |t| && t[j] == DestroyCall
    ensures exists k :: 0 <= k < j && t[k] == RefreshCall
    decreases |t|
  {
    if t[0] != RefreshCall {
      var m' := Next(m, t[0]).value;
      assert t[1..][j - 1] == DestroyCall;
      ClosedUntilRefresh(m', t[1..], j - 1);
      var k :| 0 <= k < j - 1 && t[1..][k] == RefreshCall;
      assert t[k + 1] == RefreshCall;
    }
  }

  /** Between two Destroys of an accepted history there is a Refresh. */
  lemma {:induction false} DestroysSeparated(m: Monitor, t: seq<Call>)
    requires Replay(m, t).Some?
    ensures forall i, j :: 0 <= i < j < |t| && t[i] == DestroyCall && t[j] == DestroyCall ==>
      exists k :: i < k < j && t[k] == RefreshCall
    decreases |t|
  {
    if t != [] {
      var m' := Next(m, t[0]).value;
      DestroysSeparated(m', t[1..]);
      forall i, j | 0 <= i < j < |t| && t[i] == DestroyCall && t[j] == DestroyCall
        ensures exists k :: i < k < j && t[k] == RefreshCall
      {
        assert t[1..][j - 1] == DestroyCall;
        if i == 0 {
          ClosedUntilRefresh(m', t[1..], j - 1);
          var k :| 0 <= k < j - 1 && t[1..][k] == RefreshCall;
          assert t[k + 1] == RefreshCall;
        } else {
          assert t[1..][i - 1] == DestroyCall;
          var k :| i - 1 < k < j - 1 && t[1..][k] == RefreshCall;
          assert t[k + 1] == RefreshCall;
        }
      }
    }
  }

  /** Once a Serve has been made, the next one needs an event before it. */
  lemma {:induction false} NoServeUntilEvent(m: Monitor, t: seq<Call>, j: nat)
    requires Replay(m, t).Some? && !m.mayServe && j < |t| && t[j] == ServeCall
    ensures exists k :: 0 <= k < j && t[k].EventTaken?
    decreases |t|
  {
    if !t[0].EventTaken? {
      var m' := Next(m, t[0]).value;
      assert t[1..][j - 1] == ServeCall;
      NoServeUntilEvent(m', t[1..], j - 1);
      var k :| 0 <= k < j - 1 && t[1..][k].EventTaken?;
      assert t[k + 1].EventTaken?;
    }
  }

  /** Between two Serves of an accepted history an event was taken: a
      failed attempt is retried only after the next event. */
  lemma {:induction false} ServesSeparated(m: Monitor, t: seq<Call>)
    requires Replay(m, t).Some?
    ensures forall i, j :: 0 <= i < j < |t| && t[i] == ServeCall && t[j] == ServeCall ==>
      exists k :: i < k < j && t[k].EventTaken?
    decreases |t|
  {
    if t != [] {
      var m' := Next(m, t[0]).value;
      ServesSeparated(m', t[1..]);
      forall i, j | 0 <= i < j < |t| && t[i] == ServeCall && t[j] == ServeCall
        ensures exists k :: i < k < j && t[k].EventTaken?
      {
        assert t[1..][j - 1] == ServeCall;
        if i == 0 {
          NoServeUntilEvent(m', t[1..], j - 1);
          var k :| 0 <= k < j - 1 && t[1..][k].EventTaken?;
          assert t[k + 1].EventTaken?;
        } else {
          assert t[1..][i - 1] == ServeCall;
          var k :| i - 1 < k < j - 1 && t[1..][k].EventTaken?;
          assert t[k + 1].EventTaken?;
        }
      }
    }
  }

  /** In an accepted history every Serve comes right after a Refresh (or,
      at the very start, the monitor already stands right after one). */
  lemma {:induction false} ServeAfterRefresh(m: Monitor, t: seq<Call>)
    requires Replay(m, t).Some?
    ensures forall i :: 0 <= i < |t| && t[i] == ServeCall ==>
      if i == 0 then m.afterRefresh else t[i - 1] == RefreshCall
    decreases |t|
  {
    if t != [] {
      var m' := Next(m, t[0]).value;
      assert m'.afterRefresh <==> t[0] == RefreshCall;
      ServeAfterRefresh(m', t[1..]);
      forall i | 1 <= i < |t| && t[i] == ServeCall ensures t[i - 1] == RefreshCall {
        assert t[1..][i - 1] == ServeCall;
      }
    }
  }

  /** The lifecycle's ordering guarantees, for every run: Refresh precedes
      each Serve; two attempts are separated by an event; two Destroys are
      separated by a Refresh, and a channel that starts closed is not
      destroyed before a Refresh, so `close` never panics. */
  lemma RunDevicePluginOrdering(c: Config, s: Session, watcherOk: bool, events: seq<Event>, envs: nat -> IterEnv)
    requires Inv(s)
    ensures var t := RunDevicePlugin(c, s, watcherOk, events, envs).trace;
      && (forall i :: 0 <= i < |t| && t[i] == ServeCall ==> i > 0 && t[i - 1] == RefreshCall)
      && (forall i, j :: 0 <= i < j < |t| && t[i] == ServeCall && t[j] == ServeCall ==>
            exists k :: i < k < j && t[k].EventTaken?)
      && (forall i, j :: 0 <= i < j < |t| && t[i] == DestroyCall && t[j] == DestroyCall ==>
            exists k :: i < k < j && t[k] == RefreshCall)
      && (forall j :: 0 <= j < |t| && t[j] == DestroyCall && s.plugin.stopClosed ==>
            exists k :: 0 <= k < j && t[k] == RefreshCall)
  {
    var t := RunDevicePlugin(c, s, watcherOk, events, envs).trace;
    var m := Monitor(s.plugin.stopClosed, false, true);
    if watcherOk {
      RunFromMonitored(c, Loop(s, true), events, envs, 0, m);
    }
    assert Replay(m, t).Some?;
    ServeAfterRefresh(m, t);
    ServesSeparated(m, t);
    DestroysSeparated(m, t);
    forall j | 0 <= j < |t| && t[j] == DestroyCall && s.plugin.stopClosed
      ensures exists k :: 0 <= k < j && t[k] == RefreshCall
    {
      ClosedUntilRefresh(m, t, j);
    }
  }

  // ---------------------------------------------------------------------
  // Scenarios
  // ---------------------------------------------------------------------

  /** After a successful Stop the socket file is gone, so a Start whose
      Listen and dial work succeeds whatever `os.Remove` would have done. */
  lemma StopThenStart(s: Session, removeFails: bool, env: StartEnv)
    requires Inv(s) && s.server && Stop(s, removeFails).status.Ok?
    requires env.listenOk && env.dialOk
    ensures Start(Stop(s, removeFails).session, env).status.Ok?
  {
  }

  lemma OwnSocketRemovalStops(c: Config, l: Loop, removeFails: bool)
    requires Inv(l.session) && l.session.server
    ensures var h := Handle(c, l, FsEvent(c.socketName, Remove), removeFails);
      h.trace == [DestroyCall] && !h.terminated && h.loop.needToStart
  {
    var e := FsEvent(c.socketName, Remove);
    assert !KubeletCreated(e) by { assert Remove & Create == 0; }
    assert OwnSocketRemoved(c, e);
  }

  /** A serving plugin whose own socket is removed is stopped exactly once,
      and the next iteration refreshes and serves again. */
  lemma OwnSocketRemovalRestarts(c: Config, l: Loop, envs: nat -> IterEnv, k: nat)
    requires Inv(l.session) && l.session.server && !l.needToStart
    ensures var e := FsEvent(c.socketName, Remove);
      var t := RunFrom(c, l, [e], envs, k).trace;
      |t| >= 4 && t[..4] == [EventTaken(e), DestroyCall, RefreshCall, ServeCall]
  {
    OwnSocketRemovalStops(c, l, envs(k).stopRemoveFails);
  }

  /** A Register refusal rolls the session back: the attempt sends the
      request, Destroys the plugin, leaves no server and a closed channel,
      and keeps `needToStart`. */
  lemma RegisterRefusalRollsBack(c: Config, l: Loop, env: ServeEnv)
    requires Inv(l.session) && l.needToStart
    requires env.start == StartEnv(false, true, true) && env.register == RegisterEnv(true, false)
    ensures var a := Attempt(c, l, env);
      !a.loop.session.server && a.loop.session.plugin.stopClosed && a.loop.needToStart &&
      a.trace == [RefreshCall, ServeCall, RegisterCall(KubeletSocket, RegisterRequestFor(c.socketName, c.resourceName)), DestroyCall]
  {
    var s := l.session.(plugin := Refresh(l.session.plugin, c.outputs));
    assert Start(s, env.start).status.Ok?;
    var o := Serve(c, s, env);
    assert o.trace == [RegisterCall(KubeletSocket, RegisterRequestFor(c.socketName, c.resourceName)), DestroyCall];
  }

  /** After such a refusal the next event makes the loop try again. */
  lemma RegisterRefusalRetried(c: Config, l: Loop, envs: nat -> IterEnv, k: nat)
    requires Inv(l.session) && l.needToStart
    requires envs(k).serve.start == StartEnv(false, true, true)
    requires envs(k).serve.register == RegisterEnv(true, false)
    ensures var t := RunFrom(c, l, [WatchError], envs, k).trace;
      |t| >= 7 &&
      t[..7] == [RefreshCall, ServeCall, RegisterCall(KubeletSocket, RegisterRequestFor(c.socketName, c.resourceName)),
                 DestroyCall, EventTaken(WatchError), RefreshCall, ServeCall]
  {
    var a := Attempt(c, l, envs(k).serve);
    RegisterRefusalRollsBack(c, l, envs(k).serve);
    var h := Handle(c, a.loop, WatchError, envs(k).stopRemoveFails);
    assert h == Reaction(a.loop, [], false);
    var rest := RunFrom(c, a.loop, [WatchError][1..], envs, k + 1);
    var a2 := Attempt(c, a.loop, envs(k + 1).serve);
    assert [WatchError][1..] == [];
    assert rest.trace == a2.trace;
    AttemptFacts(c, a.loop, envs(k + 1).serve);
    var t := RunFrom(c, l, [WatchError], envs, k).trace;
    assert t == a.trace + [EventTaken(WatchError)] + rest.trace;
  }
}

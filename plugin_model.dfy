/** frame/plugin.go, as values: the restart-flag loop of the second wrapper
    variant. The loop keeps the current DevicePlugin and a `restart` flag;
    at the top of each iteration a pending restart stops the current plugin,
    constructs a fresh one and serves it, and only a successful Serve clears
    the flag; then one event is taken. Plugins are numbered in the order
    they are constructed, so the history can say which plugin each call is
    about. */
module PluginModel {
  import opened Wrappers
  import opened PluginApi
  import opened Watch

  /** One call of the loop on a plugin, or the event it took. */
  datatype Action =
    | StopPlugin(id: nat)
    | NewPlugin(id: nat)
    | ServePlugin(id: nat, ok: bool)
    | EventTaken(event: Event)

  /** The numbers of the plugins a history stops, in order. */
  function StopIds(t: seq<Action>): (ids: seq<nat>)
    ensures |ids| <= |t|
    decreases |t|
  {
    if t == [] then []
    else (if t[0].StopPlugin? then [t[0].id] else []) + StopIds(t[1..])
  }

  /** The stops of `a + b` are those of `a`, then those of `b`. */
  lemma {:induction false} StopIdsAppend(a: seq<Action>, b: seq<Action>)
    ensures StopIds(a + b) == StopIds(a) + StopIds(b)
    decreases |a|
  {
    if a == [] {
      assert a + b == b;
    } else {
      assert (a + b)[0] == a[0] && (a + b)[1..] == a[1..] + b;
      StopIdsAppend(a[1..], b);
    }
  }

  /** A restart's three actions stop exactly the plugin it replaces. */
  lemma StopIdsOfRestart(stopped: nat, serveOk: bool)
    ensures StopIds([StopPlugin(stopped), NewPlugin(stopped + 1), ServePlugin(stopped + 1, serveOk)]) == [stopped]
  {
    var t := [StopPlugin(stopped), NewPlugin(stopped + 1), ServePlugin(stopped + 1, serveOk)];
    assert t[1..][1..][1..] == [];
    assert StopIds(t[1..][1..]) == [];
    assert StopIds(t[1..]) == [];
  }

  /** The loop's state: the number of the current plugin and `restart`. */
  datatype Loop = Loop(current: nat, restart: bool)

  datatype Step = Step(loop: Loop, trace: seq<Action>)

  /** The socket a plugin built for `socketName` listens on. */
  function PluginSocket(socketName: string): (p: string)
    ensures |p| >= |DevicePluginPath| && p[..|DevicePluginPath|] == DevicePluginPath
  {
    DevicePluginPath + socketName
  }

  /** The top of an iteration (plugin.go:50-61). */
  function Attempt(l: Loop, serveOk: bool): (r: Step)
    // the plugin is replaced exactly when a restart is pending ...
    ensures r.loop.current == if l.restart then l.current + 1 else l.current
    ensures r.trace != [] <==> l.restart
    // ... and the flag survives only a failed Serve
    ensures r.loop.restart <==> l.restart && !serveOk
  {
    if !l.restart then Step(l, [])
    else
      var n := l.current + 1;
      Step(Loop(n, !serveOk), [StopPlugin(l.current), NewPlugin(n), ServePlugin(n, serveOk)])
  }

  predicate KubeletCreated(e: Event) {
    e.FsEvent? && e.name == KubeletSocket && HasOp(e.op, Create)
  }

  predicate OwnSocketRemoved(socket: string, e: Event) {
    e.FsEvent? && e.name == socket && HasOp(e.op, Remove)
  }

  /** The events after which a restart is pending. */
  predicate Restarts(socket: string, e: Event) {
    KubeletCreated(e) || OwnSocketRemoved(socket, e) || e == Sig(SIGHUP)
  }

  datatype Reaction = Reaction(loop: Loop, trace: seq<Action>, terminated: bool)

  /** The `select` on one event (plugin.go:63-87); `socket` is the current
      plugin's socket. */
  function Handle(socket: string, l: Loop, e: Event): (r: Reaction)
    ensures r.terminated <==> Terminates(e)
    ensures r.loop.current == l.current
    // the handler itself never stops a plugin unless it ends the loop ...
    ensures !r.terminated ==> r.trace == [] && (r.loop.restart <==> l.restart || Restarts(socket, e))
    // ... and then it stops the current one and changes nothing else
    ensures r.terminated ==> r.trace == [StopPlugin(l.current)] && r.loop == l
  {
    match e
    case FsEvent(name, op) =>
      var afterCreate := if name == KubeletSocket && HasOp(op, Create) then true else l.restart;
      var afterRemove := if name == socket && HasOp(op, Remove) then true else afterCreate;
      Reaction(Loop(l.current, afterRemove), [], false)
    case WatchError => Reaction(l, [], false)
    case Sig(s) =>
      if s == SIGHUP then Reaction(l.(restart := true), [], false)
      else Reaction(l, [StopPlugin(l.current)], true)
  }

  /** How a run ends: os.Exit(1) because the watcher could not be created,
      the loop left after a terminating signal, or the loop still waiting
      for an event when the given ones are used up. */
  datatype Outcome = WatcherSetupFailed | Terminated | Waiting

  datatype Run = Run(loop: Loop, trace: seq<Action>, outcome: Outcome)

  /** The loop from state `l` on `events`; iteration k (counted from the
      start of the run) serves with outcome `serveOk(k)`. */
  function RunFrom(socket: string, l: Loop, events: seq<Event>, serveOk: nat -> bool, k: nat): (r: Run)
    ensures r.outcome != WatcherSetupFailed
    decreases |events|
  {
    var a := Attempt(l, serveOk(k));
    if events == [] then Run(a.loop, a.trace, Waiting)
    else
      var h := Handle(socket, a.loop, events[0]);
      var t := a.trace + [EventTaken(events[0])] + h.trace;
      if h.terminated then Run(h.loop, t, Terminated)
      else
        var rest := RunFrom(socket, h.loop, events[1..], serveOk, k + 1);
        Run(rest.loop, t + rest.trace, rest.outcome)
  }

  /** One iteration of the loop at position i of the whole event list. */
  lemma RunFromAt(socket: string, l: Loop, events: seq<Event>, serveOk: nat -> bool, i: nat)
    requires i <= |events|
    ensures var r := RunFrom(socket, l, events[i..], serveOk, i);
      var a := Attempt(l, serveOk(i));
      if i == |events| then r == Run(a.loop, a.trace, Waiting)
      else
        var h := Handle(socket, a.loop, events[i]);
        var t := a.trace + [EventTaken(events[i])] + h.trace;
        if h.terminated then r == Run(h.loop, t, Terminated)
        else
          var rest := RunFrom(socket, h.loop, events[i + 1..], serveOk, i + 1);
          r == Run(rest.loop, t + rest.trace, rest.outcome)
  {
    if i < |events| {
      assert events[i..][0] == events[i] && events[i..][1..] == events[i + 1..];
    }
  }

  /** RunDevicePlugin for the wrapper built on `socketName` whose plugin is
      number `first`: the watcher, then the loop with `restart` set. */
  function RunDevicePlugin(socketName: string, first: nat, watcherOk: bool, events: seq<Event>, serveOk: nat -> bool): (r: Run)
    ensures r.outcome == WatcherSetupFailed <==> !watcherOk
    ensures !watcherOk ==> r.trace == [] && r.loop.current == first
  {
    if !watcherOk then Run(Loop(first, true), [], WatcherSetupFailed)
    else RunFrom(PluginSocket(socketName), Loop(first, true), events, serveOk, 0)
  }

  /** The numbers from `from` up to, not including, `to`. */
  function Span(from: nat, to: nat): seq<nat>
    requires from <= to
  {
    seq(to - from, i requires 0 <= i < to - from => from + i)
  }

  /** Adjacent spans join. */
  lemma SpanAppend(a: nat, b: nat, c: nat)
    requires a <= b <= c
    ensures Span(a, b) + Span(b, c) == Span(a, c)
  {
  }

  /** An attempt stops the current plugin exactly when it replaces it. */
  lemma AttemptStops(l: Loop, serveOk: bool)
    ensures StopIds(Attempt(l, serveOk).trace) == Span(l.current, Attempt(l, serveOk).loop.current)
  {
    if l.restart {
      StopIdsOfRestart(l.current, serveOk);
      assert Span(l.current, l.current + 1) == [l.current];
    } else {
      assert Span(l.current, l.current) == [];
    }
  }

  /** One iteration that takes an event stops what its attempt stops, and
      the current plugin as well when the event terminates the loop. */
  lemma IterationStops(socket: string, l: Loop, serveOk: bool, e: Event)
    ensures var a := Attempt(l, serveOk);
      var h := Handle(socket, a.loop, e);
      StopIds(a.trace + [EventTaken(e)] + h.trace)
        == Span(l.current, a.loop.current) + (if h.terminated then [a.loop.current] else [])
  {
    var a := Attempt(l, serveOk);
    var h := Handle(socket, a.loop, e);
    AttemptStops(l, serveOk);
    assert StopIds([EventTaken(e)]) == [];
    if h.terminated {
      assert h.trace[1..] == [];
    }
    StopIdsAppend(a.trace, [EventTaken(e)]);
    StopIdsAppend(a.trace + [EventTaken(e)], h.trace);
  }

  /** The plugins a run stops are numbered from the one it starts with up to
      the one it leaves current, in order, and that last one too when the run
      terminates: each restart stops the current plugin and constructs the
      next, and only the terminating signal stops the current one. */
  lemma {:induction false} RunFromStops(socket: string, l: Loop, events: seq<Event>, serveOk: nat -> bool, k: nat)
    ensures var r := RunFrom(socket, l, events, serveOk, k);
      l.current <= r.loop.current &&
      StopIds(r.trace) == Span(l.current, r.loop.current) + (if r.outcome == Terminated then [r.loop.current] else [])
    decreases |events|
  {
    if events == [] {
      AttemptStops(l, serveOk(k));
    } else {
      var a := Attempt(l, serveOk(k));
      var h := Handle(socket, a.loop, events[0]);
      var t := a.trace + [EventTaken(events[0])] + h.trace;
      IterationStops(socket, l, serveOk(k), events[0]);
      if !h.terminated {
        var rest := RunFrom(socket, h.loop, events[1..], serveOk, k + 1);
        var last: seq<nat> := if rest.outcome == Terminated then [rest.loop.current] else [];
        RunFromStops(socket, h.loop, events[1..], serveOk, k + 1);
        assert StopIds(t) == Span(l.current, a.loop.current);
        StopIdsAppend(t, rest.trace);
        SpanAppend(l.current, a.loop.current, rest.loop.current);
        calc {
          StopIds(t + rest.trace);
          Span(l.current, a.loop.current) + (Span(a.loop.current, rest.loop.current) + last);
          Span(l.current, rest.loop.current) + last;
        }
      }
    }
  }

  /** The same for a whole run: a run stops plugins `first`, `first + 1`, ...
      up to the one it leaves current, that one included only when the run
      terminates; a run that cannot set up its watcher stops nothing. */
  lemma RunDevicePluginStops(socketName: string, first: nat, watcherOk: bool, events: seq<Event>, serveOk: nat -> bool)
    ensures var r := RunDevicePlugin(socketName, first, watcherOk, events, serveOk);
      first <= r.loop.current &&
      StopIds(r.trace) == Span(first, r.loop.current) + (if r.outcome == Terminated then [r.loop.current] else [])
  {
    if watcherOk {
      RunFromStops(PluginSocket(socketName), Loop(first, true), events, serveOk, 0);
    } else {
      assert Span(first, first) == [];
    }
  }

  // ---------------------------------------------------------------------
  // What the loop's history satisfies
  // ---------------------------------------------------------------------

  /** A reader of the history. From `Ready(c)`, with plugin c current, it
      accepts an event or the stop of plugin c; a stopped plugin c must be
      followed by the construction of plugin c+1, which must be served
      next; after a terminating event only the stop of the current plugin
      may follow, and then nothing. */
  datatype Monitor =
    | Ready(current: nat)
    | Stopped(current: nat)
    | Created(current: nat)
    | ShuttingDown(current: nat)
    | Finished

  function Next(m: Monitor, a: Action): Option<Monitor> {
    match m
    case Ready(c) =>
      (match a
       case StopPlugin(id) => if id == c then Some(Stopped(c)) else None
       case EventTaken(e) => if Terminates(e) then Some(ShuttingDown(c)) else Some(Ready(c))
       case _ => None)
    case Stopped(c) => if a == NewPlugin(c + 1) then Some(Created(c + 1)) else None
    case Created(n) => if a.ServePlugin? && a.id == n then Some(Ready(n)) else None
    case ShuttingDown(c) => if a == StopPlugin(c) then Some(Finished) else None
    case Finished => None
  }

  /** The history `t` read from `m`: `None` if some action is rejected,
      otherwise the final state. */
  function Replay(m: Monitor, t: seq<Action>): Option<Monitor>
    decreases |t|
  {
    if t == [] then Some(m)
    else match Next(m, t[0])
      case None => None
      case Some(m') => Replay(m', t[1..])
  }

  /** One step of reading an accepted history. */
  lemma ReplayUnfold(m: Monitor, t: seq<Action>)
    requires Replay(m, t).Some?
    ensures t == [] ==> Replay(m, t) == Some(m)
    ensures t != [] ==> Next(m, t[0]).Some? && Replay(m, t) == Replay(Next(m, t[0]).value, t[1..])
  {
  }

  /** The states in which a history may end: no restart is half done. */
  predicate Settled(m: Monitor) {
    m.Ready? || m.Finished?
  }

  /** Reading `a + b` is reading `a`, then `b` from where `a` left off. */
  lemma {:induction false} ReplayAppend(m: Monitor, a: seq<Action>, b: seq<Action>)
    ensures Replay(m, a + b) == match Replay(m, a) case None => None case Some(m') => Replay(m', b)
    decreases |a|
  {
    if a != [] {
      assert (a + b)[0] == a[0];
      assert (a + b)[1..] == a[1..] + b;
      match Next(m, a[0])
      case None =>
      case Some(m') => ReplayAppend(m', a[1..], b);
    } else {
      assert a + b == b;
    }
  }

  lemma AttemptMonitored(l: Loop, serveOk: bool)
    ensures var a := Attempt(l, serveOk);
      Replay(Ready(l.current), a.trace) == Some(Ready(a.loop.current))
  {
    if l.restart {
      var n := l.current + 1;
      var t := [StopPlugin(l.current), NewPlugin(n), ServePlugin(n, serveOk)];
      assert t[2..][1..] == [];
      assert Replay(Created(n), t[2..]) == Some(Ready(n));
      assert t[1..][1..] == t[2..];
      assert Replay(Stopped(l.current), t[1..]) == Some(Ready(n));
    }
  }

  lemma HandleMonitored(socket: string, l: Loop, e: Event)
    ensures var h := Handle(socket, l, e);
      Replay(Ready(l.current), [EventTaken(e)] + h.trace) ==
        Some(if h.terminated then Finished else Ready(l.current))
  {
    var h := Handle(socket, l, e);
    assert ([EventTaken(e)] + h.trace)[1..] == h.trace;
    if h.terminated {
      assert h.trace[1..] == [];
      assert Replay(ShuttingDown(l.current), h.trace) == Some(Finished);
    } else {
      assert Replay(Ready(l.current), h.trace) == Some(Ready(l.current));
    }
  }

  /** Every history of the loop is accepted and ends settled. */
  lemma {:induction false} RunFromMonitored(socket: string, l: Loop, events: seq<Event>, serveOk: nat -> bool, k: nat)
    ensures var r := RunFrom(socket, l, events, serveOk, k);
      Replay(Ready(l.current), r.trace).Some? && Settled(Replay(Ready(l.current), r.trace).value)
    decreases |events|
  {
    var a := Attempt(l, serveOk(k));
    AttemptMonitored(l, serveOk(k));
    if events != [] {
      var h := Handle(socket, a.loop, events[0]);
      HandleMonitored(socket, a.loop, events[0]);
      ReplayAppend(Ready(l.current), a.trace, [EventTaken(events[0])] + h.trace);
      var t := a.trace + [EventTaken(events[0])] + h.trace;
      assert t == a.trace + ([EventTaken(events[0])] + h.trace);
      if !h.terminated {
        RunFromMonitored(socket, h.loop, events[1..], serveOk, k + 1);
        ReplayAppend(Ready(l.current), t, RunFrom(socket, h.loop, events[1..], serveOk, k + 1).trace);
      }
    }
  }

  /** A construction comes right after the stop of the plugin before it. */
  lemma {:induction false} StopBeforeNew(m: Monitor, t: seq<Action>)
    requires Replay(m, t).Some?
    ensures forall i :: 0 <= i < |t| && t[i].NewPlugin? ==>
      t[i].id > 0 &&
      if i == 0 then m == Stopped(t[i].id - 1) else t[i - 1] == StopPlugin(t[i].id - 1)
    decreases |t|
  {
    if t != [] {
      var m' := Next(m, t[0]).value;
      StopBeforeNew(m', t[1..]);
      forall i | 0 < i < |t| && t[i].NewPlugin?
        ensures t[i - 1] == StopPlugin(t[i].id - 1)
      {
        assert t[1..][i - 1] == t[i];
        if i == 1 {
          assert m' == Stopped(t[i].id - 1);
        }
      }
    }
  }

  /** A Serve comes right after the construction of the plugin it serves. */
  lemma {:induction false} NewBeforeServe(m: Monitor, t: seq<Action>)
    requires Replay(m, t).Some?
    ensures forall i :: 0 <= i < |t| && t[i].ServePlugin? ==>
      if i == 0 then m == Created(t[i].id) else t[i - 1] == NewPlugin(t[i].id)
    decreases |t|
  {
    if t != [] {
      var m' := Next(m, t[0]).value;
      NewBeforeServe(m', t[1..]);
      forall i | 0 < i < |t| && t[i].ServePlugin?
        ensures t[i - 1] == NewPlugin(t[i].id)
      {
        assert t[1..][i - 1] == t[i];
        if i == 1 {
          assert m' == Created(t[i].id);
        }
      }
    }
  }

  /** In a settled history a stop at position i is followed by the
      construction of the next plugin, unless it is the last action and
      comes right after a terminating event (or, at i = 0, the history
      starts shutting down). */
  lemma {:induction false} StopExplainedAt(m: Monitor, t: seq<Action>, i: nat)
    requires Replay(m, t).Some? && Settled(Replay(m, t).value)
    requires i < |t| && t[i].StopPlugin?
    ensures (i + 1 < |t| && t[i + 1] == NewPlugin(t[i].id + 1)) ||
            (i == 0 && |t| == 1 && m == ShuttingDown(t[i].id)) ||
            (0 < i && i + 1 == |t| && t[i - 1].EventTaken? && Terminates(t[i - 1].event))
    decreases i
  {
    var m' := Next(m, t[0]).value;
    assert Replay(m, t) == Replay(m', t[1..]);
    if i == 0 {
      if m.Ready? {
        assert m' == Stopped(t[0].id);
        ReplayUnfold(m', t[1..]);
      } else {
        assert m' == Finished;
        ReplayUnfold(m', t[1..]);
      }
    } else {
      StopExplainedAt(m', t[1..], i - 1);
      assert t[1..][i - 1] == t[i];
      if i + 1 < |t| {
        assert t[1..][i] == t[i + 1];
      } else if i > 1 {
        assert t[1..][i - 2] == t[i - 1];
      } else {
        assert m' == ShuttingDown(t[1].id);
      }
    }
  }

  lemma StopsExplained(m: Monitor, t: seq<Action>)
    requires Replay(m, t).Some? && Settled(Replay(m, t).value) && m.Ready?
    ensures forall i {:trigger t[i]} :: 0 <= i < |t| && t[i].StopPlugin? ==>
      (i + 1 < |t| && t[i + 1] == NewPlugin(t[i].id + 1)) ||
      (0 < i && i + 1 == |t| && t[i - 1].EventTaken? && Terminates(t[i - 1].event))
  {
    forall i {:trigger t[i]} | 0 <= i < |t| && t[i].StopPlugin?
      ensures (i + 1 < |t| && t[i + 1] == NewPlugin(t[i].id + 1)) ||
              (0 < i && i + 1 == |t| && t[i - 1].EventTaken? && Terminates(t[i - 1].event))
    {
      StopExplainedAt(m, t, i);
    }
  }

  /** The least number a plugin stopped from `m` on can carry. */
  function Floor(m: Monitor): nat {
    match m
    case Ready(c) => c
    case Stopped(c) => c + 1
    case Created(c) => c
    case ShuttingDown(c) => c
    case Finished => 0
  }

  lemma {:induction false} StopsFromFloor(m: Monitor, t: seq<Action>)
    requires Replay(m, t).Some?
    ensures forall j :: 0 <= j < |t| && t[j].StopPlugin? ==> t[j].id >= Floor(m)
    decreases |t|
  {
    if t != [] {
      var m' := Next(m, t[0]).value;
      StopsFromFloor(m', t[1..]);
      ReplayUnfold(m', t[1..]);
      forall j | 0 < j < |t| && t[j].StopPlugin? ensures t[j].id >= Floor(m) {
        assert t[1..][j - 1] == t[j];
      }
    }
  }

  /** No plugin is stopped twice: the stops come in increasing number. */
  lemma {:induction false} StopsIncrease(m: Monitor, t: seq<Action>)
    requires Replay(m, t).Some?
    ensures forall i, j :: 0 <= i < j < |t| && t[i].StopPlugin? && t[j].StopPlugin? ==> t[i].id < t[j].id
    decreases |t|
  {
    if t != [] {
      var m' := Next(m, t[0]).value;
      StopsIncrease(m', t[1..]);
      StopsFromFloor(m', t[1..]);
      ReplayUnfold(m', t[1..]);
      forall i, j | 0 <= i < j < |t| && t[i].StopPlugin? && t[j].StopPlugin?
        ensures t[i].id < t[j].id
      {
        assert t[1..][j - 1] == t[j];
        if i > 0 {
          assert t[1..][i - 1] == t[i];
        }
      }
    }
  }

  /** The order a history of the loop keeps: each construction comes right
      after the stop of the plugin before it, each Serve right after the
      construction of its plugin, each stop is followed by the next
      construction or is the final action after a terminating event, and
      stops come in increasing plugin number, so no plugin is stopped twice. */
  predicate Ordered(t: seq<Action>) {
    && (forall i :: 0 <= i < |t| && t[i].NewPlugin? ==> 0 < i && 0 < t[i].id && t[i - 1] == StopPlugin(t[i].id - 1))
    && (forall i :: 0 <= i < |t| && t[i].ServePlugin? ==> 0 < i && t[i - 1] == NewPlugin(t[i].id))
    && (forall i :: 0 <= i < |t| && t[i].StopPlugin? ==>
          (i + 1 < |t| && t[i + 1] == NewPlugin(t[i].id + 1)) ||
          (0 < i && i + 1 == |t| && t[i - 1].EventTaken? && Terminates(t[i - 1].event)))
    && (forall i, j :: 0 <= i < j < |t| && t[i].StopPlugin? && t[j].StopPlugin? ==> t[i].id < t[j].id)
  }

  /** Every settled history read from a Ready monitor keeps that order. */
  lemma HistoryOrdered(first: nat, t: seq<Action>)
    requires Replay(Ready(first), t).Some? && Settled(Replay(Ready(first), t).value)
    ensures Ordered(t)
  {
    StopBeforeNew(Ready(first), t);
    NewBeforeServe(Ready(first), t);
    StopsExplained(Ready(first), t);
    StopsIncrease(Ready(first), t);
  }

  /** Every run of the loop keeps that order. */
  lemma RunDevicePluginOrdering(socketName: string, first: nat, watcherOk: bool, events: seq<Event>, serveOk: nat -> bool)
    ensures Ordered(RunDevicePlugin(socketName, first, watcherOk, events, serveOk).trace)
  {
    if watcherOk {
      RunFromMonitored(PluginSocket(socketName), Loop(first, true), events, serveOk, 0);
      HistoryOrdered(first, RunDevicePlugin(socketName, first, watcherOk, events, serveOk).trace);
    }
  }

  /** What a run leaves: a terminating run ends with the stop of its final
      plugin; a waiting run still has a restart pending exactly when the
      last thing it did was a failed Serve of the current plugin. */
  lemma {:induction false} RunOutcomes(socket: string, l: Loop, events: seq<Event>, serveOk: nat -> bool, k: nat)
    requires l.restart
    ensures var r := RunFrom(socket, l, events, serveOk, k);
      r.trace != [] &&
      (r.outcome == Terminated ==> r.trace[|r.trace| - 1] == StopPlugin(r.loop.current)) &&
      (r.outcome == Waiting ==> (r.loop.restart <==> r.trace[|r.trace| - 1] == ServePlugin(r.loop.current, false)))
  {
    WaitingEnds(socket, l, events, serveOk, k);
  }

  lemma {:induction false} WaitingEnds(socket: string, l: Loop, events: seq<Event>, serveOk: nat -> bool, k: nat)
    ensures var r := RunFrom(socket, l, events, serveOk, k);
      (r.trace == [] <==> events == [] && !l.restart) &&
      (r.trace == [] ==> r.loop == l) &&
      (r.outcome == Terminated ==> r.trace[|r.trace| - 1] == StopPlugin(r.loop.current)) &&
      (r.outcome == Waiting && r.trace != [] ==>
         (r.loop.restart <==> r.trace[|r.trace| - 1] == ServePlugin(r.loop.current, false)))
    decreases |events|
  {
    var a := Attempt(l, serveOk(k));
    if events != [] {
      var h := Handle(socket, a.loop, events[0]);
      var t := a.trace + [EventTaken(events[0])] + h.trace;
      if !h.terminated {
        var rest := RunFrom(socket, h.loop, events[1..], serveOk, k + 1);
        WaitingEnds(socket, h.loop, events[1..], serveOk, k + 1);
        if rest.trace == [] {
          assert t + rest.trace == t;
          assert t[|t| - 1] == EventTaken(events[0]);
        } else {
          assert (t + rest.trace)[|t + rest.trace| - 1] == rest.trace[|rest.trace| - 1];
        }
      }
    }
  }

  // ---------------------------------------------------------------------
  // Two runs written out
  // ---------------------------------------------------------------------

  /** A Serve that fails is retried only after the next event, here a
      watcher error, and a SIGTERM then stops the plugin that was served. */
  lemma ServeFailureRetried(socketName: string, serveOk: nat -> bool)
    requires !serveOk(0) && serveOk(1)
    ensures var r := RunDevicePlugin(socketName, 0, true, [WatchError, Sig(SIGTERM)], serveOk);
      r.outcome == Terminated &&
      r.trace == [StopPlugin(0), NewPlugin(1), ServePlugin(1, false), EventTaken(WatchError),
                  StopPlugin(1), NewPlugin(2), ServePlugin(2, true), EventTaken(Sig(SIGTERM)),
                  StopPlugin(2)]
  {
    var events := [WatchError, Sig(SIGTERM)];
    assert events[1..] == [Sig(SIGTERM)];
  }

  /** Removing the plugin's own socket restarts it; the stop happens at the
      top of the next iteration, not in the handler. */
  lemma OwnSocketRemovalRestarts(socketName: string, serveOk: nat -> bool)
    requires serveOk(0) && serveOk(1)
    ensures var r := RunDevicePlugin(socketName, 0, true, [FsEvent(PluginSocket(socketName), Remove)], serveOk);
      r.outcome == Waiting && !r.loop.restart && r.loop.current == 2 &&
      r.trace == [StopPlugin(0), NewPlugin(1), ServePlugin(1, true), EventTaken(FsEvent(PluginSocket(socketName), Remove)),
                  StopPlugin(1), NewPlugin(2), ServePlugin(2, true)]
  {
    var e := FsEvent(PluginSocket(socketName), Remove);
    assert HasOp(Remove, Remove) && !HasOp(Remove, Create);
    var l1 := Loop(1, false);
    var h := Handle(PluginSocket(socketName), l1, e);
    assert h == Reaction(Loop(1, true), [], false);
    assert Attempt(Loop(0, true), serveOk(0)).loop == l1;
    var rest := RunFrom(PluginSocket(socketName), Loop(1, true), [e][1..], serveOk, 1);
    assert [e][1..] == [];
    assert rest == Run(Loop(2, false), [StopPlugin(1), NewPlugin(2), ServePlugin(2, true)], Waiting);
  }
}

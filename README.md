# simple-device-plugin, modelled in Dafny

simple-device-plugin is a small framework for Kubernetes device plugins (the
kubelet's v1alpha device-plugin API). Its `frame` package serves one
plugin's gRPC socket under `/var/lib/kubelet/device-plugins/`, registers it
with the kubelet and keeps it alive. It watches that directory and the
process's signals: when the kubelet restarts, the plugin's own socket
disappears, or SIGHUP arrives, it tears the session down and starts again.
Any other signal makes it shut down. Two programs use it, and both advertise
one healthy device per CPU counted in `/proc/cpuinfo`.

The package holds two variants of the wrapper, and this model keeps each in
its own module:

- `frame/device-plugin-wrapper.go` with `frame/simple-wrapper.go`. The
  wrapper owns the gRPC server and socket of an embedded `SimpleDevicePlugin`.
  A restart Stops the session (which Destroys the plugin, closing its stop
  channel), Refreshes the plugin (new device list, new channel) and Serves
  again: it Starts the server, then Registers.
- `frame/plugin.go`. The wrapper holds one opaque `DevicePlugin` at a time.
  A restart stops it, constructs a new one and serves that; the handler only
  sets a `restart` flag.

Each stateful piece of the source is a Dafny class, and the two
device-enumeration loops (`SimpleDp.GetDevices`, `Example.GetCpuDevices`)
are methods with loop invariants. The class methods are proved
to change an abstract state as a pure function does: `WrapperModel` for the
first variant and `PluginModel` for the second. The calls a method makes are
recorded in a ghost trace, and each recorded call is tied by the contract to
its effect. A Destroy is tied to the closed channel, and a Refresh to the
callback's call count. A Register is tied to the RPC the method returns. A
plugin stop in the plugin.go variant is tied to the plugin object it
stopped. The lemmas about the functions carry the guarantees. For every run of the
event loop:

- the plugin's channel is never closed twice;
- a Serve always follows a fresh Refresh;
- a failed attempt is retried only after the next event;
- in the second variant, no plugin is stopped twice;
- in the second variant, each restart is stop, construct, serve, in that
  order.

The loops are driven by the events they take, in order. Every external
outcome is an input: `os.Remove`, `net.Listen`, the readiness dial, the
kubelet dial, the Register RPC, the watcher's creation, each Serve of an
opaque plugin, and each callback answer.

Modules and files:

| file | module | source |
|---|---|---|
| wrappers.dfy | `Wrappers` | `Option` |
| plugin_api.dfy | `PluginApi` | the v1alpha messages and constants the core uses |
| watch.dfy | `Watch` | fsnotify events, error and signal events |
| producer.dfy | `Producer` | a device callback (`GetDevicesFunc` / `GetDeviceFunc`) |
| go_lib.dfy | `GoLib` | `strings.Count`, `strconv.Itoa`, `path.Base` |
| simple_dp.dfy | `SimpleDp` | simple-dp.go `getDevices` |
| wrapper_model.dfy | `WrapperModel` | values and lemmas for device-plugin-wrapper.go and simple-wrapper.go |
| simple_wrapper.dfy | `SimpleWrapper`, `SimpleWrapperBuild` | simple-wrapper.go |
| device_plugin_wrapper.dfy | `WrapperFrame` | device-plugin-wrapper.go |
| plugin_model.dfy | `PluginModel` | values and lemmas for plugin.go |
| plugin.dfy | `PluginFrame` | plugin.go |
| example.dfy | `Example` | example.go |

## Model

| member | source | states |
|---|---|---|
| GoLib.Count | simple-dp.go:23-24 | `strings.Count`: leftmost non-overlapping occurrences; never more than fit into the text |
| GoLib.CountZeroIff | simple-dp.go:23-25 | the count is zero exactly when the substring does not occur |
| GoLib.Itoa | simple-dp.go:30-33 | `strconv.Itoa` of a natural: a decimal numeral with no leading zero |
| GoLib.AtoiItoa | simple-dp.go:32 | the numeral reads back as the number it was made from |
| GoLib.ItoaInjective | simple-dp.go:30-33 | distinct numbers give distinct numerals, so device IDs are unique |
| GoLib.Base | frame/device-plugin-wrapper.go:165 | `path.Base`: "." for the empty path, "/" for slashes only, otherwise the text after the last '/' once trailing slashes are dropped; never empty |
| GoLib.StripTrailingSlashesFacts | frame/device-plugin-wrapper.go:165 | the first step of `path.Base` yields a prefix with no trailing '/', and only slashes are removed |
| GoLib.LastSlashFacts | frame/device-plugin-wrapper.go:165 | the position found holds a '/' and no later position does; -1 when there is none |
| GoLib.BaseFacts | frame/device-plugin-wrapper.go:165 | `path.Base` is never empty, and is either "/" or free of '/' |
| GoLib.BaseOfJoin | frame/device-plugin-wrapper.go:165 | the base of a directory ending in '/' joined with a plain name is that name |
| Producer.DeviceProducer.Call | frame/simple-wrapper.go:8 | a call returns the callback's next answer and counts one call |
| SimpleDp.CpuInfoDevices | simple-dp.go:13-36 | `getDevices` as a value: a non-empty list comes from a readable file whose two counts agree, one device per physical id |
| SimpleDp.CpuInfoDevicesFacts | simple-dp.go:13-36 | an unreadable file gives no devices. There are devices exactly when the "physical id" and "processor" counts agree and are non-zero; then there are as many as physical ids. Entry i is healthy and named by i, and names are distinct |
| SimpleDp.NoPhysicalIdNoDevices | simple-dp.go:23-28 | a cpuinfo text with no "physical id" entry yields no devices |
| SimpleDp.GetDevices | simple-dp.go:13-36 | the loop builds exactly the list `CpuInfoDevices` describes |
| WrapperModel.Refresh | frame/simple-wrapper.go:30-34 | the list becomes the callback's next answer, the channel is a new open one, and the callback has been called once more |
| WrapperModel.Destroy | frame/simple-wrapper.go:36-38 | requires an open channel and closes it; the list and the call count are kept |
| WrapperModel.RefreshTimesYieldsLatest | frame/simple-wrapper.go:30-34 | after any run of Refreshes the list is the callback's latest answer, whatever it held before, and the channel is open |
| WrapperModel.Build | frame/device-plugin-wrapper.go:32-38 | the stored socket path is the registration directory followed by the given name; the resource name and the callback are kept |
| WrapperModel.Cleanup | frame/device-plugin-wrapper.go:196-202 | success exactly when the file is absent or its removal works; success leaves no file |
| WrapperModel.Start | frame/device-plugin-wrapper.go:114-138 | Start succeeds exactly when cleanup, Listen and the dial all succeed. The server is set once Listen has worked, even if the dial then fails. Start never touches the plugin |
| WrapperModel.RegisterRequestFor | frame/device-plugin-wrapper.go:163-167 | the request carries version v1alpha, the given resource name and a non-empty endpoint, the base name of the socket path |
| WrapperModel.RegisterEndpointIsSocketName | frame/device-plugin-wrapper.go:163-167 | for a plain socket file name the announced endpoint is that name, with version v1alpha and the given resource name |
| WrapperModel.Register | frame/device-plugin-wrapper.go:155-174 | success exactly when the dial and the RPC both do; a request is sent exactly when the dial works |
| WrapperModel.Stop | frame/device-plugin-wrapper.go:141-152 | without a server nothing happens and nil is returned. Otherwise the server is cleared, the plugin is Destroyed once, and cleanup's result is returned |
| WrapperModel.StopIdempotent | frame/device-plugin-wrapper.go:141-144 | a second Stop changes nothing and succeeds |
| WrapperModel.Serve | frame/device-plugin-wrapper.go:177-194 | success exactly when Start and Register both do. A Start failure is returned as it is. The server is left consistent with the channel |
| WrapperModel.ServeRollsBack | frame/device-plugin-wrapper.go:185-190 | Destroy happens exactly when Start worked and Register failed, and then no server is left and the plugin is the Destroyed one |
| WrapperModel.Attempt | frame/device-plugin-wrapper.go:56-63 | with `needToStart` clear nothing happens; otherwise a Refresh and one Serve, keeping the channel invariant |
| WrapperModel.AttemptFacts | frame/device-plugin-wrapper.go:56-63 | an attempt Refreshes before it Serves, so it installs the callback's latest list. `needToStart` survives exactly a failed Serve, and a successful one leaves a server on an open channel |
| WrapperModel.StopAndRestart | frame/device-plugin-wrapper.go:70-71 | after Stop no server is left and `needToStart` is set |
| WrapperModel.Handle | frame/device-plugin-wrapper.go:65-93 | every event keeps the invariant that a live server has an open channel |
| WrapperModel.HandleTransitions | frame/device-plugin-wrapper.go:65-93 | the handler ends the loop exactly on a signal other than SIGHUP. A watcher error or an unrelated FS event changes nothing. A kubelet-socket Create, an own-socket Remove or SIGHUP Stops the session (Destroy only if a server was live) and sets `needToStart`. Any other signal Stops and terminates |
| WrapperModel.RunFrom | frame/device-plugin-wrapper.go:54-94 | every iteration keeps the invariant, and a run never ends as a watcher failure |
| WrapperModel.RunFromTerminates | frame/device-plugin-wrapper.go:82-91 | the loop ends by a signal exactly when one of the events is a signal other than SIGHUP, and it then leaves no server; otherwise it waits for more events |
| WrapperModel.RunDevicePlugin | frame/device-plugin-wrapper.go:40-52 | a watcher failure exits with status 1 before the loop, and only then |
| WrapperModel.ClosedUntilRefresh | frame/simple-wrapper.go:36-38 | from a closed channel no Destroy happens before a Refresh |
| WrapperModel.DestroysSeparated | frame/simple-wrapper.go:30-38 | two Destroys in a history always have a Refresh between them |
| WrapperModel.NoServeUntilEvent | frame/device-plugin-wrapper.go:55-66 | once a Serve has been made, the next needs an event before it |
| WrapperModel.ServesSeparated | frame/device-plugin-wrapper.go:55-66 | two Serves always have an event taken between them, so a failed attempt is retried only after the next event |
| WrapperModel.ServeAfterRefresh | frame/device-plugin-wrapper.go:56-58 | every Serve comes right after a Refresh |
| WrapperModel.RunDevicePluginOrdering | frame/device-plugin-wrapper.go:40-95 | for every run: Refresh right before each Serve, an event between Serves, a Refresh between Destroys, and no Destroy of an initially closed channel before a Refresh. So `close` never panics |
| WrapperModel.StopThenStart | frame/device-plugin-wrapper.go:141-152 | after a successful Stop a Start succeeds whenever Listen and the dial do, whatever removal would do |
| WrapperModel.OwnSocketRemovalStops | frame/device-plugin-wrapper.go:74-78 | removing a serving plugin's own socket Destroys it once and sets `needToStart` |
| WrapperModel.OwnSocketRemovalRestarts | frame/device-plugin-wrapper.go:56-78 | that removal is followed by exactly event, Destroy, Refresh, Serve |
| WrapperModel.RegisterRefusalRollsBack | frame/device-plugin-wrapper.go:185-190 | an attempt whose Register is refused rolls the session back: no server, channel closed, `needToStart` kept. Its calls are Refresh, Serve, the Register, Destroy |
| WrapperModel.RegisterRefusalRetried | frame/device-plugin-wrapper.go:55-66 | after that refusal and the next event, the loop Refreshes and Serves again |
| SimpleWrapper.Channel.Close | frame/simple-wrapper.go:37 | closing a channel requires it to be open |
| SimpleWrapper.ListAndWatchServer.Send | frame/simple-wrapper.go:17 | a send appends one response to the stream |
| SimpleWrapper.SimpleDevicePlugin.constructor | frame/simple-wrapper.go:41-45 | the list is the callback's answer; the channel is fresh and open; the callback is stored |
| SimpleWrapper.SimpleDevicePlugin.Refresh | frame/simple-wrapper.go:30-34 | the state becomes `WrapperModel.Refresh` of the old, on a fresh channel |
| SimpleWrapper.SimpleDevicePlugin.Destroy | frame/simple-wrapper.go:36-38 | requires an open channel and closes it; nothing else changes |
| SimpleWrapper.SimpleDevicePlugin.ListAndWatch | frame/simple-wrapper.go:16-24 | exactly one response with the current list is sent; the call has returned nil exactly when the channel is closed |
| SimpleWrapper.SimpleDevicePlugin.Allocate | frame/simple-wrapper.go:26-28 | every request gets the empty response and no error |
| SimpleWrapperBuild.BuildSimpleDevicePlugin | frame/simple-wrapper.go:40-48 | a fresh plugin holding the callback's answer on an open channel, wrapped by Build with no server, and satisfying the invariant |
| WrapperFrame.SocketFile.constructor | frame/device-plugin-wrapper.go:196-202 | the file-system entry at the socket path, present or not as given |
| WrapperFrame.DevicePluginWrapper.Build | frame/device-plugin-wrapper.go:32-38 | the socket path is the registration directory plus the name; the resource name and implementation are kept; no server |
| WrapperFrame.DevicePluginWrapper.Cleanup | frame/device-plugin-wrapper.go:196-202 | the file and the error follow `WrapperModel.Cleanup` |
| WrapperFrame.DevicePluginWrapper.Start | frame/device-plugin-wrapper.go:114-138 | the new state and the error follow `WrapperModel.Start` |
| WrapperFrame.DevicePluginWrapper.Stop | frame/device-plugin-wrapper.go:141-152 | the new state, the error and the calls made follow `WrapperModel.Stop` |
| WrapperFrame.DevicePluginWrapper.Register | frame/device-plugin-wrapper.go:155-174 | the RPC goes out exactly when the dial works. It is addressed to the endpoint it was given and carries version v1alpha, the base name of the socket path and the resource name. The RPC and the error are those of `WrapperModel.Register` |
| WrapperFrame.DevicePluginWrapper.Serve | frame/device-plugin-wrapper.go:177-194 | the new state, the error and the calls made follow `WrapperModel.Serve`. The Register call in the trace is the one `Register` returns, addressed to the kubelet socket |
| WrapperFrame.DevicePluginWrapper.AttemptStart | frame/device-plugin-wrapper.go:56-63 | the top of an iteration follows `WrapperModel.Attempt` and keeps the invariant |
| WrapperFrame.DevicePluginWrapper.StopForRestart | frame/device-plugin-wrapper.go:70-71 | a Stop whose error is dropped, as `WrapperModel.StopAndRestart` |
| WrapperFrame.DevicePluginWrapper.HandleEvent | frame/device-plugin-wrapper.go:65-93 | the `select` body follows `WrapperModel.Handle` |
| WrapperFrame.DevicePluginWrapper.Iterate | frame/device-plugin-wrapper.go:55-93 | one iteration that takes an event is the step `WrapperModel.RunFrom` takes there, and keeps the invariant |
| WrapperFrame.DevicePluginWrapper.Settle | frame/device-plugin-wrapper.go:56-63 | the attempt after the last event is what `WrapperModel.RunFrom` does on no events: it ends the run as waiting |
| WrapperFrame.DevicePluginWrapper.RunDevicePlugin | frame/device-plugin-wrapper.go:40-95 | the outcome, the final state and the calls made are those of `WrapperModel.RunDevicePlugin`; the invariant holds at the end |
| PluginModel.PluginSocket | frame/plugin.go:55 | a plugin's socket lies in the registration directory |
| PluginModel.Attempt | frame/plugin.go:50-61 | the plugin is replaced exactly when a restart is pending, and `restart` survives exactly a failed Serve |
| PluginModel.Handle | frame/plugin.go:63-87 | the handler ends the loop exactly on a signal other than SIGHUP, and then stops the current plugin and nothing else. Otherwise it stops nothing: `restart` becomes set exactly on a kubelet-socket Create, an own-socket Remove or SIGHUP, and is kept as it was otherwise (a watcher error included) |
| PluginModel.RunFrom | frame/plugin.go:46-88 | the loop ends only by a signal or by waiting for an event |
| PluginModel.RunDevicePlugin | frame/plugin.go:34-47 | a watcher failure exits with status 1 before the loop, and only then, leaving everything as it was |
| PluginModel.StopBeforeNew | frame/plugin.go:50-55 | every construction comes right after the stop of the plugin before it |
| PluginModel.NewBeforeServe | frame/plugin.go:55-56 | every Serve comes right after the construction of the plugin it serves |
| PluginModel.StopExplainedAt | frame/plugin.go:50-86 | in a completed history a stop is followed by the next construction, unless it is the last action and comes right after a terminating signal |
| PluginModel.StopsExplained | frame/plugin.go:50-86 | the same for all positions at once |
| PluginModel.StopsFromFloor | frame/plugin.go:50-55 | no plugin older than the current one is stopped later |
| PluginModel.StopsIncrease | frame/plugin.go:50-86 | stops come in increasing plugin number: no plugin is stopped twice |
| PluginModel.HistoryOrdered | frame/plugin.go:50-86 | every history the monitor accepts is `Ordered`: stop before each construction, construction before each Serve, each stop explained, stops increasing |
| PluginModel.RunDevicePluginOrdering | frame/plugin.go:34-89 | for every run: stop before each construction, construction before each Serve, each stop either part of a restart or the final one after a terminating signal, and no double stop |
| PluginModel.AttemptStops | frame/plugin.go:50-56 | an attempt stops the current plugin exactly when it replaces it |
| PluginModel.IterationStops | frame/plugin.go:50-87 | an iteration stops what its attempt stops, and the current plugin as well when its event terminates the loop |
| PluginModel.RunFromStops | frame/plugin.go:46-88 | a run stops the plugins numbered from the one it starts with up to the one it leaves current, in order; that last one is included exactly when the run terminates |
| PluginModel.RunDevicePluginStops | frame/plugin.go:34-89 | the same for a whole run from plugin `first`; a watcher failure stops nothing |
| PluginModel.RunOutcomes | frame/plugin.go:56-60 | in a run started with `restart` set, a terminated run ends with the stop of its final plugin. A waiting run has a restart pending exactly when its last action was a failed Serve of the current plugin |
| PluginModel.WaitingEnds | frame/plugin.go:46-88 | the same for any starting state; a run does nothing exactly when it has no events and no restart pending |
| PluginModel.ServeFailureRetried | frame/plugin.go:56-61 | a failed Serve is retried after the next event, here a watcher error; a SIGTERM then stops the plugin that serves |
| PluginModel.OwnSocketRemovalRestarts | frame/plugin.go:70-73 | removing the own socket stops nothing in the handler; the next iteration stops, constructs and serves |
| PluginFrame.DevicePlugin.constructor | frame/plugin.go:55 | a new plugin on the socket for the wrapper's socket name, neither serving nor stopped |
| PluginFrame.DevicePlugin.Serve | frame/plugin.go:56 | the outcome is the given one and becomes whether the plugin serves |
| PluginFrame.DevicePlugin.Stop | frame/plugin.go:52 | the plugin is stopped and no longer serves |
| PluginFrame.DevicePluginWrapper.constructor | frame/plugin.go:25-30 | the wrapper holds the plugin, the names and the device function |
| PluginFrame.DevicePluginWrapper.AttemptRestart | frame/plugin.go:50-61 | follows `PluginModel.Attempt`. A restart stops the old plugin, which no longer serves, and leaves a fresh one that serves exactly when `restart` is cleared. The stopped plugin is reported. Without a restart nothing changes |
| PluginFrame.DevicePluginWrapper.HandleEvent | frame/plugin.go:63-87 | follows `PluginModel.Handle`. Only a terminating signal stops the plugin; then it is stopped and reported |
| PluginFrame.DevicePluginWrapper.Iterate | frame/plugin.go:50-87 | one iteration that takes an event is the step `PluginModel.RunFrom` takes there. The plugins stopped so far, numbered in order from the first, are extended by those this iteration stops, each of them stopped. A plugin left with no restart pending serves |
| PluginFrame.DevicePluginWrapper.Settle | frame/plugin.go:50-61 | the attempt after the last event is what `PluginModel.RunFrom` does on no events. It ends the run as waiting, with a plugin serving exactly when no restart is pending, and extends the list of stopped plugins in order |
| PluginFrame.DevicePluginWrapper.RunDevicePlugin | frame/plugin.go:34-89 | the outcome, the calls made and the final plugin are those of `PluginModel.RunDevicePlugin`. A terminated run leaves its plugin stopped. A waiting run leaves it serving exactly when no restart is pending. A watcher failure changes nothing; otherwise the final plugin is a fresh one. The plugin objects the run stopped are numbered first, first + 1, ... up to the final one, which is included only when the run terminates. Each of them is really stopped, and by `PluginModel.RunDevicePluginStops` they are the plugins the trace's stops name |
| PluginFrame.Build | frame/plugin.go:20-31 | asks for the devices once and returns nil exactly when there are none. Otherwise it returns a fresh wrapper with the given names and function and a fresh plugin on its socket |
| Example.GetCpuDevices | example.go:20-43 | the loop builds exactly the list `SimpleDp.CpuInfoDevices` describes |
| Example.EnumerationsAgree | example.go:20-43 | `getCpuDevices` and simple-dp.go's `getDevices` return the same list on every input |
| Example.MainOutcomeAsWritten | example.go:13-18 | `main` as written panics exactly when there are no devices and the watcher is created |
| Example.UnreadableCpuInfoPanics | example.go:16-17 | with /proc/cpuinfo unreadable, `main` as written panics |
| Example.NoPhysicalIdPanics | example.go:16-17 | so it does on a cpuinfo text without "physical id" entries |
| Example.MainOutcomeWithNilCheck | example.go:13-18 | with the nil check, `main` never panics, runs nothing exactly when there are no devices, and otherwise does what the code as written does |
| Example.MainAsWritten | example.go:13-18 | running `main` on a callback that reads /proc/cpuinfo ends as `MainOutcomeAsWritten` says |
| Example.MainWithNilCheck | example.go:13-18 | the corrected `main` ends as `MainOutcomeWithNilCheck` says |

## Findings

| source | as written | input that shows it | evidently intended | confidence | as-written member | corrected member |
|---|---|---|---|---|---|---|
| example.go:16-17 | `main` calls `RunDevicePlugin` on whatever `Build` returned. `Build` returns nil when the device list is empty. On a nil wrapper, RunDevicePlugin creates the watcher and then dereferences the wrapper at frame/plugin.go:51, which panics | /proc/cpuinfo unreadable, or without "physical id" entries, and the FS watcher created | `main` stops without running the loop when `Build` returns nil | not executed | Example.MainOutcomeAsWritten | Example.MainOutcomeWithNilCheck |

`Example.UnreadableCpuInfoPanics` and `Example.NoPhysicalIdPanics` exhibit
the panic of the code as written; `Example.MainWithNilCheck` is the corrected
`main`.

## Notes on the code

- frame/device-plugin-wrapper.go and frame/plugin.go both declare
  `DevicePluginWrapper` and `Build` in the same package, so they cannot be
  compiled together as shown. The model keeps them apart. example.go passes
  a function to `Build`, which matches the plugin.go variant;
  simple-wrapper.go uses the other.
- In the first variant, a Start whose readiness dial fails returns an error
  with `server` already set. Serve returns that error without calling Stop.
  If the next event is a watcher error or an FS event that neither test
  matches, the next attempt Refreshes (a new channel) and Starts again, and
  the old server is overwritten without being stopped. A restart event (a
  kubelet-socket Create, a Remove of its own socket, or SIGHUP) Stops it
  first, which also Destroys the plugin. The model has the same behaviour
  (`WrapperModel.Start` and `WrapperModel.HandleTransitions` state it). It
  does not violate the invariant, because the plugin's channel is open at
  that point.
- In the plugin.go variant, the plugin Build constructs is stopped at the
  first iteration without ever being served, and a fresh one is constructed.

## Left out

- gRPC, sockets and the kubelet are not modelled. `net.Listen`, the blocking
  dials, each `os.Remove` of an existing file and the Register RPC are
  inputs, given as boolean outcomes. The socket file that gRPC's
  `server.Stop` may unlink is not tracked: the file is cleared only by
  cleanup's `os.Remove`.
- `Serve` of a plugin.go `DevicePlugin` and its effects are not modelled.
  `NewDevicePlugin` and `DevicePlugin` are not part of this model; the
  plugin is represented by its socket, a stopped flag and a serving flag.
  Its socket is assumed to be the registration directory plus the socket
  name, as the other variant's Build builds it.
- The `dpw.DevicePlugin != nil` test at frame/plugin.go:51 is always true
  inside the loop once Build has succeeded, so `PluginFrame` keeps the field
  non-null and stops unconditionally.
- fsnotify and `os/signal` are not modelled as concurrent sources. Instead,
  the events the `select` takes are given as one sequence, and a run that
  exhausts it ends as `Waiting`. Watcher and channel closing on return
  (`defer watcher.Close()`) is not modelled.
- `os.Exit(1)` is the outcome `WatcherSetupFailed`. Logging (`glog`),
  `flag.Parse` and `glog.Flush` are left out.
- SimpleWrapper.SimpleDevicePlugin.ListAndWatch: the Go stream blocks until
  the stop channel is closed. The model records whether the call has
  returned (`ReturnedNil`) or is still waiting (`WaitingForStop`), and says
  nothing about a channel closed later.
- `Allocate`'s context argument and the `Empty` argument of ListAndWatch
  are not represented.
- `DevicePluginImpl` (frame/device-plugin-wrapper.go:16-21) is an
  interface; the wrapper is modelled only over its one implementation,
  `SimpleDevicePlugin` of frame/simple-wrapper.go. Other implementations are
  not covered.
- Device IDs and file contents are Dafny strings, one character per byte;
  no UTF-8 decoding is modelled (cpuinfo is ASCII).
- The constants `Version` ("v1alpha"), `DevicePluginPath` and
  `KubeletSocket` come from the kubelet's v1alpha API package. That package
  is not part of this model, so they are written out in `PluginApi`.
- examples/heathCheckDP.go is left out. It is a time-driven health pusher
  built on a ticker, the wall clock and channels, and its Refresh and
  Destroy repeat simple-wrapper.go.
- The `main` of simple-dp.go is only wiring: `BuildSimpleDevicePlugin` (modelled) followed by
  `RunDevicePlugin` (modelled).
- The `dial` helper is not modelled: it is the readiness and kubelet dial
  outcome.
- Go's pointers to `Device` values are modelled as the values themselves:
  nothing in the core mutates a device after creating it.

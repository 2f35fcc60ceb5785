/** The events a running plugin reacts to: what the registration-directory
    watcher and the signal watcher deliver. */
module Watch {

  /** fsnotify's operation bits; an event's op may carry several of them. */
  type Op = bv32
  const Create: Op := 1
  const Write: Op := 2
  const Remove: Op := 4
  const Rename: Op := 8
  const Chmod: Op := 16

  /** The four signals the OS watcher is asked for. */
  datatype Signal = SIGHUP | SIGINT | SIGTERM | SIGQUIT

  datatype Event =
    | FsEvent(name: string, op: Op)   // a watcher event: full path and op bits
    | WatchError                      // a value on the watcher's error channel
    | Sig(signal: Signal)             // a signal from the OS watcher

  /** The events after which both wrapper loops end: any signal but SIGHUP. */
  predicate Terminates(e: Event) {
    e.Sig? && e.signal != SIGHUP
  }

  /** `event.Op&bit == bit`, as the event handlers test it. */
  predicate HasOp(op: Op, bit: Op) {
    op & bit == bit
  }
}

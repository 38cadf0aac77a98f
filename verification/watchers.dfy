/**
  Watchers: the records libev hangs its state on (deps/ev/ev.h).  The C code
  gives every watcher type a common prefix and casts between them; here one
  class carries the fields of all modelled types.
 */
module Watchers {

  datatype Option<+T> = None | Some(value: T)

  const EV_MINPRI: int := -2
  const EV_MAXPRI: int := 2
  const NUMPRI: nat := 5

  // The event bits, each a power of two in the C code; a mask is the set of its bits, so | is +.
  datatype Flag = Read | Write | IoFdSet | TimerDue | PeriodicDue | Error | EmaskEperm

  type Mask = set<Flag>

  class Watcher {
    // shared by all watchers
    var active: int
    var pending: int
    var priority: int

    // ev_watcher_time, ev_timer, ev_periodic
    var at: real
    var repeat: real
    var offset: real
    var interval: real
    var reschedule_cb: Option<real -> real>

    // ev_watcher_list, ev_io
    var next: Watcher?
    var fd: int
    var events: Mask

    // ev_init: neither active nor pending, priority 0
    constructor ()
      ensures active == 0 && pending == 0 && priority == 0 && next == null
      ensures at == 0.0 && repeat == 0.0 && interval == 0.0 && reschedule_cb == None
    {
      active, pending, priority := 0, 0, 0;
      at, repeat, offset, interval := 0.0, 0.0, 0.0, 0.0;
      reschedule_cb := None;
      next := null;
      fd, events := 0, {};
    }

    // ABSPRI: the index of the pending stack
    function AbsPri(): int
      reads this`priority
    {
      priority - EV_MINPRI
    }

    predicate HasPriority()
      reads this`priority
    {
      EV_MINPRI <= priority <= EV_MAXPRI
    }
  }
}

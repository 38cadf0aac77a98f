/**
  How long one iteration of ev_run (deps/ev/ev.c) may block.
 */
module BlockTimes {
  import opened Basics
  import opened FourHeap
  import opened TimeHeaps

  const MAX_BLOCKTIME: real := 59.743

  // the loop may block for t without missing when anything is due: every active timer and periodic
  // is due no earlier, up to the two configured minima
  ghost predicate NotTooLong(t: real, timers: TimeHeap, periodics: TimeHeap, mn_now: real, rt_now: real, least: real)
    reads timers, timers.ws`active, timers.ws`at, periodics, periodics.ws`active, periodics.ws`at
  {
    && t <= MaxReal(MAX_BLOCKTIME, least)
    && (forall w :: w in timers.Members() ==> t <= MaxReal(w.at - mn_now, least))
    && (forall w :: w in periodics.Members() ==> t <= MaxReal(w.at - rt_now, least))
  }

  // there is a reason not to block for longer than t
  ghost predicate NotTooShort(t: real, timers: TimeHeap, periodics: TimeHeap, mn_now: real, rt_now: real, least: real)
    reads timers, timers.ws`active, timers.ws`at, periodics, periodics.ws`active, periodics.ws`at
  {
    || t == MAX_BLOCKTIME || t == least
    || (exists w :: w in timers.Members() && t == w.at - mn_now)
    || (exists w :: w in periodics.Members() && t == w.at - rt_now)
  }

  // the time until the heaps need attention
  method UntilDue(timers: TimeHeap, periodics: TimeHeap, mn_now: real, rt_now: real) returns (waittime: real)
    requires timers.Valid() && periodics.Valid()
    ensures waittime <= MAX_BLOCKTIME
    ensures forall w :: w in timers.Members() ==> waittime <= w.at - mn_now
    ensures forall w :: w in periodics.Members() ==> waittime <= w.at - rt_now
    ensures waittime == MAX_BLOCKTIME
      || (exists w :: w in timers.Members() && waittime == w.at - mn_now)
      || (exists w :: w in periodics.Members() && waittime == w.at - rt_now)
  {
    waittime := MAX_BLOCKTIME;
    if timers.cnt > 0 {
      timers.RootIsFirst();
      var to := timers.heap[HEAP0].at - mn_now;
      if waittime > to { waittime := to; }
    } else {
      timers.EmptyHeap();
    }
    if periodics.cnt > 0 {
      periodics.RootIsFirst();
      var to := periodics.heap[HEAP0].at - rt_now;
      if waittime > to { waittime := to; }
    } else {
      periodics.EmptyHeap();
    }
  }

  // how long to wait altogether, no less than the two minima
  method WaitTime(timers: TimeHeap, periodics: TimeHeap, mn_now: real, rt_now: real,
                  timeout_blocktime: real, backend_mintime: real) returns (waittime: real)
    requires timers.Valid() && periodics.Valid()
    ensures var least := MaxReal(timeout_blocktime, backend_mintime);
            && waittime >= least && NotTooLong(waittime, timers, periodics, mn_now, rt_now, least) == true
            && NotTooShort(waittime, timers, periodics, mn_now, rt_now, least) == true
  {
    waittime := UntilDue(timers, periodics, mn_now, rt_now);
    if waittime < timeout_blocktime {
      waittime := timeout_blocktime;
    }
    if waittime < backend_mintime {
      waittime := backend_mintime;
    }
  }

  // The sleep before the poll, in which I/O events gather: together with the time elapsed it makes no more than
  // io_blocktime, and less only if the poll is left with the least it may wait.
  predicate SleepsRightly(slept: real, waittime: real, elapsed: real, io_blocktime: real, backend_mintime: real) {
    && slept >= 0.0 && (io_blocktime == 0.0 ==> slept == 0.0)
    && (slept > 0.0 ==> elapsed + slept <= io_blocktime)
    && (io_blocktime != 0.0 ==> elapsed + slept >= io_blocktime || waittime == backend_mintime)
  }

  // the block-time part of ev_run; `now` says that blocking is out of the question
  method BlockTime(now: bool, timers: TimeHeap, periodics: TimeHeap, prev_mn_now: real, mn_now: real, rt_now: real,
                   timeout_blocktime: real, io_blocktime: real, backend_mintime: real)
    returns (slept: real, waittime: real)
    requires timers.Valid() && periodics.Valid()
    ensures now ==> slept == 0.0 && waittime == 0.0
    ensures !now ==> waittime >= backend_mintime
    ensures !now ==> SleepsRightly(slept, waittime, mn_now - prev_mn_now, io_blocktime, backend_mintime)
    ensures var total, least := slept + waittime, MaxReal(timeout_blocktime, backend_mintime);
            now || (total >= least && NotTooLong(total, timers, periodics, mn_now, rt_now, least) == true
                    && NotTooShort(total, timers, periodics, mn_now, rt_now, least) == true)
  {
    slept, waittime := 0.0, 0.0;
    if !now {
      waittime := WaitTime(timers, periodics, mn_now, rt_now, timeout_blocktime, backend_mintime);
      slept, waittime := SleepFirst(waittime, mn_now - prev_mn_now, io_blocktime, backend_mintime);
    }
  }

  // the part of it that sleeps
  method SleepFirst(total: real, elapsed: real, io_blocktime: real, backend_mintime: real)
    returns (slept: real, waittime: real)
    requires total >= backend_mintime
    ensures slept + waittime == total && waittime >= backend_mintime
    ensures SleepsRightly(slept, waittime, elapsed, io_blocktime, backend_mintime)
  {
    slept, waittime := 0.0, total;
    if io_blocktime != 0.0 {
      var sleeptime := io_blocktime - elapsed;
      if sleeptime > waittime - backend_mintime {
        sleeptime := waittime - backend_mintime;
      }
      if sleeptime > 0.0 {
        slept := sleeptime;
        waittime := waittime - sleeptime;
      }
    }
  }
}

# A verified model of libev's event-loop core and of the cometd client

The repository is a C client for the Bayeux publish/subscribe protocol, with the
libev event loop vendored in `deps/ev`.  This project models, in Dafny, the parts
whose correctness is hardest to see from any one function, and proves what they
are for.

**The event loop** (`deps/ev/ev.c`, default configuration: 4-ary heaps with cached
keys, priorities -2..2).

* `heap.dfy`, `timeheap.dfy`: the heap that starts at slot 3, with back-indices kept
  in the watchers.  `TimeHeap.Valid` says what the assertions of `verify_heap`
  check, and more: every active watcher is in the heap.  All operations keep it.
* `timers.dfy`, `periodics.dfy`, `recalc.dfy`: starting, stopping, expiring and
  rescheduling timers.  `TimerLoop.Replay` shows that any run of these operations does to
  the heap what `TimerRun` does to a plain set of timers.
* `pending.dfy`, `pendingqueue.dfy`: pending stacks.  The first file is about what the
  stacks do, over whole runs and with callbacks that feed and clear watchers; the
  second has the code with its back-indices, proved against the first.
* `callorder.dfy`, `ledger.dfy`, `expiry.dfy`: in what order a dispatch calls what it
  finds, that each slot is called exactly once, and what this means for expired timers.
* `blocktime.dfy`: how long an iteration may block.
* `fds.dfy`, `wlist.dfy`, `poll.dfy`, `select.dfy`: interest in descriptors, kept in
  watcher lists that change at once and pushed lazily into a backend, which may kill
  descriptors while that goes on.
* `wakeup.dfy`: the wakeup protocol between any number of senders and the loop, as a
  state machine with one shared access per step.
* `turnspec.dfy`, `loopturn.dfy`: whole runs of `ev_run` with timers, periodics and I/O
  watchers on one loop, where callbacks start and stop any of them and the clock may jump.
  The first file says, between values, what each part of a turn does to what is started
  and what is pending; the second has the code, proved against the first.
* `arrays.dfy`, `watchers.dfy`, `basics.dfy`: array growth, the watcher record, and
  small functions used in several files.

**The client** (`src/`).

* `channels.dfy`, `listeners.dfy`: message routing.  The index that is probed with an
  enumerated list of patterns gives the same answer as a scan of all listeners.
* `reconnect.dfy`: the handshake and the receive loop, and exactly when they give up.

Conventions.  Time stamps are exact reals.  Event masks and `fd_set` words are sets of
their bits, so that the C operators `|`, `&` and `&~` are `+`, `*` and `-`.
`HPARENT` divides by truncation, which is written out.  What the code leaves to
assertions or to its callers (a descriptor that is not negative, a repeat interval that
is not negative, a reschedule callback that does not answer with the past) is a
precondition.  Ghost parameters such as `pri` or `key` are snapshots that later
conditions refer to.

Where the comments and the code disagree the code is followed: the comments in
`cometd_listener_add` (src/event.c:59-75) speak of prepending a subscription, and the
code appends it.

Two promises do not hold without a condition.  A listener for a bare `*` or `**` is
never found, although these patterns glob channels: `MatchesAreGlobs` gives the exact
condition and `BareStarsMissed` an instance.  The comment in `epoll_modify`
(deps/ev/ev_epoll.c:76-83) assumes that the kernel still has the recorded mask when it
already knows the descriptor: `KernelFollows` and `StrandedDecides` say exactly when,
and `FailedModStrands` is a history in which it has not.

## Model

| member | source | states |
|---|---|---|
| FourHeap.RootIsLeast | deps/ev/ev.c:1667-1788 | in an ordered heap no key is below that of the root |
| FourHeap.Downheap | deps/ev/ev.c:1667-1708 | a heap that is ordered but for a too large key in one slot becomes ordered, is permuted, and every back-index is right again |
| FourHeap.Upheap | deps/ev/ev.c:1747-1766 | the same for a too small key |
| FourHeap.Overwritten | deps/ev/ev.c:3302-3306 | a heap with one slot overwritten by anything is a case for upheap or for downheap, as adjustheap decides |
| FourHeap.Adjustheap | deps/ev/ev.c:1769-1776 | repairs any one bad slot, whichever way it has to move, with order, back-indices and contents |
| FourHeap.Reheap | deps/ev/ev.c:1780-1788 | turns any array of distinct watchers into a heap with the same contents and right back-indices |
| TimeHeaps.TimeHeap.StartAt | deps/ev/ev.c:3268-3280 | one more active watcher with the given key; heap valid, all other keys and members as before |
| TimeHeaps.TimeHeap.Remove | deps/ev/ev.c:3294-3307 | one watcher fewer, wherever it sat; heap valid |
| TimeHeaps.TimeHeap.MoveTo | deps/ev/ev.c:3325-3330 | a new key for a member; heap valid, same members |
| TimeHeaps.TimeHeap.RootIsFirst | deps/ev/ev.c:2511-2523 | the root of a valid heap is an active watcher, its cached key is the watcher's, and nobody is due earlier |
| TimeHeaps.TimeHeap.Rebuild | deps/ev/ev.c:2840 | whatever was done to the keys in place, reheap makes the heap valid with the same members |
| TimeHeaps.TimeHeap.Shift | deps/ev/ev.c:2845-2856 | moving all keys by the same amount keeps the heap valid without any sifting |
| Timers.TimerLoop.Start | deps/ev/ev.c:3263-3284 | the timer is active, its key is relative to the loop time, nothing happens if it was active |
| Timers.TimerLoop.Stop | deps/ev/ev.c:3287-3314 | the timer is neither active nor pending, its key is what remained |
| Timers.TimerLoop.Again | deps/ev/ev.c:3317-3341 | restarted by its repeat value, or stopped if it has none, and not pending |
| Timers.TimerLoop.TimersReify | deps/ev/ev.c:2714-2748 | terminates; feeds exactly the timers due on entry, once each, in order of expiry; repeating ones get a key that is not in the past, the others stop; nothing due is left; the pending stacks are those of feeding backwards |
| Timers.TimerLoop.Replay | deps/ev/ev.c:2714-3341 | for every sequence of start, stop, again, set, new repeat values, reify, reschedule and clock changes the heap stays valid and keys and active timers are those of the plain set model TimerRun |
| Timers.RenewedIsLeast | deps/ev/ev.c:2729-2731 | the next key of a repeating timer is the least time that is neither before now nor less than one repeat after the old key |
| Timers.ReifyOne | deps/ev/ev.c:2726-2738 | what an expiry does to one timer: nothing if it is not due, that key if it repeats, and otherwise it stops |
| Timers.NoDrift | deps/ev/ev.c:2729-2731 | over every run that leaves a repeating timer to its expiries and sees to each no later than one repeat after its key, the key is the first key plus one repeat for each expiry, and the clock adjustments |
| Timers.StopKeepsTimeLeft | deps/ev/ev.c:3263-3307 | a timer that is stopped and later started again has as much time left as it had |
| Timers.TimerLoop.ReifyAndInvoke | deps/ev/ev.c:2672-2748 | timers_reify and then ev_invoke_pending: exactly the timers due on entry expire, in order, and are rescheduled or stopped; the dispatch works off the stacks that this leaves, to the end; each expired timer is called, or the dummy if a callback cleared it, and those of one priority that were not pending before in the order of their expiry |
| Expiry.EarliestUppermost | deps/ev/ev.c:1431-1444 | after an expiry the watchers of a priority that were not pending lie on top of its stack, the first to expire uppermost; those already pending have the bit added in their slot |
| Expiry.CalledInOrderOfExpiry | deps/ev/ev.c:2672-2685 | in every completed dispatch after an expiry, of two expired watchers of one priority, neither pending before, the first to expire is called first; these are their first calls, unless a callback cleared them by then |
| Expiry.TwoBatches | deps/ev/ev.c:3065-3069 | two batches of different watchers, fed one after the other: each is called in the order of its expiry, and at one priority the later batch before the earlier one |
| Expiry.BatchOwes | deps/ev/ev.c:2723-2743 | after a batch a one-shot in it, and whoever was not pending, owes just the bit of the batch, another watcher in it that beside what it owed, and all others what they owed |
| Expiry.BothCalled | deps/ev/ev.c:3065-3082 | in every completed dispatch after two batches each watcher of both is called, or the dummy if a callback cleared it, whether it was pending before or not |
| Recalculation.PeriodicRecalc | deps/ev/ev.c:2753-2774 | terminates with a time after now and at most one interval later: on the grid, or, if the interval is below MIN_INTERVAL, counted from the last point of the grid of that width |
| Recalculation.NextOnGridUnique | deps/ev/ev.c:2753-2774 | there is only one such point, so the method cannot answer with another |
| Recalculation.NextOnFineGridUnique | deps/ev/ev.c:2753-2774 | and only one such point if the interval is below MIN_INTERVAL |
| Recalculation.NextOnGridLeast | deps/ev/ev.c:2753-2774 | the point on the grid is the first one after now |
| Periodics.PeriodicLoop.Start | deps/ev/ev.c:3351-3378 | active, with the key its callback, its interval or its offset says |
| Periodics.PeriodicLoop.Stop | deps/ev/ev.c:3381-3406 | neither active nor pending |
| Periodics.PeriodicLoop.Again | deps/ev/ev.c:3409-3415 | active with a new key, not pending |
| Periodics.PeriodicLoop.PeriodicsReify | deps/ev/ev.c:2777-2818 | feeds exactly the periodics due on entry, once each, in order; each is rescheduled once or stopped; the outer loop makes at most one batch |
| Periodics.PeriodicLoop.PeriodicsReschedule | deps/ev/ev.c:2822-2841 | recalculates every active periodic and re-establishes the heap |
| Periodics.PeriodicLoop.ReifyAndInvoke | deps/ev/ev.c:2672-2818 | the same for periodics, with what their rules say of the new keys |
| Periodics.PeriodicLoop.Replay | deps/ev/ev.c:2777-3415 | for every sequence of start, stop, again, new rules, reify, reschedule and clock changes the heap stays valid and each step is one that the rules of a plain set of periodics allow |
| Periodics.ReifyOne | deps/ev/ev.c:2790-2809 | what an expiry does to one periodic: nothing if it is not due; what its callback says of now; the first point of its grid after now; or it stops |
| Periodics.IntervalsKeepTheGrid | deps/ev/ev.c:2753-2841 | over every run that leaves an interval periodic active its key lies on its grid, however late it is seen to and wherever the clock jumps |
| PendingQueues.PendingQueue.FeedEvent | deps/ev/ev.c:1415-1429 | the back-index finds the slot a search would find; the mask is added there, or a slot is created |
| PendingQueues.PendingQueue.ClearPending | deps/ev/ev.c:3167-3175 | the slot goes to the dummy watcher with its mask, nobody else is affected |
| PendingQueues.PendingQueue.FeedReverseDone | deps/ev/ev.c:1438-1444 | terminates and feeds the collected watchers, the last one first |
| PendingQueues.PendingQueue.InvokePending | deps/ev/ev.c:2672-2685 | calls the slots as Dispatches says, whatever the callbacks feed and clear meanwhile, and leaves nothing it should have called |
| PendingQueues.PendingQueue.GreaterPriorityFirst | deps/ev/ev.c:2672-2685 | of two pending watchers the one with the greater priority is called first, whatever the callbacks do |
| PendingStacks.RunSettles | deps/ev/ev.c:1415-1429 | in every run each watcher has at most one slot, the slot carries the OR of the masks fed since the last call or clear, and every call delivers just that |
| PendingStacks.RunConserves | deps/ev/ev.c:2672-2685 | in every run the slots still there and the calls made add up to the slots created, and the dummy's slots and calls to the slots cleared |
| Ledgers.RunBalances | deps/ev/ev.c:1415-1429 | slot by slot: each slot ever created is either on the stack, with all that was fed to it, or was called exactly once, by a call that delivered just that to its watcher or, if it was cleared, to the dummy |
| Ledgers.DispatchBalances | deps/ev/ev.c:2672-2685 | the same at every turn of a dispatch whose callbacks feed and clear watchers, with the calls the dispatcher makes |
| Ledgers.DispatchSettles | deps/ev/ev.c:2672-2685 | after a completed dispatch every slot of a stack the dispatcher still looks at was called exactly once |
| CallOrder.EverySlotTaken | deps/ev/ev.c:2672-2685 | a completed dispatch takes every slot it found, on whatever stack |
| CallOrder.TakenIsCalled | deps/ev/ev.c:2672-2685 | the turn that takes a slot calls its watcher, or the dummy if a callback cleared the watcher before |
| CallOrder.SlotIsCalled | deps/ev/ev.c:2672-2685 | whoever has a slot when a dispatch begins is called in it, or the dummy in its place if a callback cleared it before |
| CallOrder.UpperFirst | deps/ev/ev.c:2672-2685 | whatever the callbacks do, a slot is taken only after all slots that were above it |
| CallOrder.UpperCalledFirst | deps/ev/ev.c:2672-2685 | the same in terms of watchers: the one in the upper slot has its first call before the one in the lower slot, unless callbacks clear them |
| CallOrder.HigherCalledFirst | deps/ev/ev.c:2672-2685 | the same for slots of different stacks: the one of higher priority has its first call before the other |
| PendingStacks.EveryCallIsDue | deps/ev/ev.c:2672-2685 | every call of a dispatch to a proper watcher delivers the OR of exactly the masks fed since it was last called or cleared, by callbacks of any priority too |
| PendingStacks.FeedBackShape | deps/ev/ev.c:1431-1444 | feeding a batch backwards adds the bit to slots that exist and puts the others on top, the first of the batch uppermost |
| PendingStacks.FeedBackPerPriority | deps/ev/ev.c:1431-1444 | batches of mixed priorities do not mix in the stacks |
| PendingStacks.DispatchDetermined | deps/ev/ev.c:2672-2685 | the stacks and what the callbacks do determine the calls and their order |
| PendingStacks.QuietDispatchDrains | deps/ev/ev.c:2672-2685 | if callbacks leave the stacks alone every slot is called once, higher priorities first, each stack from the top |
| BlockTimes.BlockTime | deps/ev/ev.c:3002-3043 | the time slept and the poll timeout together exceed neither the time until any active timer or periodic is due nor the built-in limit, save for the configured minima, and are not shorter without a reason; the time slept and the time elapsed together make no more than io_blocktime, and less only if the poll is left with backend_mintime; a loop that blocks polls for at least backend_mintime |
| WatcherLists.WlistDel | deps/ev/ev.c:3151-3164 | takes one element off a linked list, wherever it is, and changes nothing if it is not there |
| Descriptors.FdLoop.IoStart | deps/ev/ev.c:3221-3241 | the interest in the descriptor grows by the watcher's events at once, the backend hears of it later, and will hear of it even if the events are the same when the watcher was set since it was last started |
| Descriptors.FdLoop.IoStop | deps/ev/ev.c:3244-3260 | the watcher is off its list and not pending, other descriptors are not affected |
| Descriptors.FdLoop.FdKill | deps/ev/ev.c:1567-1577 | every watcher of the descriptor is stopped and owes exactly the error, read and write bits; no other one is killed |
| Descriptors.FdLoop.FdReify | deps/ev/ev.c:1493-1548 | terminates although epoll_modify may kill descriptors and queue further changes; no reify flag and no change is left, every descriptor's events are the OR over its watchers, the backend agrees, and watchers lost on the way are stopped and told |
| Descriptors.FdLoop.EpollModify | deps/ev/ev_epoll.c:70-139 | whatever epoll_ctl answers: the calls are ADD or MOD and then perhaps the other, and are in the log with the events asked for; emask is then the mask asked for, or the refusal, which lists the descriptor; the descriptor is killed exactly when the last call fails for good |
| Descriptors.KernelFollows | deps/ev/ev_epoll.c:76-83 | over any history, with the descriptor closed and opened again at any time, the recorded mask stays right iff no call fails for good while the kernel watches for something else, and then the kernel watches for the new events after every turn that was neither refused nor fatal |
| Descriptors.StrandedDecides | deps/ev/ev_epoll.c:76-83 | such a failure is exactly what spoils the future: from then on the kernel follows in every history without a further one iff there was none |
| Descriptors.FailedModStrands | deps/ev/ev_epoll.c:110-117 | a history of three turns that ends with a live descriptor for which the kernel watches for the wrong events |
| Descriptors.KernelWatches | deps/ev/ev_epoll.c:70-139 | replaying against a kernel what epoll_modify was called for and what it was answered, with descriptors closed in between, the record is the one epoll_modify left, and without a stranded turn the kernel watches for just that unless the descriptor was refused, killed, or closed since |
| Descriptors.FdLoop.EpollAgreement | deps/ev/ev.c:1493-1564 | after every history of starts, stops, sets and reifies in which descriptors are closed at any time, then a reify, epoll was last told the interest of each descriptor, and in every account of the kernel without a stranded turn it watches for exactly that, save where it was refused or killed, or closed and not started by a watcher set since |
| Descriptors.FdLoop.Reopened | deps/ev/ev.c:1522-1545 | a descriptor that is closed and opened again under its number, and for which a watcher is set and started again, be it for the same events: the next fd_reify tells epoll of it, and the kernel watches for what is asked |
| Descriptors.StaleUnwatched | deps/ev/ev.c:3237 | a descriptor of which epoll was not told since it was closed may be one that the kernel does not watch, whatever it did before |
| Descriptors.FdLoop.EventReaches | deps/ev/ev.c:1457-1470 | what fd_event feeds reaches every active watcher of the descriptor that asks for one of the events, once, with just the events it asks for, and nobody else |
| Descriptors.FdLoop.FdEvent | deps/ev/ev.c:1474-1481 | feeds that to the pending stacks, unless the descriptor has a change that fd_reify has not seen |
| Descriptors.FdLoop.ReifyStep | deps/ev/ev.c:1493-1548 | who is active after fd_reify: all but those killed, who were active before and are all the watchers of their descriptors; the stacks are the old ones with these kills, and the backend watches for what the others ask for |
| Descriptors.FdLoop.Poll | deps/ev/ev.c:1474-1481 | of what the kernel answers just the part about descriptors that somebody wants is reported, and the reports, in their order, feed the active watchers of these descriptors just the reported events that each asks for, and nobody else |
| Descriptors.FdLoop.PollAgreement | deps/ev/ev.c:1493-1564 | after every such history, then a reify, the poll table has one entry for each descriptor somebody asks something of, with POLLIN iff for reading and POLLOUT iff for writing, and no other |
| Descriptors.FdLoop.SelectAgreement | deps/ev/ev_select.c:71-135 | the same for select: a bit is set iff some active watcher asks for it |
| PollBackends.PollBackend.PollModify | deps/ev/ev_poll.c:51-86 | the descriptor gets the new mask, all others keep theirs, and the sparse and dense table stay inverse to each other through swap-removal |
| PollBackends.PollBackend.OneEntryEach | deps/ev/ev_poll.c:51-86 | a descriptor has a nonempty mask iff it has an entry, and then exactly one |
| SelectBackends.SelectBackend.SelectModify | deps/ev/ev_select.c:70-135 | bit fd % NFDBITS of word fd / NFDBITS becomes what the mask wants, through growth, and no other bit changes |
| SelectBackends.Decode | deps/ev/ev_select.c:243-271 | every ready descriptor is reported exactly once with the right mask, nothing else is |
| LoopTurns.EventLoop.TimeUpdate | deps/ev/ev.c:2860-2927 | refines Ticks, with the readings that it takes: within half of MIN_TIMEJUMP of the last full reading the monotonic clock alone is read and real time follows it; otherwise both are read, up to four times, until they are as far apart as they were, and that they never are is a jump; the loop time is the last reading; a jump moves no timer; without a monotonic clock a jump is a step back or too large a step, and every active timer keeps the time it has left; after a jump every active periodic is recalculated, and otherwise no key changes |
| LoopTurns.EventLoop.Wait | deps/ev/ev.c:2983-3063 | refines WaitOk: fd_reify leaves active all but the watchers it kills, each descriptor as a whole, clears these and feeds them the error, and the backend then watches for what the others ask for; the time update; the loop sleeps and polls for as long as BlockTime says, by system calls; what the kernel answers about wanted descriptors feeds exactly the watchers that ask for it; the second time update |
| LoopTurns.EventLoop.InvokePending | deps/ev/ev.c:2672-2685 | refines DispatchOk: the dispatch above, now with callbacks that start, stop and restart timers, periodics and I/O watchers: the stacks are worked off to the end, each callback does to what is started just what its operations say, and the final state is where the last one led; heaps, lists, change queue and stacks stay valid throughout |
| LoopTurns.EventLoop.ExpireAndInvoke | deps/ev/ev.c:3065-3082 | exactly the timers and the periodics due on entry expire, each batch in order, what expires is rescheduled or stopped, and the dispatch works off the stacks that this leaves |
| LoopTurns.EventLoop.Turn | deps/ev/ev.c:2942-3083 | refines one turn with the given input from the state and stacks on entry to those on return: fd_reify, the time update, the sleep and the poll with the reports that it returns, the second time update, the expiry of exactly what is due by then, and the dispatch with the calls that it returns, each starting where the one before ended; with CalledAsDue |
| LoopTurns.EventLoop.Run | deps/ev/ev.c:2929-3088 | refines a dispatch and then a chain of such turns, one for each input, from the state on entry through the end of each turn to the final state, with just the calls that are returned, whatever the kernel answers, the clocks show and the callbacks do |
| TurnSpecs.TurnCallsAsDue | deps/ev/ev.c:3065-3082 | in every such turn each expired timer and periodic is called, or the dummy if a callback cleared it; at each priority the expired periodics that were not pending before are called before the expired timers, and each kind in the order of expiry |
| TurnSpecs.TurnExpires | deps/ev/ev.c:3061-3069 | whether a timer expires in such a turn is decided by the clock as read after the poll: with a monotonic clock exactly those expire that were active when the turn began and whose keys lie before that reading |
| TurnSpecs.TurnCalls | deps/ev/ev.c:2989-3063 | such a turn reads the clocks, sleeps and polls for the time decided, and reads the clocks again, and makes no other of these system calls |
| TurnSpecs.JumpIsDifference | deps/ev/ev.c:2898-2909 | with a monotonic clock there is a jump iff the difference of the clocks that the loop notes has changed by MIN_TIMEJUMP or more |
| Wakeup.RunSafe | deps/ev/ev.c:1841-1933 | the protocol invariant holds in every state of every interleaving, for any number of senders |
| Wakeup.OwedIsSent | deps/ev/ev.c:1921-1931 | a sent field is set iff something was sent and not fed since |
| Wakeup.FedWasOwed | deps/ev/ev.c:1911-1931 | in every run each event fed was owed when it was fed: nothing is fed that was not sent, and nothing twice for one send |
| Wakeup.NoLostWakeup | deps/ev/ev.c:1841-1881 | a loop in a blocking poll with something undelivered has a readable pipe, or a sender inside evpipe_write that fills it by merely going on |
| Wakeup.WritesDespiteOthers | deps/ev/ev.c:1852-1880 | while the loop sleeps, a sender that has raised the flag fills the pipe in four steps of its own, whatever the other senders do |
| Wakeup.QuietSleep | deps/ev/ev.c:2998-3002 | once no sender is at work, the pipe is readable |
| Wakeup.WorkIsNotWoken | deps/ev/ev.c:1852-1860 | while the loop is at its other work senders that were not about to write leave the pipe alone, however much they send |
| Wakeup.SendsCoalesce | deps/ev/ev.c:1844-1847 | while the loop does not move, senders that were idle write no more than two bytes each, however much they send |
| Wakeup.WakeupDelivers | deps/ev/ev.c:1886-1933 | a poll that reports the readable pipe delivers every item whose flag is up before the loop is back at its other work, whatever the senders do meanwhile |
| Wakeup.SkippedDelivers | deps/ev/ev.c:3054-3058 | the same when the loop finds a skipped wakeup |
| Wakeup.TurnDelivers | deps/ev/ev.c:2996-3058 | a turn of the loop in which no sender moves delivers all that is owed iff there is nothing, a wakeup was skipped or the poll reports the pipe; it does whenever the poll reports a readable pipe |
| Wakeup.TurnEmptiesPipe | deps/ev/ev.c:1890-1907 | a quiet turn that is told of the pipe empties the eventfd or takes one byte out of the pipe, and no other does; none leaves a wakeup marked as skipped, so that a loop that may wait sleeps in the next one |
| Wakeup.TurnShrinks | deps/ev/ev.c:1886-1933 | a turn has boundedly many steps whatever the senders do |
| Arrays.NextSizeGrows | deps/ev/ev.c:1353-1372 | the new capacity covers the request and is at least twice the old one plus two, through the page rounding too |
| Arrays.NextSizeBound | deps/ev/ev.c:1353-1372 | it is no larger than it has to be: double the old one plus two, or less than twice the request, and if that is large less than one element and one page more |
| Arrays.RoundedFits | deps/ev/ev.c:1362-1369 | a large array fills whole pages but for the malloc overhead and less than one element |
| Arrays.AmortisedGrowth | deps/ev/ev.c:1353-1391 | growing one at a time to n elements copies fewer than 2n |
| Arrays.ArrayNextSize | deps/ev/ev.c:1353-1372 | the doubling loop terminates and computes the size these lemmas are about |
| Channels.JoinParts | src/channel.c:22-38 | splitting at slashes and joining gives the channel back |
| Channels.PartsJoin | src/channel.c:22-38 | joining parts and splitting gives the parts back |
| Channels.ChannelMatches | src/channel.c:16-57 | the scratch array is always terminated; the result lists the candidates: the channel, its sibling wildcard, and the double wildcards from the deepest to the shallowest |
| Channels.MatchesAreGlobs | src/channel.c:16-57 | a string is a candidate of a channel, neither empty nor of too many parts, iff as a pattern it globs the channel, the bare * and ** excepted |
| Channels.BareStarsMissed | src/channel.c:36-41 | a bare ** globs a channel of which it is no candidate |
| Channels.NoCandidateTwice | src/channel.c:36-54 | a candidate is listed twice iff the channel itself ends in a wildcard part |
| Channels.RankIsPlace | src/channel.c:36-54 | candidates stand in the order exact, *, ** from the deepest to the shallowest |
| Channels.OthersGlobThemselves | src/channel.c:3-8 | up to the maximal length is_wildcard holds iff the pattern ends in a star, and a pattern for which it does not hold globs itself alone |
| Channels.OnlyOnce | src/channel.c:3-8 | a channel that is_wildcard lets pass is listed twice only if it is longer than any listener's pattern |
| Listeners.IndexIsScan | src/event.c:160-181 | probing the index gives the answer of a linear scan of all live subscriptions with Globs |
| Listeners.ScanUnique | src/event.c:160-181 | that answer is unique: contents, multiplicity and order are all determined |
| Listeners.ListenerIndex.Add | src/event.c:39-79 | a subscription becomes the youngest live one and the index stays right; too short or too long a pattern is refused |
| Listeners.ListenerIndex.Remove | src/event.c:89-110 | the subscription is gone, the others keep their order, the index stays right |
| Listeners.ListenerIndex.Get | src/event.c:160-181 | after any history of adding and removing: each live subscription whose pattern globs the channel, once, by rank of the pattern and by age; nothing for a channel of too many parts |
| Listeners.ListenerIndex.Fire | src/event.c:129-158 | calls the prefix of that list that ends at the first failing callback |
| Reconnect.Client.ProcessConnect | src/cometd.c:507-545 | the new state and advice, and a nested handshake when an unsuccessful connect advises one |
| Reconnect.Client.Handshake | src/cometd.c:341-364 | refines the function Handshakes, with the messages of an answer and nested handshakes |
| Reconnect.Client.Run | src/loops/gthread.c:30-76 | refines the function Receives, with the attempt counter that is reset in the loop |
| Reconnect.HandshakeBound | src/cometd.c:341-414 | for any increment that is not negative and no nonzero interval, at most one attempt more than Tries, which is max(1, ceil(max/increment)), or 1 without an increment |
| Reconnect.InsistentServer | src/cometd.c:341-414 | that bound is reached when the server keeps advising a handshake |
| Reconnect.PatientServer | src/cometd.c:366-394 | an advised nonzero interval replaces the back-off: attempts one interval apart for as long as the server asks, and only an interval of -1 ends them |
| Reconnect.SilentServer | src/cometd.c:341-414 | without advice or transport, exactly Tries attempts, waiting 0, inc, 2 inc and so on |
| Reconnect.GivesUpAfterFailures | src/loops/gthread.c:43-73 | with retry advice of interval 0, the loop is left exactly when for the first time the last Tries + 1 receives have all failed, every success starting the count again; a receive fails if the transport does or if the last connect message of its payload is unsuccessful |
| Reconnect.WaitsGrow | src/loops/gthread.c:41-65 | meanwhile the receive after r failures in a row waits (r - 1) increments, and none before the second failure |
| Reconnect.FailingGivesUp | src/cometd.c:308-309 | so a client that never receives anything but failures leaves after exactly Tries + 1 receives |
| Reconnect.OutcomeIs | src/msg.c:186-218 | what a payload makes of the state, in terms of the last connect message in it |
| Reconnect.PatientReceives | src/cometd.c:366-385 | with retry advice of another interval, and no other advice from the server, the loop waits that long after each failure, and not after a success, and never gives up |
| Reconnect.FirstFailureEnds | src/loops/gthread.c:61-63 | with retry advice of interval -1 the first failure ends the loop |
| Reconnect.OthersNeverWait | src/loops/gthread.c:52-55 | without retry advice the loop never waits and never ends by itself |
| Reconnect.EndsDisconnected | src/loops/gthread.c:73 | however the loop ends, the client is disconnected |
| Reconnect.HandshakeEnds | src/cometd.c:341-492 | as long as answers hold no connect messages, a handshake ends with the first one that agrees on a transport, and only such an answer makes it succeed; success is returned iff the last one is in order and there is a transport, and otherwise what the answer was refused for |
| Reconnect.WhetherToShakeHands | src/cometd.c:405-414 | a handshake is tried at all iff there is no session and no other advice |
| Reconnect.ConnectLeadsTo | src/cometd.c:507-545 | a connect that fails with the advice to shake hands makes a new request at once; any other sets the state and takes the advice; none matters to a client that is disconnecting |

## Left out

- System calls, clocks, signals, fork and inotify handling, child reaping, and the idle, prepare, check, embed, stat and once watchers of libev.
- The kqueue, port and Windows backends, and how the results of epoll_wait and poll are read: what the kernel answers is an input of each turn, and may be anything.
- Floating-point rounding: the fallbacks for a time stamp too large to advance, and ev_floor.  Weak memory: the interleavings are sequentially consistent.
- Integer overflow of counters, and the failure of memory allocation.
- Masks as bit patterns: a mask is the set of its bits, so that the numeric values of the bits are not modelled.
- One loop object: EventLoop ties TimerLoop, PeriodicLoop and FdLoop to one PendingQueue; each has its own part of activecnt, so that ev_run's decision to leave the loop is not modelled: Run makes any number of turns.
- Watcher types: one class holds the fields of all modelled types, as the C code's casts allow.  The watchers a heap or a list may hold are fixed in a ghost set.
- The arrays behind anfds, fdchanges, pendings and rfeeds are sequences: their growth is not repeated there.  What poll and timer arrays hold beyond their counts is not described.
- Callbacks are scripts: of feeds and clears for the pending stacks alone, and of starts, stops and restarts too for EventLoop.  A callback there does not set an inactive watcher anew; one that changes priorities, which libev forbids for pending watchers, or that runs the loop again is not modelled.  EventLoop's watchers have priorities that are in range from the start.
- LoopTurns.EventLoop.Turn: whether the loop may not wait (flags, idle watchers, a skipped wakeup) is an input, which descriptors epoll kills is not said, and other watcher types feed nothing between the expiries and the dispatch.
- Descriptors.FdLoop.EpollModify: epoll_ctl may answer anything at each call, and the generation counter egen is not modelled.
- Descriptors.KernelFollows: about one descriptor and a kernel whose failing calls change nothing; the corrections that epoll_poll makes when it sees events nobody wants are not modelled.
- Wakeup: the sets of async watchers and signals are fixed while the protocol runs, the pipe watcher is active, and what the loop does outside the protocol is one state.
- Wakeup.TurnDelivers: about turns in which no sender moves; with senders moving, WakeupDelivers, SkippedDelivers and NoLostWakeup apply.
- Channels.IsWildcard: not defined for the empty channel, for which the code reads the character before the string.
- Listeners: callbacks are functions of the message; one that adds or removes listeners while they are fired is not modelled, nor are freed subscriptions and key lifetimes.
- Reconnect.HandshakeEnds: about answers without connect messages, which a handshake does not call for.
- Reconnect: the server is a finite sequence of answers and a loop that needs more is marked stuck; transports, message fields other than success and advice, user listeners and extensions, and a disconnect from another thread are not modelled.
- Subscribing and unsubscribing at the server, publishing, the inbox, and the JSON form of messages and advice.

/** The context watch's self-stopping worker thread, as a step system.

    submit, the worker loop and stop run in any number of threads; their steps interleave freely
    except under the worker's lock.  Queue operations, the stopped flag and futures are each one
    step.  Tasks are numbered by the order in which submit puts them on the queue; clients may
    cancel a pending future at any time. */
module WatchWorker {
  import opened Assoc

  type Ticket = nat
  type Thread = nat
  type Call = nat

  datatype Item = Task(n: Ticket) | Wake

  datatype Future = Pending | Running | Finished | Cancelled

  /** Where the worker loop is. */
  datatype Phase =
    | Getting
    | TimedOut                    // the queue was empty for idle_seconds
    | Checking                    // holds the lock, about to look at the queue again
    | Leaving                     // holds the lock, about to clear _thread and return
    | Gone
    | Woken                       // took stop()'s sentinel
    | Took(n: Ticket)             // about to read _stopped
    | Claiming(n: Ticket)         // about to call set_running_or_notify_cancel
    | Discarding(n: Ticket)       // about to cancel the future
    | Working(n: Ticket)
  {
    predicate Holding() { Took? || Claiming? || Discarding? }
  }

  datatype Submit = SubWaiting | SubLocked | SubPut | SubDone

  datatype Stop =
    | StopWaiting
    | StopLocked
    | Draining(thread: Option<Thread>)
    | Dropping(n: Ticket, thread: Option<Thread>)   // took a task off the queue, about to cancel it
    | Drained(thread: Option<Thread>)
    | StopDone
  {
    /** The drain loop has found the queue empty. */
    predicate Past() { Drained? || StopDone? }
  }

  datatype Holder = BySubmit(c: Call) | ByStop(c: Call) | ByWorker(t: Thread)

  datatype World = World(queue: seq<Item>, thread: Option<Thread>, stopped: bool, lock: Option<Holder>,
                         futures: seq<Future>, started: seq<Ticket>,
                         threads: map<Thread, Phase>, submits: map<Call, Submit>, stops: map<Call, Stop>)

  const START := World([], None, false, None, [], [], map[], map[], map[])

  datatype Step =
    | SubmitCalled(c: Call)
    | SubmitLocks(c: Call)
    | SubmitRejects(c: Call)                 // stopped: the future is cancelled at once
    | SubmitPuts(c: Call)
    | SubmitReturns(c: Call, started: Thread)  // starts a thread if none is alive
    | Get(t: Thread)
    | TimeOut(t: Thread)
    | LockToExit(t: Thread)
    | ExitCheck(t: Thread)
    | Leave(t: Thread)
    | ReadStopped(t: Thread)
    | Claim(t: Thread)
    | Discard(t: Thread)
    | Finish(t: Thread)
    | StopCalled(c: Call)
    | StopLocks(c: Call)
    | StopSets(c: Call)
    | DrainGet(c: Call)
    | DropTask(c: Call)
    | DrainEmpty(c: Call)
    | StopWakes(c: Call)
    | ClientCancels(n: Ticket)

  predicate In<K, V(==)>(m: map<K, V>, k: K, v: V) { k in m && m[k] == v }

  predicate ThreadIs(w: World, t: Thread, p: Phase) { In(w.threads, t, p) }

  /** When a call can take a step.  A ticket in somebody's hands always has a future (OrderOk below), so
      the comparisons with the number of futures never hold a step back. */
  predicate Enabled(w: World, s: Step) {
    match s
    case SubmitCalled(c) => c !in w.submits
    case SubmitLocks(c) => In(w.submits, c, SubWaiting) && w.lock.None?
    case SubmitRejects(c) => In(w.submits, c, SubLocked) && w.stopped
    case SubmitPuts(c) => In(w.submits, c, SubLocked) && !w.stopped
    case SubmitReturns(c, t) => In(w.submits, c, SubPut) && t !in w.threads
    case Get(t) => ThreadIs(w, t, Getting) && w.queue != []
    case TimeOut(t) => ThreadIs(w, t, Getting) && w.queue == []
    case LockToExit(t) => (ThreadIs(w, t, TimedOut) || ThreadIs(w, t, Woken)) && w.lock.None?
    case ExitCheck(t) => ThreadIs(w, t, Checking)
    case Leave(t) => ThreadIs(w, t, Leaving)
    case ReadStopped(t) => t in w.threads && w.threads[t].Took?
    case Claim(t) => t in w.threads && w.threads[t].Claiming? && w.threads[t].n < |w.futures|
    case Discard(t) => t in w.threads && w.threads[t].Discarding? && w.threads[t].n < |w.futures|
    case Finish(t) => t in w.threads && w.threads[t].Working? && w.threads[t].n < |w.futures|
    case StopCalled(c) => c !in w.stops
    case StopLocks(c) => In(w.stops, c, StopWaiting) && w.lock.None?
    case StopSets(c) => In(w.stops, c, StopLocked)
    case DrainGet(c) => c in w.stops && w.stops[c].Draining? && w.queue != []
    case DropTask(c) => c in w.stops && w.stops[c].Dropping? && w.stops[c].n < |w.futures|
    case DrainEmpty(c) => c in w.stops && w.stops[c].Draining? && w.queue == []
    case StopWakes(c) => c in w.stops && w.stops[c].Drained?
    case ClientCancels(n) => n < |w.futures|
  }

  /** Cancelling a future works only while it is pending. */
  function Cancel(futures: seq<Future>, n: Ticket): seq<Future>
    requires n < |futures|
  {
    if futures[n].Pending? then futures[n := Cancelled] else futures
  }

  predicate Alive(w: World) {
    w.thread.Some? && w.thread.value in w.threads && !w.threads[w.thread.value].Gone?
  }

  function Moves(w: World, t: Thread, p: Phase): World { w.(threads := w.threads[t := p]) }

  function Do(w: World, s: Step): World
    requires Enabled(w, s)
  {
    match s
    case SubmitCalled(c) => w.(submits := w.submits[c := SubWaiting])
    case SubmitLocks(c) => w.(lock := Some(BySubmit(c)), submits := w.submits[c := SubLocked])
    case SubmitRejects(c) => w.(lock := None, submits := w.submits[c := SubDone])
    case SubmitPuts(c) =>
      w.(queue := w.queue + [Task(|w.futures|)], futures := w.futures + [Pending], submits := w.submits[c := SubPut])
    case SubmitReturns(c, t) =>
      var w' := w.(lock := None, submits := w.submits[c := SubDone]);
      if Alive(w) then w' else w'.(thread := Some(t), threads := w.threads[t := Getting])
    case Get(t) =>
      Moves(w.(queue := w.queue[1..]), t, if w.queue[0].Wake? then Woken else Took(w.queue[0].n))
    case TimeOut(t) => Moves(w, t, TimedOut)
    case LockToExit(t) =>
      Moves(w.(lock := Some(ByWorker(t))), t, if w.threads[t].Woken? then Leaving else Checking)
    case ExitCheck(t) =>
      if w.queue == [] then Moves(w, t, Leaving) else Moves(w.(lock := None), t, Getting)
    case Leave(t) => Moves(w.(thread := None, lock := None), t, Gone)
    case ReadStopped(t) =>
      Moves(w, t, if w.stopped then Discarding(w.threads[t].n) else Claiming(w.threads[t].n))
    case Claim(t) =>
      var n := w.threads[t].n;
      if w.futures[n].Pending?
      then Moves(w.(futures := w.futures[n := Running], started := w.started + [n]), t, Working(n))
      else Moves(w, t, Discarding(n))
    case Discard(t) => Moves(w.(futures := Cancel(w.futures, w.threads[t].n)), t, Getting)
    case Finish(t) => Moves(w.(futures := w.futures[w.threads[t].n := Finished]), t, Getting)
    case StopCalled(c) => w.(stops := w.stops[c := StopWaiting])
    case StopLocks(c) => w.(lock := Some(ByStop(c)), stops := w.stops[c := StopLocked])
    case StopSets(c) => w.(stopped := true, lock := None, stops := w.stops[c := Draining(w.thread)])
    case DrainGet(c) =>
      var thread := w.stops[c].thread;
      w.(queue := w.queue[1..],
         stops := w.stops[c := if w.queue[0].Wake? then Draining(thread) else Dropping(w.queue[0].n, thread)])
    case DropTask(c) =>
      w.(futures := Cancel(w.futures, w.stops[c].n), stops := w.stops[c := Draining(w.stops[c].thread)])
    case DrainEmpty(c) => w.(stops := w.stops[c := Drained(w.stops[c].thread)])
    case StopWakes(c) =>
      w.(queue := if w.stops[c].thread.Some? then w.queue + [Wake] else w.queue, stops := w.stops[c := StopDone])
    case ClientCancels(n) => w.(futures := Cancel(w.futures, n))
  }

  // ----- the invariant -----

  /** The thread that _thread names is the only one that has not left. */
  ghost predicate OneThread(w: World) {
    && (forall t :: t in w.threads && !w.threads[t].Gone? ==> w.thread == Some(t))
    && (forall t :: w.thread == Some(t) ==> t in w.threads && !w.threads[t].Gone?)
  }

  ghost predicate LockOk(w: World) {
    SubmitsLock(w) && StopsLock(w) && ThreadsLock(w)
  }

  ghost predicate SubmitsLock(w: World) {
    forall c :: c in w.submits && (w.submits[c].SubLocked? || w.submits[c].SubPut?) ==> w.lock == Some(BySubmit(c))
  }

  ghost predicate StopsLock(w: World) {
    forall c :: c in w.stops && w.stops[c].StopLocked? ==> w.lock == Some(ByStop(c))
  }

  ghost predicate ThreadsLock(w: World) {
    forall t :: t in w.threads && (w.threads[t].Checking? || w.threads[t].Leaving?) ==> w.lock == Some(ByWorker(t))
  }

  /** After the flag: sentinels and drains exist only once stopped. */
  ghost predicate StopOk(w: World) {
    WakesOk(w) && DrainsOk(w) && PutsOk(w)
  }

  ghost predicate WakesOk(w: World) {
    && (Wake in w.queue ==> w.stopped)
    && (forall t :: t in w.threads && w.threads[t].Woken? ==> w.stopped)
    && (forall c :: c in w.stops && !w.stops[c].StopWaiting? && !w.stops[c].StopLocked? ==> w.stopped)
  }

  ghost predicate DrainsOk(w: World) {
    forall c :: c in w.stops && w.stops[c].Past() ==> OnlyWakes(w.queue)
  }

  ghost predicate OnlyWakes(queue: seq<Item>) {
    forall i :: 0 <= i < |queue| ==> queue[i].Wake?
  }

  ghost predicate PutsOk(w: World) {
    forall c :: c in w.submits && w.submits[c].SubPut? ==> !w.stopped
  }

  /** The promise to submitters: queued work has a worker that has not decided to leave (or its
      submit call, still holding the lock, is about to start one). */
  ghost predicate Served(w: World) {
    !w.stopped && w.queue != [] ==>
      (exists c :: In(w.submits, c, SubPut)) || (Alive(w) && !w.threads[w.thread.value].Leaving?)
  }

  /** Tickets on the queue rise, after every ticket taken; tasks started so far rise too. */
  ghost predicate OrderOk(w: World) {
    && QueueRises(w.queue, |w.futures|)
    && (forall i, j :: 0 <= i < j < |w.started| ==> w.started[i] < w.started[j])
    && (forall i :: 0 <= i < |w.started| ==> NextUpBound(w, w.started[i]))
    && (forall t :: t in w.threads && w.threads[t].Holding() ==> NextUp(w, w.threads[t].n))
    && (forall t :: t in w.threads && w.threads[t].Working? ==> w.threads[t].n < |w.futures|)
    && (forall c :: c in w.stops && w.stops[c].Dropping? ==> w.stops[c].n < |w.futures|)
  }

  ghost predicate QueueRises(queue: seq<Item>, bound: nat) {
    && (forall i, j :: 0 <= i < j < |queue| && queue[i].Task? && queue[j].Task? ==> queue[i].n < queue[j].n)
    && (forall i :: 0 <= i < |queue| && queue[i].Task? ==> queue[i].n < bound)
  }

  /** Issued, and before everything still queued. */
  ghost predicate NextUpBound(w: World, n: Ticket) {
    n < |w.futures| && forall j :: 0 <= j < |w.queue| && w.queue[j].Task? ==> n < w.queue[j].n
  }

  /** A ticket taken off the queue, between what started and what is still queued. */
  ghost predicate NextUp(w: World, n: Ticket) {
    NextUpBound(w, n) && forall i :: 0 <= i < |w.started| ==> w.started[i] < n
  }

  /** No future is forgotten: a pending one is queued or in somebody's hands, a running one is worked on. */
  ghost predicate Tracked(w: World, n: Ticket) {
    n < |w.futures| ==>
      && (w.futures[n].Pending? ==> Task(n) in w.queue || InHand(w, n) || BeingDropped(w, n))
      && (w.futures[n].Running? ==> exists t :: In(w.threads, t, Working(n)))
  }

  ghost predicate InHand(w: World, n: Ticket) {
    exists t :: t in w.threads && w.threads[t].Holding() && w.threads[t].n == n
  }

  ghost predicate BeingDropped(w: World, n: Ticket) {
    exists c :: c in w.stops && w.stops[c].Dropping? && w.stops[c].n == n
  }

  ghost predicate Inv(w: World) {
    OneThread(w) && LockOk(w) && StopOk(w) && Served(w) && OrderOk(w) && forall n :: Tracked(w, n)
  }

  lemma ThreadKept(w: World, s: Step)
    requires OneThread(w) && Enabled(w, s)
    ensures OneThread(Do(w, s))
  {
    hide Cancel;
  }

  lemma SubmitsLockKept(w: World, s: Step)
    requires LockOk(w) && Enabled(w, s)
    ensures SubmitsLock(Do(w, s))
  {
    hide Alive, Cancel;
  }

  lemma StopsLockKept(w: World, s: Step)
    requires LockOk(w) && Enabled(w, s)
    ensures StopsLock(Do(w, s))
  {
    hide Alive, Cancel;
  }

  lemma ThreadsLockKept(w: World, s: Step)
    requires LockOk(w) && Enabled(w, s)
    ensures ThreadsLock(Do(w, s))
  {
    hide Alive, Cancel;
  }

  lemma StopKept(w: World, s: Step)
    requires LockOk(w) && StopOk(w) && Enabled(w, s)
    ensures StopOk(Do(w, s))
  {
    hide Do, Enabled, LockOk, WakesOk, DrainsOk, PutsOk;
    WakesKept(w, s);
    DrainsKept(w, s);
    PutsKept(w, s);
  }

  lemma WakesKept(w: World, s: Step)
    requires WakesOk(w) && Enabled(w, s)
    ensures WakesOk(Do(w, s))
  {
    hide Alive, Cancel;
  }

  lemma DrainsKept(w: World, s: Step)
    requires WakesOk(w) && DrainsOk(w) && Enabled(w, s)
    ensures DrainsOk(Do(w, s))
  {
    hide Alive, Cancel;
  }

  lemma PutsKept(w: World, s: Step)
    requires LockOk(w) && PutsOk(w) && Enabled(w, s)
    ensures PutsOk(Do(w, s))
  {
    hide Alive, Cancel;
  }

  lemma ServedKept(w: World, s: Step)
    requires OneThread(w) && LockOk(w) && StopOk(w) && Served(w) && Enabled(w, s)
    ensures Served(Do(w, s))
  {
    var w' := Do(w, s);
    if s.SubmitPuts? {
      assert In(w'.submits, s.c, SubPut);
    } else if s.SubmitReturns? {
      assert Alive(w');
    } else if c :| In(w.submits, c, SubPut) {
      assert In(w'.submits, c, SubPut);
    }
  }

  lemma QueueKept(w: World, s: Step)
    requires QueueRises(w.queue, |w.futures|) && Enabled(w, s)
    ensures QueueRises(Do(w, s).queue, |Do(w, s).futures|)
    ensures |w.futures| <= |Do(w, s).futures|
  {
    if s.Get? || s.DrainGet? { assert Do(w, s).queue == w.queue[1..]; }
  }

  lemma BoundKept(w: World, s: Step, n: Ticket)
    requires NextUpBound(w, n) && Enabled(w, s)
    ensures NextUpBound(Do(w, s), n)
  {
    if s.Get? || s.DrainGet? { assert Do(w, s).queue == w.queue[1..]; }
  }

  lemma TakenNext(w: World, s: Step)
    requires OrderOk(w) && Enabled(w, s) && s.Get? && w.queue[0].Task?
    ensures NextUp(Do(w, s), w.queue[0].n)
  {
    assert Do(w, s).queue == w.queue[1..];
  }

  lemma OrderKept(w: World, s: Step)
    requires OneThread(w) && OrderOk(w) && Enabled(w, s)
    ensures OrderOk(Do(w, s))
  {
    var w' := Do(w, s);
    QueueKept(w, s);
    forall n | NextUpBound(w, n) ensures NextUpBound(w', n) { BoundKept(w, s, n); }
    if s.Get? && w.queue[0].Task? { TakenNext(w, s); }
    if s.DrainGet? && w.queue[0].Task? { assert w.queue[0].n < |w.futures|; }
    hide QueueRises, NextUpBound;
    StartsKept(w, s);
    HandsKept(w, s);
    WorkKept(w, s);
    hide NextUp;
  }

  lemma StartsKept(w: World, s: Step)
    requires OrderOk(w) && Enabled(w, s) && forall n :: NextUpBound(w, n) ==> NextUpBound(Do(w, s), n)
    ensures var v := Do(w, s).started;
      (forall i, j :: 0 <= i < j < |v| ==> v[i] < v[j]) && (forall i :: 0 <= i < |v| ==> NextUpBound(Do(w, s), v[i]))
  {
    hide QueueRises, NextUpBound;
    if s.Claim? { assert NextUp(w, w.threads[s.t].n); }
  }

  lemma HandsKept(w: World, s: Step)
    requires OneThread(w) && OrderOk(w) && Enabled(w, s)
    requires s.Get? && w.queue[0].Task? ==> NextUp(Do(w, s), w.queue[0].n)
    ensures forall t :: t in Do(w, s).threads && Do(w, s).threads[t].Holding() ==>
            NextUp(Do(w, s), Do(w, s).threads[t].n)
  {
    hide OneThread, OrderOk, NextUp, NextUpBound;
    forall t | t in Do(w, s).threads && Do(w, s).threads[t].Holding() && !(s.Get? && s.t == t)
      ensures NextUp(Do(w, s), Do(w, s).threads[t].n)
    {
      StillNext(w, s, t);
    }
  }

  /** Only the thread itself starts tasks, so what it holds stays next. */
  lemma StillNext(w: World, s: Step, t: Thread)
    requires OneThread(w) && OrderOk(w) && Enabled(w, s)
    requires t in Do(w, s).threads && Do(w, s).threads[t].Holding() && !(s.Get? && s.t == t)
    ensures NextUp(Do(w, s), Do(w, s).threads[t].n)
  {
    HeldSame(w, s, t);
    StartedSame(w, s, t);
    assert NextUp(w, w.threads[t].n);
    hide Do, QueueRises, NextUpBound, OneThread, OrderOk;
    BoundKept(w, s, w.threads[t].n);
  }

  lemma HeldSame(w: World, s: Step, t: Thread)
    requires Enabled(w, s) && t in Do(w, s).threads && Do(w, s).threads[t].Holding() && !(s.Get? && s.t == t)
    ensures t in w.threads && w.threads[t].Holding() && w.threads[t].n == Do(w, s).threads[t].n
  {
    hide Alive, Cancel;
  }

  lemma StartedSame(w: World, s: Step, t: Thread)
    requires OneThread(w) && Enabled(w, s) && t in w.threads && w.threads[t].Holding()
    requires t in Do(w, s).threads && Do(w, s).threads[t].Holding()
    ensures Do(w, s).started == w.started
  {
    hide Alive, Cancel;
  }

  lemma WorkKept(w: World, s: Step)
    requires OrderOk(w) && Enabled(w, s)
    ensures forall t :: t in Do(w, s).threads && Do(w, s).threads[t].Working? ==>
            Do(w, s).threads[t].n < |Do(w, s).futures|
  {
    hide QueueRises, NextUp;
  }

  lemma PendingKept(w: World, s: Step, n: Ticket)
    requires Tracked(w, n) && Enabled(w, s) && n < |Do(w, s).futures| && Do(w, s).futures[n].Pending?
    ensures var w' := Do(w, s); Task(n) in w'.queue || InHand(w', n) || BeingDropped(w', n)
  {
    var w' := Do(w, s);
    if n == |w.futures| {
      assert w'.queue[|w.queue|] == Task(n);
    } else if Task(n) in w.queue {
      QueuedKept(w, s, n);
    } else if InHand(w, n) {
      HandKept(w, s, n);
    } else {
      DropKept(w, s, n);
    }
  }

  lemma HandKept(w: World, s: Step, n: Ticket)
    requires InHand(w, n) && Enabled(w, s) && n < |w.futures| && Do(w, s).futures[n].Pending?
    ensures InHand(Do(w, s), n)
  {
    var t :| t in w.threads && w.threads[t].Holding() && w.threads[t].n == n;
    var w' := Do(w, s);
    assert t in w'.threads && w'.threads[t].Holding() && w'.threads[t].n == n;
  }

  lemma DropKept(w: World, s: Step, n: Ticket)
    requires BeingDropped(w, n) && Enabled(w, s) && n < |w.futures| && Do(w, s).futures[n].Pending?
    ensures BeingDropped(Do(w, s), n)
  {
    var c :| c in w.stops && w.stops[c].Dropping? && w.stops[c].n == n;
    var w' := Do(w, s);
    assert c in w'.stops && w'.stops[c].Dropping? && w'.stops[c].n == n;
  }

  lemma RunningKept(w: World, s: Step, n: Ticket)
    requires Tracked(w, n) && Enabled(w, s) && n < |Do(w, s).futures| && Do(w, s).futures[n].Running?
    ensures exists t :: In(Do(w, s).threads, t, Working(n))
  {
    var w' := Do(w, s);
    if n < |w.futures| && w.futures[n].Running? {
      var t :| In(w.threads, t, Working(n));
      assert In(w'.threads, t, Working(n));
    } else {
      assert In(w'.threads, s.t, Working(n));
    }
  }

  lemma TrackedKept(w: World, s: Step, n: Ticket)
    requires Tracked(w, n) && Enabled(w, s)
    ensures Tracked(Do(w, s), n)
  {
    if n < |Do(w, s).futures| {
      if Do(w, s).futures[n].Pending? { PendingKept(w, s, n); }
      if Do(w, s).futures[n].Running? { RunningKept(w, s, n); }
    }
  }

  lemma QueuedKept(w: World, s: Step, n: Ticket)
    requires Enabled(w, s) && Task(n) in w.queue
    ensures var w' := Do(w, s); Task(n) in w'.queue || InHand(w', n) || BeingDropped(w', n)
  {
    var w' := Do(w, s);
    var i :| 0 <= i < |w.queue| && w.queue[i] == Task(n);
    if (s.Get? || s.DrainGet?) && i == 0 {
      if s.Get? {
        assert w'.threads[s.t].Holding() && w'.threads[s.t].n == n;
      } else {
        assert w'.stops[s.c].Dropping? && w'.stops[s.c].n == n;
      }
    } else {
      assert w'.queue[if s.Get? || s.DrainGet? then i - 1 else i] == Task(n);
    }
  }

  // ----- all runs -----

  ghost predicate Runs(w: World, steps: seq<Step>)
    decreases |steps|
  {
    steps != [] ==> Enabled(w, steps[0]) && Runs(Do(w, steps[0]), steps[1..])
  }

  ghost function After(w: World, steps: seq<Step>): World
    requires Runs(w, steps)
    decreases |steps|
  {
    if steps == [] then w else After(Do(w, steps[0]), steps[1..])
  }

  lemma {:induction false} InvAlways(w: World, steps: seq<Step>)
    requires Inv(w) && Runs(w, steps)
    ensures Inv(After(w, steps))
    decreases |steps|
  {
    if steps != [] {
      var s := steps[0];
      ThreadKept(w, s);
      SubmitsLockKept(w, s);
      StopsLockKept(w, s);
      ThreadsLockKept(w, s);
      StopKept(w, s);
      ServedKept(w, s);
      OrderKept(w, s);
      forall n ensures Tracked(Do(w, s), n) { TrackedKept(w, s, n); }
      InvAlways(Do(w, s), steps[1..]);
    }
  }

  /** At most one thread can take tasks, and tasks start in submission order. */
  lemma OneWorkerInOrder(steps: seq<Step>)
    requires Runs(START, steps)
    ensures var w := After(START, steps);
      && (forall t, u :: t in w.threads && u in w.threads && !w.threads[t].Gone? && !w.threads[u].Gone? ==> t == u)
      && (forall i, j :: 0 <= i < j < |w.started| ==> w.started[i] < w.started[j])
  {
    InvAlways(START, steps);
  }

  /** While not stopped, and with no submit call in the middle of its locked section, queued work has
      a worker that has not committed to exit. */
  lemma WorkIsServed(steps: seq<Step>)
    requires Runs(START, steps)
    ensures var w := After(START, steps);
      !w.stopped && w.queue != [] && (forall c :: !In(w.submits, c, SubPut)) ==>
        Alive(w) && !w.threads[w.thread.value].Leaving?
  {
    InvAlways(START, steps);
  }

  /** Once some stop call has drained the queue, no stop call still holds a task, and the worker is
      gone, every future ever queued is finished or cancelled. */
  lemma NothingLeftBehind(steps: seq<Step>, c: Call, n: Ticket)
    requires Runs(START, steps)
    requires var w := After(START, steps);
      && c in w.stops && w.stops[c].Past()
      && (forall d :: d in w.stops ==> !w.stops[d].Dropping?)
      && w.thread.None? && n < |w.futures|
    ensures After(START, steps).futures[n] in {Finished, Cancelled}
  {
    InvAlways(START, steps);
    Settled(After(START, steps), c, n);
  }

  lemma Settled(w: World, c: Call, n: Ticket)
    requires OneThread(w) && DrainsOk(w) && Tracked(w, n)
    requires c in w.stops && w.stops[c].Past() && forall d :: d in w.stops ==> !w.stops[d].Dropping?
    requires w.thread.None? && n < |w.futures|
    ensures w.futures[n] in {Finished, Cancelled}
  {
  }
}

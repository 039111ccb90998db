/** One server per database: the lock-file protocol of `mark serve`, as a step system.

    Any number of server processes open the lock file, lock the descriptor, check that the file they
    locked is still the one at the path, publish a state file, and on the way out unlink both before
    they unlock.  Steps of different processes interleave freely and any process may crash anywhere;
    the kernel then drops its lock and leaves its files behind.  Inode numbers may be reused as soon
    as no path and no descriptor refers to the file. */
module ServerLock {
  import opened Assoc

  type Process = nat
  type Inode = nat

  /** Where a process is in `serve`. */
  datatype Phase =
    | Idle
    | Opening(tries: nat)                 // about to open the path, for the tries-th last time
    | Opened(ino: Inode, tries: nat)
    | Locked(ino: Inode, tries: nat)      // flock succeeded, inode not compared yet
    | Checked(ino: Inode)                 // the locked file is the one at the path
    | Emptied(ino: Inode)                 // ftruncate done
    | Held(ino: Inode)                    // pid written; the engine is opening
    | Serving(ino: Inode)                 // state file written
    | Closing(ino: Inode, mine: bool)     // state file read back: is the token ours?
    | Releasing(ino: Inode)               // about to unlink the lock file
    | Unlinked(ino: Inode)                // about to close (and unlock) the descriptor
  {
    predicate HasOpen() { !Idle? && !Opening? }

    predicate HoldsLock() { HasOpen() && !Opened? }

    /** Past the inode check, and the lock file not yet unlinked. */
    predicate Past() { HoldsLock() && !Locked? && !Unlinked? }

    predicate PidWritten() { Past() && !Checked? && !Emptied? }
  }

  /** The lock path, who holds each file's lock, the pid each file holds, and whose token is in the
      state file. */
  datatype World = World(path: Option<Inode>, locks: map<Inode, Process>, pid: map<Inode, Option<Process>>,
                         state: Option<Process>, phase: map<Process, Phase>)

  function At(w: World, p: Process): Phase {
    if p in w.phase then w.phase[p] else Idle
  }

  predicate InUse(w: World, ino: Inode) {
    w.path == Some(ino) || exists p :: p in w.phase && w.phase[p].HasOpen() && w.phase[p].ino == ino
  }

  datatype Step =
    | Begin(p: Process)
    | Open(p: Process, created: Inode)    // created: the inode a new file gets, when the path is missing
    | Lock(p: Process)
    | Check(p: Process)
    | RefuseLegacy(p: Process)
    | Truncate(p: Process)
    | WritePid(p: Process)
    | EngineFails(p: Process)
    | WriteState(p: Process)
    | ReadState(p: Process)
    | UnlinkState(p: Process)
    | UnlinkLock(p: Process, succeeds: bool)
    | Close(p: Process)
    | Crash(p: Process)

  const ATTEMPTS := 3

  predicate Enabled(w: World, s: Step) {
    var at := At(w, s.p);
    match s
    case Begin(_) => at.Idle?
    case Open(_, created) => at.Opening? && (w.path.None? ==> !InUse(w, created))
    case Lock(_) => at.Opened?
    case Check(_) => at.Locked?
    case RefuseLegacy(_) => at.Checked?
    case Truncate(_) => at.Checked?
    case WritePid(_) => at.Emptied?
    case EngineFails(_) => at.Held?
    case WriteState(_) => at.Held?
    case ReadState(_) => at.Serving?
    case UnlinkState(_) => at.Closing?
    case UnlinkLock(_, _) => at.Releasing?
    case Close(_) => at.Unlinked?
    case Crash(_) => true
  }

  /** Closing a descriptor drops its lock. */
  function Drop(w: World, p: Process, next: Phase): World {
    var at := At(w, p);
    w.(locks := if at.HoldsLock() then w.locks - {at.ino} else w.locks, phase := w.phase[p := next])
  }

  function Go(w: World, p: Process, next: Phase): World {
    w.(phase := w.phase[p := next])
  }

  function Do(w: World, s: Step): World
    requires Enabled(w, s)
  {
    var at := At(w, s.p);
    match s
    case Begin(p) => Go(w, p, Opening(ATTEMPTS))
    case Open(p, created) =>
      if w.path.Some? then Go(w, p, Opened(w.path.value, at.tries))
      else Go(w.(path := Some(created), pid := w.pid[created := None]), p, Opened(created, at.tries))
    case Lock(p) =>
      if at.ino in w.locks then Go(w, p, Idle)      // "already running": exit
      else Go(w.(locks := w.locks[at.ino := p]), p, Locked(at.ino, at.tries))
    case Check(p) =>
      if w.path == Some(at.ino) then Go(w, p, Checked(at.ino))
      else Drop(w, p, if at.tries > 1 then Opening(at.tries - 1) else Idle)
    case RefuseLegacy(p) => Drop(w, p, Idle)
    case Truncate(p) => Go(w.(pid := w.pid[at.ino := None]), p, Emptied(at.ino))
    case WritePid(p) => Go(w.(pid := w.pid[at.ino := Some(p)]), p, Held(at.ino))
    case EngineFails(p) => Go(w, p, Releasing(at.ino))
    case WriteState(p) => Go(w.(state := Some(p)), p, Serving(at.ino))
    case ReadState(p) => Go(w, p, Closing(at.ino, w.state == Some(p)))
    case UnlinkState(p) => Go(if at.mine then w.(state := None) else w, p, Releasing(at.ino))
    case UnlinkLock(p, succeeds) => Go(if succeeds then w.(path := None) else w, p, Unlinked(at.ino))
    case Close(p) => Drop(w, p, Idle)
    case Crash(p) => Drop(w, p, Idle)
  }

  /** Any files may be left over from before; no process is running yet. */
  ghost predicate Initial(w: World) {
    w.locks == map[] && w.phase == map[]
  }

  // ----- the invariant -----

  ghost predicate LocksOk(w: World) {
    && (forall p :: p in w.phase && w.phase[p].HoldsLock() ==>
          w.phase[p].ino in w.locks && w.locks[w.phase[p].ino] == p)
    && (forall ino :: ino in w.locks ==>
          w.locks[ino] in w.phase && w.phase[w.locks[ino]].HoldsLock() && w.phase[w.locks[ino]].ino == ino)
  }

  ghost predicate PathsOk(w: World) {
    forall p :: p in w.phase && w.phase[p].Past() ==> w.path == Some(w.phase[p].ino)
  }

  ghost predicate PidsOk(w: World) {
    forall p :: p in w.phase && w.phase[p].PidWritten() ==>
      w.phase[p].ino in w.pid && w.pid[w.phase[p].ino] == Some(p)
  }

  ghost predicate StateOk(w: World) {
    && (forall p :: p in w.phase && w.phase[p].Serving? ==> w.state == Some(p))
    && (forall p :: p in w.phase && w.phase[p].Closing? ==> w.phase[p].mine && w.state == Some(p))
  }

  ghost predicate Inv(w: World) {
    LocksOk(w) && PathsOk(w) && PidsOk(w) && StateOk(w)
  }

  /** Two processes past the check would hold the lock of the same file. */
  lemma OnlyOnePast(w: World, p: Process, q: Process)
    requires LocksOk(w) && PathsOk(w) && At(w, p).Past() && At(w, q).Past()
    ensures p == q
  {
  }

  lemma LocksKept(w: World, s: Step)
    requires LocksOk(w) && Enabled(w, s)
    ensures LocksOk(Do(w, s))
  {
    match s
    case Open(p, created) => if w.path.None? { CreatedLocks(w, p, created); }
    case Lock(p) => LockLocks(w, p);
    case Check(p) => DropLocks(w, p, if At(w, p).tries > 1 then Opening(At(w, p).tries - 1) else Idle);
    case RefuseLegacy(p) => DropLocks(w, p, Idle);
    case Close(p) => DropLocks(w, p, Idle);
    case Crash(p) => DropLocks(w, p, Idle);
    case _ => GoLocks(w, s.p, At(Do(w, s), s.p));
  }

  lemma GoLocks(w: World, p: Process, next: Phase)
    requires LocksOk(w) && next.HoldsLock() == At(w, p).HoldsLock() && (next.HoldsLock() ==> next.ino == At(w, p).ino)
    ensures LocksOk(Go(w, p, next))
  {
  }

  /** A file nobody has open is locked by nobody. */
  lemma CreatedLocks(w: World, p: Process, created: Inode)
    requires LocksOk(w) && !InUse(w, created) && At(w, p).Opening?
    ensures created !in w.locks
    ensures LocksOk(Do(w.(path := None), Open(p, created)))
  {
  }

  lemma LockLocks(w: World, p: Process)
    requires LocksOk(w) && At(w, p).Opened?
    ensures LocksOk(Do(w, Lock(p)))
  {
  }

  lemma DropLocks(w: World, p: Process, next: Phase)
    requires LocksOk(w) && !next.HoldsLock()
    ensures LocksOk(Drop(w, p, next))
  {
  }

  lemma PathsKept(w: World, s: Step)
    requires LocksOk(w) && PathsOk(w) && Enabled(w, s)
    ensures PathsOk(Do(w, s))
  {
    forall p | At(w, p).Past() && At(w, s.p).Past() ensures p == s.p {
      OnlyOnePast(w, p, s.p);
    }
  }

  lemma PidsKept(w: World, s: Step)
    requires LocksOk(w) && PathsOk(w) && PidsOk(w) && Enabled(w, s)
    ensures PidsOk(Do(w, s))
  {
    forall p | p in Do(w, s).phase && p != s.p ensures PidOf(Do(w, s), p) {
      OthersPid(w, s, p);
    }
    OwnPid(w, s);
    hide LocksOk, PathsOk, Do, Enabled;
  }

  ghost predicate PidOf(w: World, p: Process)
    requires p in w.phase
  {
    w.phase[p].PidWritten() ==> w.phase[p].ino in w.pid && w.pid[w.phase[p].ino] == Some(p)
  }

  lemma OthersPid(w: World, s: Step, p: Process)
    requires LocksOk(w) && PathsOk(w) && PidsOk(w) && Enabled(w, s) && p in Do(w, s).phase && p != s.p
    ensures PidOf(Do(w, s), p)
  {
    if At(w, p).Past() && At(w, s.p).Past() { OnlyOnePast(w, p, s.p); }
    hide LocksOk, PathsOk;
  }

  lemma OwnPid(w: World, s: Step)
    requires PidsOk(w) && Enabled(w, s) && s.p in Do(w, s).phase
    ensures PidOf(Do(w, s), s.p)
  {
  }

  lemma StateKept(w: World, s: Step)
    requires LocksOk(w) && PathsOk(w) && StateOk(w) && Enabled(w, s)
    ensures StateOk(Do(w, s))
  {
    forall p | p in Do(w, s).phase && p != s.p ensures StateOf(Do(w, s), p) {
      OthersState(w, s, p);
    }
    hide LocksOk, PathsOk, At;
    OwnState(w, s);
  }

  ghost predicate StateOf(w: World, p: Process)
    requires p in w.phase
  {
    && (w.phase[p].Serving? ==> w.state == Some(p))
    && (w.phase[p].Closing? ==> w.phase[p].mine && w.state == Some(p))
  }

  lemma OthersState(w: World, s: Step, p: Process)
    requires LocksOk(w) && PathsOk(w) && StateOk(w) && Enabled(w, s) && p in Do(w, s).phase && p != s.p
    ensures StateOf(Do(w, s), p)
  {
    if At(w, p).Past() && At(w, s.p).Past() { OnlyOnePast(w, p, s.p); }
    hide LocksOk, PathsOk;
  }

  lemma OwnState(w: World, s: Step)
    requires StateOk(w) && Enabled(w, s) && s.p in Do(w, s).phase
    ensures StateOf(Do(w, s), s.p)
  {
  }

  // ----- all runs -----

  ghost predicate Runs(w: World, steps: seq<Step>)
    decreases |steps|
  {
    steps != [] ==> Enabled(w, steps[0]) && Runs(Do(w, steps[0]), steps[1..])
  }

  ghost function After(w: World, steps: seq<Step>): World
    requires Runs(w, steps)
    decreases |steps|
  {
    if steps == [] then w else After(Do(w, steps[0]), steps[1..])
  }

  lemma {:induction false} InvAlways(w: World, steps: seq<Step>)
    requires Inv(w) && Runs(w, steps)
    ensures Inv(After(w, steps))
    decreases |steps|
  {
    if steps != [] {
      LocksKept(w, steps[0]);
      PathsKept(w, steps[0]);
      PidsKept(w, steps[0]);
      StateKept(w, steps[0]);
      InvAlways(Do(w, steps[0]), steps[1..]);
    }
  }

  /** In every interleaving, with crashes anywhere: at most one process is past the inode check
      without having begun to remove its files; while it is, the path names the file it locked, and
      once it has written them, the lock file holds its pid and the state file its token. */
  lemma OneServer(w: World, steps: seq<Step>)
    requires Initial(w) && Runs(w, steps)
    ensures var v := After(w, steps);
      && (forall p, q :: At(v, p).Past() && At(v, q).Past() ==> p == q)
      && (forall p :: At(v, p).Past() ==> v.path == Some(At(v, p).ino))
      && (forall p: Process :: At(v, p).PidWritten() ==> At(v, p).ino in v.pid && v.pid[At(v, p).ino] == Some(p))
      && (forall p: Process :: At(v, p).Serving? ==> v.state == Some(p))
  {
    InvAlways(w, steps);
    var v := After(w, steps);
    forall p, q | At(v, p).Past() && At(v, q).Past() ensures p == q {
      OnlyOnePast(v, p, q);
    }
  }

  /** Hence nothing a server unlinks on its way out is another server's: the lock file it removes is
      the one it locked, with its own pid, and the state file carries its own token. */
  lemma UnlinksOnlyItsOwn(w: World, steps: seq<Step>, s: Step)
    requires Initial(w) && Runs(w, steps) && Enabled(After(w, steps), s)
    ensures var v := After(w, steps);
      && (s.UnlinkLock? ==> v.path == Some(At(v, s.p).ino) && At(v, s.p).ino in v.pid
                            && v.pid[At(v, s.p).ino] == Some(s.p))
      && (s.UnlinkState? ==> v.state == Some(s.p))
      && (forall q :: q != s.p ==> !At(v, q).Past() || !(s.UnlinkLock? || s.UnlinkState?))
  {
    InvAlways(w, steps);
    var v := After(w, steps);
    forall q | q != s.p && At(v, q).Past() && At(v, s.p).Past() ensures false {
      OnlyOnePast(v, q, s.p);
    }
  }

  lemma {:induction false} OneMore(w: World, steps: seq<Step>, s: Step)
    requires Runs(w, steps) && Enabled(After(w, steps), s)
    ensures Runs(w, steps + [s]) && After(w, steps + [s]) == Do(After(w, steps), s)
    decreases |steps|
  {
    if steps == [] {
      assert [s][1..] == [];
    } else {
      OneMore(Do(w, steps[0]), steps[1..], s);
      assert (steps + [s])[1..] == steps[1..] + [s];
    }
  }

  /** Process 0 has a lock on the file at the path. */
  lemma FirstHolds() returns (w: World, steps: seq<Step>)
    ensures Initial(w) && Runs(w, steps)
    ensures After(w, steps) == World(Some(10), map[10 := 0], map[10 := None], None, map[0 := Checked(10)])
  {
    w, steps := World(None, map[], map[], None, map[]), [];
    assert Runs(w, steps) && After(w, steps) == w;
    hide Runs, After;
    OneMore(w, steps, Begin(0)); steps := steps + [Begin(0)];
    OneMore(w, steps, Open(0, 10)); steps := steps + [Open(0, 10)];
    OneMore(w, steps, Lock(0)); steps := steps + [Lock(0)];
    OneMore(w, steps, Check(0)); steps := steps + [Check(0)];
  }

  /** Process 0 has written its pid, fails to open the engine and is about to leave. */
  lemma AboutToLeave() returns (w: World, steps: seq<Step>)
    ensures Initial(w) && Runs(w, steps)
    ensures After(w, steps) == World(Some(10), map[10 := 0], map[10 := Some(0)], None, map[0 := Releasing(10)])
  {
    hide Runs, After;
    w, steps := FirstHolds();
    OneMore(w, steps, Truncate(0)); steps := steps + [Truncate(0)];
    OneMore(w, steps, WritePid(0)); steps := steps + [WritePid(0)];
    OneMore(w, steps, EngineFails(0)); steps := steps + [EngineFails(0)];
  }

  /** Process 0 has unlinked its file between process 1's open and lock. */
  lemma OpenedTooEarly() returns (w: World, steps: seq<Step>)
    ensures Initial(w) && Runs(w, steps)
    ensures After(w, steps) == World(None, map[], map[10 := Some(0)], None, map[0 := Idle, 1 := Opened(10, 3)])
  {
    hide Runs, After;
    w, steps := AboutToLeave();
    OneMore(w, steps, Begin(1)); steps := steps + [Begin(1)];
    OneMore(w, steps, Open(1, 10)); steps := steps + [Open(1, 10)];
    OneMore(w, steps, UnlinkLock(0, true)); steps := steps + [UnlinkLock(0, true)];
    OneMore(w, steps, Close(0)); steps := steps + [Close(0)];
  }

  /** The inode check is what this rests on, a lock alone is not enough: process 2 passes the check of
      a new file while process 1 holds the lock of the old one. */
  lemma LockAloneIsNotEnough() returns (w: World, steps: seq<Step>)
    ensures Initial(w) && Runs(w, steps)
    ensures At(After(w, steps), 1).Locked? && At(After(w, steps), 2).Past()
  {
    hide Runs, After;
    w, steps := OpenedTooEarly();
    OneMore(w, steps, Lock(1)); steps := steps + [Lock(1)];
    OneMore(w, steps, Begin(2)); steps := steps + [Begin(2)];
    OneMore(w, steps, Open(2, 11)); steps := steps + [Open(2, 11)];
    OneMore(w, steps, Lock(2)); steps := steps + [Lock(2)];
    OneMore(w, steps, Check(2)); steps := steps + [Check(2)];
  }
}

/**
 fork, exit and wait as steps of any number of processes, at the granularity of process locks.
 Slot 0 of the process table is init.
 */
module ExitWait {
  import opened Basics

  const INIT := 0

  datatype ProcState = Unused | Sleeping | Runnable | Running | Zombie

  /** Where the process in a slot is. */
  datatype Pc =
    | NoProcess
    | User
    | ExitStart(status: int)                            // has woken init
    | ExitParent(status: int, orig: nat)                // has copied p->parent
    | ExitHeld(status: int, orig: nat)                  // holds the parent's lock
    | ExitReparent(status: int, orig: nat, k: nat)      // holds both locks, reparent looks at slot k
    | ExitZombie(orig: nat)                             // p->state is ZOMBIE, both locks still held
    | ExitSched                                         // parent's lock released, own lock held
    | Dead                                              // switched away for good
    | WaitScan(k: nat, havekids: bool)                  // holds own lock, wait looks at slot k
    | WaitMarked                                        // in sleep: chan and state set, own lock held
    | WaitAsleep                                        // switched away, own lock free

  /** xv6's struct proc; chan records p->chan == p, lock the slot of the process that holds p->lock. */
  datatype Proc = Proc(state: ProcState, parent: Option<nat>, pid: nat, xstate: int, chan: bool, killed: bool,
                       lock: Option<nat>, pc: Pc)

  /** A return from wait: the pid of who waited, and the pid and status it got. */
  datatype Reap = Reap(waiter: nat, pid: nat, status: int)

  /** The slot a new process was given, and the pid of who forked it. */
  datatype Birth = Birth(slot: nat, forker: nat)

  /** The table and nextpid, with the history of exits, of reaps and of births. */
  datatype State = State(
    procs: seq<Proc>, nextpid: nat, exits: map<nat, int>, reaps: seq<Reap>, births: map<nat, Birth>)

  datatype Event =
    | Fork(p: nat, c: nat)
    | ExitBegin(p: nat, status: int)   // acquire init's lock, wakeup1(initproc), release
    | ExitCopy(p: nat)                 // acquire own lock, copy p->parent, release
    | ExitLockParent(p: nat)
    | ExitLockSelf(p: nat)
    | ExitStep(p: nat)                 // one iteration of reparent
    | ExitMark(p: nat)                 // wakeup1(original_parent), xstate, ZOMBIE
    | ExitUnlockParent(p: nat)
    | ExitDone(p: nat)                 // sched; the scheduler releases p->lock
    | WaitBegin(p: nat)                // acquire own lock
    | WaitStep(p: nat, copied: bool)   // one iteration of wait's scan; copied: copyout succeeds
    | WaitFail(p: nat)                 // no children, or killed: return -1
    | WaitSleep(p: nat)                // sleep: chan and state
    | WaitYield(p: nat)                // sched; the scheduler releases p->lock
    | Schedule(p: nat)                 // the scheduler takes p->lock and resumes wait
    | Kill(p: nat)

  const FREE := Proc(Unused, None, 0, 0, false, false, None, NoProcess)

  /** init is running, every other slot is free. */
  function Init(count: nat): State {
    State(seq(count, i => if i == INIT then Proc(Running, None, 1, 0, false, false, None, User) else FREE),
          2, map[], [], map[1 := Birth(INIT, 1)])
  }

  /** wakeup1 */
  function Wake(x: Proc): Proc {
    if x.chan && x.state.Sleeping? then x.(state := Runnable) else x
  }

  function Set(s: State, p: nat, x: Proc): State
    requires p < |s.procs|
  {
    s.(procs := s.procs[p := x])
  }

  function Next(s: State, e: Event): Option<State> {
    if e.p >= |s.procs| then None
    else
      match e
      case Fork(p, c) => NextFork(s, p, c)
      case ExitBegin(p, status) =>
        if s.procs[p].pc.User? && p != INIT && s.procs[INIT].lock.None?
        then Some(Set(Set(s, INIT, Wake(s.procs[INIT])), p, s.procs[p].(pc := ExitStart(status)))) else None
      case ExitCopy(p) =>
        var x := s.procs[p];
        if x.pc.ExitStart? && x.lock.None? && x.parent.Some?
        then Some(Set(s, p, x.(pc := ExitParent(x.pc.status, x.parent.value)))) else None
      case ExitLockParent(p) =>
        var x := s.procs[p];
        if x.pc.ExitParent? && x.pc.orig < |s.procs| && x.pc.orig != p && s.procs[x.pc.orig].lock.None?
        then Some(Set(Set(s, x.pc.orig, s.procs[x.pc.orig].(lock := Some(p))), p,
          x.(pc := ExitHeld(x.pc.status, x.pc.orig))))
        else None
      case ExitLockSelf(p) =>
        var x := s.procs[p];
        if x.pc.ExitHeld? && x.lock.None?
        then Some(Set(s, p, x.(lock := Some(p), pc := ExitReparent(x.pc.status, x.pc.orig, 0)))) else None
      case ExitStep(p) => NextReparent(s, p)
      case ExitMark(p) => NextMark(s, p)
      case ExitUnlockParent(p) =>
        var x := s.procs[p];
        if x.pc.ExitZombie? && x.pc.orig < |s.procs| && x.pc.orig != p
        then Some(Set(Set(s, x.pc.orig, s.procs[x.pc.orig].(lock := None)), p, x.(pc := ExitSched))) else None
      case ExitDone(p) =>
        var x := s.procs[p];
        if x.pc.ExitSched? then Some(Set(s, p, x.(lock := None, pc := Dead))) else None
      case WaitBegin(p) =>
        var x := s.procs[p];
        if x.pc.User? && x.lock.None? then Some(Set(s, p, x.(lock := Some(p), pc := WaitScan(0, false)))) else None
      case WaitStep(p, copied) => NextScan(s, p, copied)
      case WaitFail(p) =>
        var x := s.procs[p];
        if x.pc.WaitScan? && x.pc.k == |s.procs| && (!x.pc.havekids || x.killed)
        then Some(Set(s, p, x.(lock := None, pc := User))) else None
      case WaitSleep(p) =>
        var x := s.procs[p];
        if x.pc.WaitScan? && x.pc.k == |s.procs| && x.pc.havekids && !x.killed
        then Some(Set(s, p, x.(chan := true, state := Sleeping, pc := WaitMarked))) else None
      case WaitYield(p) =>
        var x := s.procs[p];
        if x.pc.WaitMarked? then Some(Set(s, p, x.(lock := None, pc := WaitAsleep))) else None
      case Schedule(p) =>
        var x := s.procs[p];
        if x.pc.WaitAsleep? && x.state.Runnable? && x.lock.None?
        then Some(Set(s, p, x.(state := Running, chan := false, lock := Some(p), pc := WaitScan(0, false)))) else None
      case Kill(p) =>
        var x := s.procs[p];
        if x.lock.None? && !x.state.Unused?
        then Some(Set(s, p, x.(killed := true, state := if x.state.Sleeping? then Runnable else x.state))) else None
  }

  /** fork with the slot and the memory it needs: the child is published under its own lock. */
  function NextFork(s: State, p: nat, c: nat): Option<State>
    requires p < |s.procs|
  {
    if c < |s.procs| && s.procs[p].pc.User? && s.procs[c].state.Unused? && s.procs[c].lock.None?
    then
      var child := Proc(Runnable, Some(p), s.nextpid, 0, false, false, None, User);
      Some(Set(s, c, child).(nextpid := s.nextpid + 1, births := s.births[s.nextpid := Birth(c, s.procs[p].pid)]))
    else None
  }

  function NextReparent(s: State, p: nat): Option<State>
    requires p < |s.procs|
  {
    var x := s.procs[p];
    if !x.pc.ExitReparent? || x.pc.k >= |s.procs| then None
    else
      var k, y := x.pc.k, x.(pc := ExitReparent(x.pc.status, x.pc.orig, x.pc.k + 1));
      if s.procs[k].parent != Some(p) then Some(Set(s, p, y))
      else if k != p && s.procs[k].lock.None?
      then Some(Set(Set(s, k, s.procs[k].(parent := Some(INIT))), p, y))
      else None
  }

  function NextMark(s: State, p: nat): Option<State>
    requires p < |s.procs|
  {
    var x := s.procs[p];
    if x.pc.ExitReparent? && x.pc.k == |s.procs| && x.pc.orig < |s.procs| && x.pc.orig != p
    then
      var y := x.(xstate := x.pc.status, state := Zombie, pc := ExitZombie(x.pc.orig));
      Some(Set(Set(s, x.pc.orig, Wake(s.procs[x.pc.orig])), p, y).(exits := s.exits[x.pid := x.pc.status]))
    else None
  }

  /** One iteration of wait's loop over the table. */
  function NextScan(s: State, p: nat, copied: bool): Option<State>
    requires p < |s.procs|
  {
    var x := s.procs[p];
    if !x.pc.WaitScan? || x.pc.k >= |s.procs| then None
    else
      var k := x.pc.k;
      var np := s.procs[k];
      if np.parent != Some(p) then Some(Set(s, p, x.(pc := WaitScan(k + 1, x.pc.havekids))))
      else if k == p || np.lock.Some? then None
      else if !np.state.Zombie? then Some(Set(s, p, x.(pc := WaitScan(k + 1, true))))
      else if !copied then Some(Set(s, p, x.(lock := None, pc := User)))
      else Some(Set(Set(s, k, FREE), p, x.(lock := None, pc := User))
        .(reaps := s.reaps + [Reap(x.pid, np.pid, np.xstate)]))
  }

  function Run(s: State, es: seq<Event>): Option<State>
    decreases |es|
  {
    if es == [] then Some(s)
    else match Next(s, es[0])
      case None => None
      case Some(t) => Run(t, es[1..])
  }

  ghost predicate Reachable(count: nat, s: State) {
    exists es :: Run(Init(count), es) == Some(s)
  }

  /* Locks: who holds each process lock agrees with where the holders are. */

  predicate HoldsSelf(pc: Pc) {
    pc.ExitReparent? || pc.ExitZombie? || pc.ExitSched? || pc.WaitScan? || pc.WaitMarked?
  }

  predicate HoldsOrig(pc: Pc) {
    pc.ExitHeld? || pc.ExitReparent? || pc.ExitZombie?
  }

  ghost predicate LockOk(ps: seq<Proc>, p: nat)
    requires p < |ps|
  {
    var x := ps[p];
    && (HoldsSelf(x.pc) ==> x.lock == Some(p))
    && (HoldsOrig(x.pc) ==> x.pc.orig < |ps| && x.pc.orig != p && ps[x.pc.orig].lock == Some(p))
    && (x.lock.Some? ==>
          && x.lock.value < |ps|
          && var h := ps[x.lock.value].pc;
             (x.lock.value == p && HoldsSelf(h)) || (x.lock.value != p && HoldsOrig(h) && h.orig == p))
  }

  /* The process itself and its parent. */

  predicate Gone(pc: Pc) { pc.ExitZombie? || pc.ExitSched? || pc.Dead? }

  predicate ProcOk(x: Proc) {
    && (x.state.Unused? <==> x.pc.NoProcess?)
    && (x.state.Zombie? <==> Gone(x.pc))
    && (x.state.Sleeping? ==> (x.pc.WaitMarked? || x.pc.WaitAsleep?) && x.chan)
    && (x.pc.WaitMarked? ==> x.state.Sleeping?)
    && (x.pc.WaitAsleep? ==> x.state.Sleeping? || x.state.Runnable?)
    && (x.state.Unused? ==> x.parent.None?)
  }

  predicate Exiting(pc: Pc) {
    pc.ExitStart? || pc.ExitParent? || HoldsOrig(pc) || pc.ExitSched? || pc.Dead?
  }

  /** Slot 0 is init: it has no parent, and it never exits. */
  predicate InitOk(ps: seq<Proc>) {
    |ps| > 0 && ps[INIT].parent.None? && !ps[INIT].pc.NoProcess? && !Exiting(ps[INIT].pc)
  }

  /** A process's parent is a process that has not yet given it away. */
  ghost predicate ParentOk(ps: seq<Proc>, c: nat)
    requires c < |ps|
  {
    var x := ps[c];
    && (c != INIT && !x.state.Unused? ==> x.parent.Some?)
    && (x.parent.Some? ==>
          && x.parent.value < |ps| && x.parent.value != c
          && var h := ps[x.parent.value].pc;
             !h.NoProcess? && !Gone(h) && (h.ExitReparent? ==> h.k <= c))
  }

  /** The parent exit has copied is still the parent, unless the process was given to init. */
  predicate OrigOk(x: Proc) {
    x.pc.ExitParent? || HoldsOrig(x.pc) ==> x.parent == Some(x.pc.orig) || x.parent == Some(INIT)
  }

  /** The process sleeps in wait, or is certain to. */
  predicate InWaitSleep(x: Proc) {
    x.pc.WaitMarked? || (x.pc.WaitAsleep? && x.state.Sleeping?)
  }

  /** A zombie's parent, other than init, has not scanned past it and is not asleep in wait. */
  ghost predicate ZombieSeen(ps: seq<Proc>, c: nat)
    requires c < |ps|
  {
    var x := ps[c];
    x.state.Zombie? && x.parent.Some? && x.parent.value != INIT && x.parent.value < |ps| ==>
      var h := ps[x.parent.value];
      !InWaitSleep(h) && (h.pc.WaitScan? ==> h.pc.k <= c)
  }

  /* Pids and the history of exits and reaps. */

  ghost predicate PidOk(s: State, c: nat)
    requires c < |s.procs|
  {
    var x := s.procs[c];
    !x.state.Unused? ==>
      && x.pid < s.nextpid && x.pid in s.births && s.births[x.pid].slot == c
      && (forall i :: 0 <= i < |s.reaps| ==> s.reaps[i].pid != x.pid)
      && (x.pid in s.exits <==> x.state.Zombie?)
      && (x.state.Zombie? ==> s.exits[x.pid] == x.xstate)
  }

  ghost predicate HistoryOk(s: State) {
    && (forall pid :: pid in s.exits ==> pid < s.nextpid)
    && (forall i :: 0 <= i < |s.reaps| ==>
          && s.reaps[i].pid < s.nextpid && s.reaps[i].pid in s.exits
          && s.exits[s.reaps[i].pid] == s.reaps[i].status)
    && (forall i, j :: 0 <= i < j < |s.reaps| ==> s.reaps[i].pid != s.reaps[j].pid)
  }

  ghost predicate LockInv(ps: seq<Proc>) {
    forall p :: 0 <= p < |ps| ==> LockOk(ps, p)
  }

  ghost predicate FamilyInv(ps: seq<Proc>) {
    && InitOk(ps)
    && (forall p :: 0 <= p < |ps| ==> ProcOk(ps[p]) && OrigOk(ps[p]))
    && (forall p :: 0 <= p < |ps| ==> ParentOk(ps, p) && ZombieSeen(ps, p))
  }

  ghost predicate PidInv(s: State) {
    HistoryOk(s) && forall p :: 0 <= p < |s.procs| ==> PidOk(s, p)
  }

  ghost predicate Inv(s: State) {
    LockInv(s.procs) && FamilyInv(s.procs) && PidInv(s)
  }

  lemma InvInit(count: nat)
    requires count > 0
    ensures Inv(Init(count))
  {
    var s := Init(count);
    forall p | 0 <= p < count
      ensures LockOk(s.procs, p) && ParentOk(s.procs, p) && ZombieSeen(s.procs, p) && PidOk(s, p)
    {}
  }

  /* Locks. */

  /** What the lock invariant sees of a process. */
  predicate SameLocks(x: Proc, y: Proc) {
    && x.lock == y.lock && (HoldsSelf(x.pc) <==> HoldsSelf(y.pc)) && (HoldsOrig(x.pc) <==> HoldsOrig(y.pc))
    && (HoldsOrig(x.pc) ==> x.pc.orig == y.pc.orig)
  }

  lemma LocksUntouched(s: State, t: State)
    requires LockInv(s.procs) && |t.procs| == |s.procs|
    requires forall q :: 0 <= q < |s.procs| ==> SameLocks(s.procs[q], t.procs[q])
    ensures LockInv(t.procs)
  {
    forall q | 0 <= q < |t.procs| ensures LockOk(t.procs, q) {
      assert LockOk(s.procs, q) && SameLocks(s.procs[q], t.procs[q]);
      if HoldsOrig(s.procs[q].pc) { assert SameLocks(s.procs[s.procs[q].pc.orig], t.procs[s.procs[q].pc.orig]); }
      if s.procs[q].lock.Some? { assert SameLocks(s.procs[s.procs[q].lock.value], t.procs[s.procs[q].lock.value]); }
    }
  }

  /** Process p takes its own free lock, or releases it. */
  lemma SelfLock(s: State, p: nat, y: Proc)
    requires LockInv(s.procs) && p < |s.procs|
    requires
      var x := s.procs[p];
      && (HoldsOrig(x.pc) <==> HoldsOrig(y.pc)) && (HoldsOrig(x.pc) ==> x.pc.orig == y.pc.orig)
      && ((x.lock.None? && y.lock == Some(p) && HoldsSelf(y.pc)) ||
        (HoldsSelf(x.pc) && y.lock.None? && !HoldsSelf(y.pc)))
    ensures LockInv(Set(s, p, y).procs)
  {
    var t := Set(s, p, y);
    assert LockOk(s.procs, p);
    forall q | 0 <= q < |t.procs| ensures LockOk(t.procs, q) { assert LockOk(s.procs, q); }
  }

  /** Process p, holding no lock, takes the free lock of another. */
  lemma OrigLock(s: State, p: nat, y: Proc)
    requires LockInv(s.procs) && p < |s.procs| && y.pc.ExitHeld? && y.pc.orig < |s.procs| && y.pc.orig != p
    requires !HoldsSelf(s.procs[p].pc) && !HoldsOrig(s.procs[p].pc) && y.lock == s.procs[p].lock
    requires s.procs[y.pc.orig].lock.None?
    ensures LockInv(Set(Set(s, y.pc.orig, s.procs[y.pc.orig].(lock := Some(p))), p, y).procs)
  {
    var t := Set(Set(s, y.pc.orig, s.procs[y.pc.orig].(lock := Some(p))), p, y);
    assert LockOk(s.procs, p);
    forall q | 0 <= q < |t.procs| ensures LockOk(t.procs, q) { assert LockOk(s.procs, q); }
  }

  lemma OrigUnlock(s: State, p: nat)
    requires LockInv(s.procs) && p < |s.procs| && s.procs[p].pc.ExitZombie?
    ensures s.procs[p].pc.orig < |s.procs| && s.procs[p].pc.orig != p
    ensures LockInv(Next(s, ExitUnlockParent(p)).value.procs)
  {
    assert LockOk(s.procs, p);
    var t := Next(s, ExitUnlockParent(p)).value;
    forall q | 0 <= q < |t.procs| ensures LockOk(t.procs, q) { assert LockOk(s.procs, q); }
  }

  lemma LockKeeps(s: State, e: Event)
    requires LockInv(s.procs) && FamilyInv(s.procs) && Next(s, e).Some?
    ensures LockInv(Next(s, e).value.procs)
  {
    var t := Next(s, e).value;
    assert LockOk(s.procs, e.p);
    var y := t.procs[e.p];
    match e
    case ExitLockParent(p) => OrigLock(s, p, y);
    case ExitLockSelf(p) => SelfLock(s, p, y);
    case ExitUnlockParent(p) => OrigUnlock(s, p);
    case ExitDone(p) => SelfLock(s, p, y);
    case WaitBegin(p) => SelfLock(s, p, y);
    case WaitFail(p) => SelfLock(s, p, y);
    case WaitYield(p) => SelfLock(s, p, y);
    case Schedule(p) => SelfLock(s, p, y);
    case WaitStep(p, copied) => ScanLocks(s, p, copied);
    case _ => QuietLocks(s, e);
  }

  /** The other steps neither take nor release a lock for longer than the step. */
  lemma QuietLocks(s: State, e: Event)
    requires LockInv(s.procs) && FamilyInv(s.procs) && Next(s, e).Some?
    requires e.Fork? || e.ExitBegin? || e.ExitCopy? || e.ExitStep? || e.ExitMark? || e.WaitSleep? || e.Kill?
    ensures LockInv(Next(s, e).value.procs)
  {
    LocksUntouched(s, Next(s, e).value);
  }

  lemma ScanLocks(s: State, p: nat, copied: bool)
    requires LockInv(s.procs) && FamilyInv(s.procs) && p < |s.procs| && NextScan(s, p, copied).Some?
    ensures LockInv(NextScan(s, p, copied).value.procs)
  {
    var t := NextScan(s, p, copied).value;
    var k := s.procs[p].pc.k;
    if t.procs[p].pc.User? {
      SelfLock(s, p, t.procs[p]);
      var u := Set(s, p, t.procs[p]);
      forall q | 0 <= q < |u.procs| ensures SameLocks(u.procs[q], t.procs[q]) {
        assert LockOk(s.procs, k);
      }
      LocksUntouched(u, t);
    } else {
      LocksUntouched(s, t);
    }
  }

  /* Families. */

  lemma ForkFamily(s: State, p: nat, c: nat)
    requires FamilyInv(s.procs) && p < |s.procs| && NextFork(s, p, c).Some?
    ensures FamilyInv(NextFork(s, p, c).value.procs)
  {
    var t := NextFork(s, p, c).value;
    forall q | 0 <= q < |t.procs| ensures ParentOk(t.procs, q) && ZombieSeen(t.procs, q) {
      assert ParentOk(s.procs, q) && ZombieSeen(s.procs, q);
    }
  }

  /** A step after which a process is no further from its children than before. */
  lemma QuietFamily(s: State, t: State, p: nat)
    requires FamilyInv(s.procs) && |t.procs| == |s.procs| && p < |s.procs|
    requires forall q :: 0 <= q < |s.procs| && q != p ==> t.procs[q] == s.procs[q].(lock := t.procs[q].lock)
    requires
      var x, y := s.procs[p], t.procs[p];
      && ProcOk(y) && OrigOk(y) && y.parent == x.parent && (y.state.Zombie? <==> x.state.Zombie?)
      && !y.pc.NoProcess? && (Gone(y.pc) ==> Gone(x.pc)) && (p == INIT ==> !Exiting(y.pc))
      && (y.pc.ExitReparent? ==> y.pc.k == 0)
      && (y.pc.WaitScan? ==> y.pc.k == 0) && (InWaitSleep(y) ==> InWaitSleep(x))
      && !x.pc.NoProcess?
    ensures FamilyInv(t.procs)
  {
    forall q | 0 <= q < |t.procs| ensures ParentOk(t.procs, q) && ZombieSeen(t.procs, q) {
      assert ParentOk(s.procs, q) && ZombieSeen(s.procs, q);
      if s.procs[q].parent.Some? {
        var h := s.procs[q].parent.value;
        assert h != p ==> t.procs[h] == s.procs[h].(lock := t.procs[h].lock);
      }
    }
  }

  lemma ExitBeginFamily(s: State, p: nat, status: int)
    requires FamilyInv(s.procs) && LockInv(s.procs) && p < |s.procs| && Next(s, ExitBegin(p, status)).Some?
    ensures FamilyInv(Next(s, ExitBegin(p, status)).value.procs)
  {
    var t := Next(s, ExitBegin(p, status)).value;
    assert LockOk(s.procs, INIT);
    forall q | 0 <= q < |t.procs| ensures ParentOk(t.procs, q) && ZombieSeen(t.procs, q) {
      assert ParentOk(s.procs, q) && ZombieSeen(s.procs, q);
    }
  }

  /** A child is given to init. */
  lemma GiveFamily(s: State, k: nat)
    requires FamilyInv(s.procs) && k < |s.procs| && k != INIT && s.procs[k].parent.Some?
    ensures FamilyInv(s.procs[k := s.procs[k].(parent := Some(INIT))])
  {
    var ps := s.procs[k := s.procs[k].(parent := Some(INIT))];
    forall q | 0 <= q < |ps| ensures ParentOk(ps, q) && ZombieSeen(ps, q) {
      assert ParentOk(s.procs, q) && ZombieSeen(s.procs, q);
    }
  }

  /** reparent moves past a slot that is not a child. */
  lemma PastFamily(s: State, p: nat)
    requires FamilyInv(s.procs) && p < |s.procs|
    requires var pc := s.procs[p].pc; pc.ExitReparent? && pc.k < |s.procs| && s.procs[pc.k].parent != Some(p)
    ensures var pc := s.procs[p].pc;
            FamilyInv(s.procs[p := s.procs[p].(pc := ExitReparent(pc.status, pc.orig, pc.k + 1))])
  {
    var pc := s.procs[p].pc;
    var ps := s.procs[p := s.procs[p].(pc := ExitReparent(pc.status, pc.orig, pc.k + 1))];
    forall q | 0 <= q < |ps| ensures ParentOk(ps, q) && ZombieSeen(ps, q) {
      assert ParentOk(s.procs, q) && ZombieSeen(s.procs, q);
    }
  }

  lemma ReparentFamily(s: State, p: nat)
    requires FamilyInv(s.procs) && p < |s.procs| && NextReparent(s, p).Some?
    ensures FamilyInv(NextReparent(s, p).value.procs)
  {
    var k := s.procs[p].pc.k;
    assert p != INIT;
    if s.procs[k].parent != Some(p) {
      PastFamily(s, p);
    } else {
      GiveFamily(s, k);
      PastFamily(Set(s, k, s.procs[k].(parent := Some(INIT))), p);
    }
  }

  /**
   The new zombie's parent cannot be in a scan or asleep: the zombie-to-be holds the parent's lock and has just woken
   it.
   */
  lemma MarkFamily(s: State, p: nat)
    requires FamilyInv(s.procs) && LockInv(s.procs) && p < |s.procs| && NextMark(s, p).Some?
    ensures FamilyInv(NextMark(s, p).value.procs)
  {
    var t := NextMark(s, p).value;
    var orig := s.procs[p].pc.orig;
    assert LockOk(s.procs, p) && LockOk(s.procs, orig) && ParentOk(s.procs, p);
    forall q | 0 <= q < |t.procs| ensures ParentOk(t.procs, q) && ZombieSeen(t.procs, q) {
      assert ParentOk(s.procs, q) && ZombieSeen(s.procs, q);
    }
  }

  /** wait's scan moves past a slot that holds no zombie child. */
  lemma AdvanceFamily(s: State, p: nat, havekids: bool)
    requires FamilyInv(s.procs) && p < |s.procs| && s.procs[p].pc.WaitScan? && s.procs[p].pc.k < |s.procs|
    requires var k := s.procs[p].pc.k; s.procs[k].parent == Some(p) ==> !s.procs[k].state.Zombie?
    ensures FamilyInv(s.procs[p := s.procs[p].(pc := WaitScan(s.procs[p].pc.k + 1, havekids))])
  {
    var ps := s.procs[p := s.procs[p].(pc := WaitScan(s.procs[p].pc.k + 1, havekids))];
    forall q | 0 <= q < |ps| ensures ParentOk(ps, q) && ZombieSeen(ps, q) {
      assert ParentOk(s.procs, q) && ZombieSeen(s.procs, q);
    }
  }

  lemma ScanFamily(s: State, p: nat, copied: bool)
    requires FamilyInv(s.procs) && p < |s.procs| && NextScan(s, p, copied).Some?
    ensures FamilyInv(NextScan(s, p, copied).value.procs)
  {
    var t := NextScan(s, p, copied).value;
    var k := s.procs[p].pc.k;
    if s.procs[k].parent != Some(p) {
      AdvanceFamily(s, p, s.procs[p].pc.havekids);
    } else if !s.procs[k].state.Zombie? {
      AdvanceFamily(s, p, true);
    } else {
      var u := Set(s, p, t.procs[p]);
      QuietFamily(s, u, p);
      if copied {
        ReapFamily(u, k);
        assert u.procs[k := FREE] == t.procs;
      }
    }
  }

  /** freeproc of a zombie: nobody has it as parent any more. */
  lemma ReapFamily(s: State, k: nat)
    requires FamilyInv(s.procs) && k < |s.procs| && s.procs[k].state.Zombie?
    ensures FamilyInv(Set(s, k, FREE).procs)
  {
    var t := Set(s, k, FREE);
    assert k != INIT;
    forall q | 0 <= q < |t.procs| ensures ParentOk(t.procs, q) && ZombieSeen(t.procs, q) {
      assert ParentOk(s.procs, q) && ZombieSeen(s.procs, q);
    }
  }

  lemma WaitSleepFamily(s: State, p: nat)
    requires FamilyInv(s.procs) && p < |s.procs| && Next(s, WaitSleep(p)).Some?
    ensures FamilyInv(Next(s, WaitSleep(p)).value.procs)
  {
    var t := Next(s, WaitSleep(p)).value;
    forall q | 0 <= q < |t.procs| ensures ParentOk(t.procs, q) && ZombieSeen(t.procs, q) {
      assert ParentOk(s.procs, q) && ZombieSeen(s.procs, q);
    }
  }

  lemma FamilyKeeps(s: State, e: Event)
    requires FamilyInv(s.procs) && LockInv(s.procs) && Next(s, e).Some?
    ensures FamilyInv(Next(s, e).value.procs)
  {
    match e
    case Fork(p, c) => ForkFamily(s, p, c);
    case ExitBegin(p, status) => ExitBeginFamily(s, p, status);
    case ExitStep(p) => ReparentFamily(s, p);
    case ExitMark(p) => MarkFamily(s, p);
    case WaitStep(p, copied) => ScanFamily(s, p, copied);
    case WaitSleep(p) => WaitSleepFamily(s, p);
    case ExitCopy(_) => ExitQuiet(s, e);
    case ExitLockParent(_) => ExitQuiet(s, e);
    case ExitLockSelf(_) => ExitQuiet(s, e);
    case ExitUnlockParent(_) => ExitQuiet(s, e);
    case ExitDone(_) => ExitQuiet(s, e);
    case _ => WaitQuiet(s, e);
  }

  lemma ExitQuiet(s: State, e: Event)
    requires FamilyInv(s.procs) && LockInv(s.procs) && Next(s, e).Some?
    requires e.ExitCopy? || e.ExitLockParent? || e.ExitLockSelf? || e.ExitUnlockParent? || e.ExitDone?
    ensures FamilyInv(Next(s, e).value.procs)
  {
    assert LockOk(s.procs, e.p);
    QuietFamily(s, Next(s, e).value, e.p);
  }

  lemma WaitQuiet(s: State, e: Event)
    requires FamilyInv(s.procs) && LockInv(s.procs) && Next(s, e).Some?
    requires e.WaitBegin? || e.WaitFail? || e.WaitYield? || e.Schedule? || e.Kill?
    ensures FamilyInv(Next(s, e).value.procs)
  {
    assert LockOk(s.procs, e.p);
    QuietFamily(s, Next(s, e).value, e.p);
  }

  /* Pids. */

  lemma ForkPids(s: State, p: nat, c: nat)
    requires PidInv(s) && p < |s.procs| && NextFork(s, p, c).Some?
    ensures PidInv(NextFork(s, p, c).value)
  {
    var t := NextFork(s, p, c).value;
    forall q | 0 <= q < |t.procs| ensures PidOk(t, q) { assert PidOk(s, q); }
  }

  lemma MarkPids(s: State, p: nat)
    requires PidInv(s) && FamilyInv(s.procs) && p < |s.procs| && NextMark(s, p).Some?
    ensures PidInv(NextMark(s, p).value)
  {
    var t := NextMark(s, p).value;
    assert PidOk(s, p);
    forall q | 0 <= q < |t.procs| ensures PidOk(t, q) { assert PidOk(s, q); }
  }

  lemma ScanPids(s: State, p: nat, copied: bool)
    requires PidInv(s) && FamilyInv(s.procs) && p < |s.procs| && NextScan(s, p, copied).Some?
    ensures PidInv(NextScan(s, p, copied).value)
  {
    var t := NextScan(s, p, copied).value;
    var k := s.procs[p].pc.k;
    assert PidOk(s, k);
    forall q | 0 <= q < |t.procs| ensures PidOk(t, q) { assert PidOk(s, q); }
    forall i, j | 0 <= i < j < |t.reaps| ensures t.reaps[i].pid != t.reaps[j].pid {}
  }

  /** What the pid invariant sees of a process. */
  predicate SamePids(x: Proc, y: Proc) {
    && x.pid == y.pid && x.xstate == y.xstate
    && (x.state.Zombie? <==> y.state.Zombie?) && (x.state.Unused? <==> y.state.Unused?)
  }

  /** The other steps leave pids, statuses and the history alone. */
  lemma QuietPids(s: State, t: State)
    requires PidInv(s) && t == s.(procs := t.procs) && |t.procs| == |s.procs|
    requires forall q :: 0 <= q < |s.procs| ==> SamePids(s.procs[q], t.procs[q])
    ensures PidInv(t)
  {
    forall q | 0 <= q < |t.procs| ensures PidOk(t, q) { assert PidOk(s, q) && SamePids(s.procs[q], t.procs[q]); }
  }

  lemma ExitPids(s: State, e: Event)
    requires FamilyInv(s.procs) && PidInv(s) && Next(s, e).Some?
    requires e.ExitBegin? || e.ExitCopy? || e.ExitLockParent? || e.ExitLockSelf? || e.ExitUnlockParent? || e.ExitDone?
    ensures PidInv(Next(s, e).value)
  {
    QuietPids(s, Next(s, e).value);
  }

  lemma ReparentPids(s: State, p: nat)
    requires PidInv(s) && p < |s.procs| && NextReparent(s, p).Some?
    ensures PidInv(NextReparent(s, p).value)
  {
    QuietPids(s, NextReparent(s, p).value);
  }

  lemma WaitPids(s: State, e: Event)
    requires FamilyInv(s.procs) && PidInv(s) && Next(s, e).Some?
    requires e.WaitBegin? || e.WaitFail? || e.WaitSleep? || e.WaitYield? || e.Schedule? || e.Kill?
    ensures PidInv(Next(s, e).value)
  {
    assert ProcOk(s.procs[e.p]);
    QuietPids(s, Next(s, e).value);
  }

  lemma PidKeeps(s: State, e: Event)
    requires PidInv(s) && FamilyInv(s.procs) && Next(s, e).Some?
    ensures PidInv(Next(s, e).value)
  {
    match e
    case Fork(p, c) => ForkPids(s, p, c);
    case ExitStep(p) => ReparentPids(s, p);
    case ExitMark(p) => MarkPids(s, p);
    case WaitStep(p, copied) => ScanPids(s, p, copied);
    case ExitBegin(_, _) => ExitPids(s, e);
    case ExitCopy(_) => ExitPids(s, e);
    case ExitLockParent(_) => ExitPids(s, e);
    case ExitLockSelf(_) => ExitPids(s, e);
    case ExitUnlockParent(_) => ExitPids(s, e);
    case ExitDone(_) => ExitPids(s, e);
    case _ => WaitPids(s, e);
  }

  lemma {:induction false} RunKeeps(s: State, es: seq<Event>)
    requires Inv(s) && Run(s, es).Some?
    ensures Inv(Run(s, es).value)
    decreases |es|
  {
    if es != [] {
      LockKeeps(s, es[0]);
      FamilyKeeps(s, es[0]);
      PidKeeps(s, es[0]);
      RunKeeps(Next(s, es[0]).value, es[1..]);
    }
  }

  lemma ReachableInv(count: nat, s: State)
    requires count > 0 && Reachable(count, s)
    ensures Inv(s)
  {
    InvInit(count);
    var es :| Run(Init(count), es) == Some(s);
    RunKeeps(Init(count), es);
  }

  /**
   In every reachable state every process but init has a live parent: one that is neither free nor a
   zombie, and that still has to hand the process to init if it is exiting.
   */
  lemma ParentIsLive(count: nat, s: State, c: nat)
    requires count > 0 && Reachable(count, s) && 0 < c < |s.procs| && !s.procs[c].state.Unused?
    ensures s.procs[c].parent.Some? && s.procs[c].parent.value < |s.procs|
    ensures var x := s.procs[s.procs[c].parent.value]; !x.state.Unused? && !x.state.Zombie?
  {
    ReachableInv(count, s);
    assert ParentOk(s.procs, c) && ProcOk(s.procs[s.procs[c].parent.value]);
  }

  /**
   No exit is missed: in no reachable state is a parent other than init asleep in wait, or committed to
   sleeping, while it has a zombie child.
   */
  lemma NoMissedExit(count: nat, s: State, c: nat)
    requires count > 0 && Reachable(count, s) && c < |s.procs| && s.procs[c].state.Zombie?
    ensures s.procs[c].parent.Some? && s.procs[c].parent.value < |s.procs|
    ensures s.procs[c].parent != Some(INIT) ==> !InWaitSleep(s.procs[s.procs[c].parent.value])
  {
    ReachableInv(count, s);
    assert ParentOk(s.procs, c) && ZombieSeen(s.procs, c);
  }

  /* Who reaps whom. */

  const INIT_PID := 1

  /** A process's parent is the process that forked it, or init. */
  ghost predicate KinOk(s: State, c: nat)
    requires c < |s.procs|
  {
    var x := s.procs[c];
    c != INIT && !x.state.Unused? ==>
      && x.pid in s.births && x.parent.Some? && x.parent.value < |s.procs|
      && (x.parent.value == INIT || s.procs[x.parent.value].pid == s.births[x.pid].forker)
  }

  ghost predicate ReapOk(s: State, r: Reap) {
    r.pid in s.births && (r.waiter == INIT_PID || r.waiter == s.births[r.pid].forker)
  }

  ghost predicate KinInv(s: State) {
    && |s.procs| > 0 && s.procs[INIT].pid == INIT_PID
    && (forall c :: 0 <= c < |s.procs| ==> KinOk(s, c))
    && (forall i :: 0 <= i < |s.reaps| ==> ReapOk(s, s.reaps[i]))
  }

  /** What that sees of a step that neither forks nor reaps: a process may be given to init. */
  predicate SameKin(x: Proc, y: Proc) {
    x.pid == y.pid && (x.state.Unused? <==> y.state.Unused?) && (y.parent == x.parent || y.parent == Some(INIT))
  }

  lemma QuietKin(s: State, t: State)
    requires KinInv(s) && |t.procs| == |s.procs| && t.births == s.births && t.reaps == s.reaps
    requires forall q :: 0 <= q < |s.procs| ==> SameKin(s.procs[q], t.procs[q])
    ensures KinInv(t)
  {
    forall c | 0 <= c < |t.procs| ensures KinOk(t, c) {
      assert KinOk(s, c) && SameKin(s.procs[c], t.procs[c]);
      if s.procs[c].parent.Some? && s.procs[c].parent.value < |s.procs| {
        assert SameKin(s.procs[s.procs[c].parent.value], t.procs[s.procs[c].parent.value]);
      }
    }
    assert SameKin(s.procs[INIT], t.procs[INIT]);
    forall i | 0 <= i < |t.reaps| ensures ReapOk(t, t.reaps[i]) { assert ReapOk(s, s.reaps[i]); }
  }

  lemma ForkKin(s: State, p: nat, c: nat)
    requires Inv(s) && KinInv(s) && p < |s.procs| && NextFork(s, p, c).Some?
    ensures KinInv(NextFork(s, p, c).value)
  {
    var t := NextFork(s, p, c).value;
    assert ProcOk(s.procs[c]) && ProcOk(s.procs[p]);
    forall q | 0 <= q < |t.procs| ensures KinOk(t, q) {
      assert KinOk(s, q) && PidOk(s, q) && ParentOk(s.procs, q);
    }
    forall i | 0 <= i < |t.reaps| ensures ReapOk(t, t.reaps[i]) { assert ReapOk(s, s.reaps[i]); }
  }

  lemma ScanKin(s: State, p: nat, copied: bool)
    requires Inv(s) && KinInv(s) && p < |s.procs| && NextScan(s, p, copied).Some?
    ensures KinInv(NextScan(s, p, copied).value)
  {
    var t := NextScan(s, p, copied).value;
    if t.reaps == s.reaps {
      QuietKin(s, t);
    } else {
      var k := s.procs[p].pc.k;
      assert KinOk(s, k) && ProcOk(s.procs[k]);
      forall q | 0 <= q < |t.procs| ensures KinOk(t, q) {
        assert KinOk(s, q) && ParentOk(s.procs, q);
      }
      forall i | 0 <= i < |t.reaps| ensures ReapOk(t, t.reaps[i]) {
        if i < |s.reaps| { assert ReapOk(s, s.reaps[i]); }
      }
    }
  }

  lemma ExitKin(s: State, e: Event)
    requires FamilyInv(s.procs) && KinInv(s) && Next(s, e).Some?
    requires e.ExitBegin? || e.ExitCopy? || e.ExitLockParent? || e.ExitLockSelf? || e.ExitUnlockParent? || e.ExitDone?
    ensures KinInv(Next(s, e).value)
  {
    QuietKin(s, Next(s, e).value);
  }

  lemma ReparentKin(s: State, e: Event)
    requires FamilyInv(s.procs) && KinInv(s) && Next(s, e).Some? && (e.ExitStep? || e.ExitMark?)
    ensures KinInv(Next(s, e).value)
  {
    assert ProcOk(s.procs[e.p]);
    QuietKin(s, Next(s, e).value);
  }

  lemma WaitKin(s: State, e: Event)
    requires FamilyInv(s.procs) && KinInv(s) && Next(s, e).Some?
    requires e.WaitBegin? || e.WaitFail? || e.WaitSleep? || e.WaitYield? || e.Schedule? || e.Kill?
    ensures KinInv(Next(s, e).value)
  {
    assert ProcOk(s.procs[e.p]);
    QuietKin(s, Next(s, e).value);
  }

  lemma KinKeeps(s: State, e: Event)
    requires Inv(s) && KinInv(s) && Next(s, e).Some?
    ensures KinInv(Next(s, e).value)
  {
    match e
    case Fork(p, c) => ForkKin(s, p, c);
    case WaitStep(p, copied) => ScanKin(s, p, copied);
    case ExitStep(_) => ReparentKin(s, e);
    case ExitMark(_) => ReparentKin(s, e);
    case ExitBegin(_, _) => ExitKin(s, e);
    case ExitCopy(_) => ExitKin(s, e);
    case ExitLockParent(_) => ExitKin(s, e);
    case ExitLockSelf(_) => ExitKin(s, e);
    case ExitUnlockParent(_) => ExitKin(s, e);
    case ExitDone(_) => ExitKin(s, e);
    case _ => WaitKin(s, e);
  }

  lemma {:induction false} RunKin(s: State, es: seq<Event>)
    requires Inv(s) && KinInv(s) && Run(s, es).Some?
    ensures KinInv(Run(s, es).value)
    decreases |es|
  {
    if es != [] {
      KinKeeps(s, es[0]);
      LockKeeps(s, es[0]);
      FamilyKeeps(s, es[0]);
      PidKeeps(s, es[0]);
      RunKin(Next(s, es[0]).value, es[1..]);
    }
  }

  /**
   Every child is reaped at most once, with the status it passed to exit, by the process that forked it or by init.
   */
  lemma ReapedOnce(count: nat, s: State, i: nat)
    requires count > 0 && Reachable(count, s) && i < |s.reaps|
    ensures s.reaps[i].pid in s.births
    ensures s.reaps[i].waiter == s.births[s.reaps[i].pid].forker || s.reaps[i].waiter == INIT_PID
    ensures s.reaps[i].pid in s.exits && s.exits[s.reaps[i].pid] == s.reaps[i].status
    ensures forall j :: 0 <= j < |s.reaps| && j != i ==> s.reaps[j].pid != s.reaps[i].pid
    ensures forall c :: 0 <= c < |s.procs| && !s.procs[c].state.Unused? ==> s.procs[c].pid != s.reaps[i].pid
  {
    ReachableInv(count, s);
    InvInit(count);
    var es :| Run(Init(count), es) == Some(s);
    RunKin(Init(count), es);
    assert HistoryOk(s) && ReapOk(s, s.reaps[i]);
    forall c | 0 <= c < |s.procs| && !s.procs[c].state.Unused? ensures s.procs[c].pid != s.reaps[i].pid {
      assert PidOk(s, c);
    }
  }

  /* init is the exception: exit wakes init before it gives its children to it. */

  lemma {:induction false} RunSnoc(s: State, es: seq<Event>, e: Event)
    requires Run(s, es).Some?
    ensures Run(s, es + [e]) == Next(Run(s, es).value, e)
    decreases |es|
  {
    if es == [] {
      assert (es + [e])[1..] == [];
    } else {
      RunSnoc(Next(s, es[0]).value, es[1..], e);
      assert (es + [e])[1..] == es[1..] + [e];
    }
  }

  /** R is a set of states that no step leaves. */
  ghost predicate Closed(R: State -> bool) {
    forall s, e :: R(s) && Next(s, e).Some? ==> R(Next(s, e).value)
  }

  lemma ReachableClosed(count: nat)
    ensures Closed((s: State) => Reachable(count, s))
  {
    forall s, e | Reachable(count, s) && Next(s, e).Some? ensures Reachable(count, Next(s, e).value) {
      var es :| Run(Init(count), es) == Some(s);
      RunSnoc(Init(count), es, e);
    }
  }

  predicate Unlocked(s: State) {
    forall q :: 0 <= q < |s.procs| ==> s.procs[q].lock.None?
  }

  /** What slot i holds when p, in reparent, has given its children to init. */
  function Given(ps: seq<Proc>, p: nat, i: nat): Proc
    requires p < |ps| && i < |ps| && ps[p].pc.ExitReparent?
  {
    var x := ps[i];
    if i == p then x.(pc := ExitReparent(x.pc.status, x.pc.orig, |ps|))
    else if x.parent == Some(p) then x.(parent := Some(INIT)) else x
  }

  lemma ReparentOnce(R: State -> bool, s: State, p: nat) returns (t: State)
    requires Closed(R) && R(s) && p < |s.procs| && s.procs[p].parent != Some(p)
    requires s.procs[p].pc.ExitReparent? && s.procs[p].pc.k < |s.procs|
    requires var k := s.procs[p].pc.k; s.procs[k].parent == Some(p) ==> s.procs[k].lock.None?
    ensures R(t) && |t.procs| == |s.procs|
    ensures var x := s.procs[p]; t.procs[p] == x.(pc := ExitReparent(x.pc.status, x.pc.orig, x.pc.k + 1))
    ensures forall i :: 0 <= i < |s.procs| && i != p ==>
              t.procs[i] == if i == s.procs[p].pc.k then Given(s.procs, p, i) else s.procs[i]
  {
    assert Next(s, ExitStep(p)).Some?;
    t := NextReparent(s, p).value;
  }

  /** reparent's loop runs to its end. */
  lemma {:induction false} ReparentRuns(R: State -> bool, s: State, p: nat) returns (t: State)
    requires Closed(R) && R(s) && p < |s.procs| && p != INIT && s.procs[p].parent != Some(p)
    requires s.procs[p].pc.ExitReparent? && s.procs[p].pc.k <= |s.procs|
    requires forall q :: 0 <= q < |s.procs| && s.procs[q].parent == Some(p) ==>
      s.procs[q].lock.None? && q >= s.procs[p].pc.k
    ensures R(t) && |t.procs| == |s.procs|
    ensures forall i :: 0 <= i < |s.procs| ==> t.procs[i] == Given(s.procs, p, i)
    decreases |s.procs| - s.procs[p].pc.k
  {
    if s.procs[p].pc.k < |s.procs| {
      var u := ReparentOnce(R, s, p);
      t := ReparentRuns(R, u, p);
    } else {
      t := s;
    }
  }

  /** What slot i holds when p has both locks. */
  function Locked(ps: seq<Proc>, p: nat, i: nat): Proc
    requires p < |ps| && i < |ps| && ps[p].pc.ExitParent?
  {
    if i == p then ps[p].(lock := Some(p), pc := ExitReparent(ps[p].pc.status, ps[p].pc.orig, 0))
    else if i == ps[p].pc.orig then ps[i].(lock := Some(p)) else ps[i]
  }

  lemma ExitLocksRun(R: State -> bool, s: State, p: nat) returns (t: State)
    requires Closed(R) && R(s) && Unlocked(s) && p < |s.procs|
    requires s.procs[p].pc.ExitParent? && s.procs[p].pc.orig < |s.procs| && s.procs[p].pc.orig != p
    ensures R(t) && |t.procs| == |s.procs|
    ensures forall i :: 0 <= i < |s.procs| ==> t.procs[i] == Locked(s.procs, p, i)
  {
    assert Next(s, ExitLockParent(p)).Some?;
    var u := Next(s, ExitLockParent(p)).value;
    assert Next(u, ExitLockSelf(p)).Some?;
    t := Next(u, ExitLockSelf(p)).value;
  }

  /** What exit's last three steps leave in slot i. */
  function Finished(ps: seq<Proc>, p: nat, i: nat): Proc
    requires p < |ps| && i < |ps| && ps[p].pc.ExitReparent?
  {
    if i == p then ps[p].(xstate := ps[p].pc.status, state := Zombie, lock := None, pc := Dead)
    else if i == ps[p].pc.orig then Wake(ps[i]).(lock := None) else ps[i]
  }

  lemma ExitFinishes(R: State -> bool, s: State, p: nat) returns (t: State)
    requires Closed(R) && R(s) && p < |s.procs|
    requires var pc := s.procs[p].pc; pc.ExitReparent? && pc.k == |s.procs| && pc.orig < |s.procs| && pc.orig != p
    ensures R(t) && |t.procs| == |s.procs|
    ensures forall i :: 0 <= i < |s.procs| ==> t.procs[i] == Finished(s.procs, p, i)
  {
    assert Next(s, ExitMark(p)).Some?;
    var u := NextMark(s, p).value;
    assert Next(u, ExitUnlockParent(p)).Some?;
    var v := Next(u, ExitUnlockParent(p)).value;
    assert Next(v, ExitDone(p)).Some?;
    t := Next(v, ExitDone(p)).value;
  }

  /** What exit leaves in slot i. */
  function Exited(ps: seq<Proc>, p: nat, i: nat): Proc
    requires p < |ps| && i < |ps| && ps[p].pc.ExitParent?
  {
    if i == p then ps[p].(xstate := ps[p].pc.status, state := Zombie, pc := Dead)
    else if i == ps[p].pc.orig then Wake(ps[i])
    else if ps[i].parent == Some(p) then ps[i].(parent := Some(INIT)) else ps[i]
  }

  /** With no lock held, exit runs to its end. */
  lemma ExitRuns(R: State -> bool, s: State, p: nat) returns (t: State)
    requires Closed(R) && R(s) && Unlocked(s) && p < |s.procs| && p != INIT && s.procs[p].parent != Some(p)
    requires s.procs[p].pc.ExitParent? && s.procs[p].pc.orig < |s.procs| && s.procs[p].pc.orig != p
    requires s.procs[s.procs[p].pc.orig].parent != Some(p)
    ensures R(t) && |t.procs| == |s.procs|
    ensures forall i :: 0 <= i < |t.procs| ==> t.procs[i] == Exited(s.procs, p, i)
  {
    var u := ExitLocksRun(R, s, p);
    var v := ReparentRuns(R, u, p);
    t := ExitFinishes(R, v, p);
  }

  lemma ScanOnce(R: State -> bool, s: State, p: nat) returns (t: State)
    requires Closed(R) && R(s) && p < |s.procs| && s.procs[p].parent != Some(p)
    requires s.procs[p].pc.WaitScan? && s.procs[p].pc.k < |s.procs|
    requires var q := s.procs[p].pc.k; s.procs[q].parent == Some(p) ==>
      s.procs[q].lock.None? && !s.procs[q].state.Zombie?
    ensures R(t)
    ensures var k := s.procs[p].pc.k; var kids := s.procs[p].pc.havekids || s.procs[k].parent == Some(p);
            t.procs == s.procs[p := s.procs[p].(pc := WaitScan(k + 1, kids))]
  {
    assert Next(s, WaitStep(p, true)).Some?;
    t := NextScan(s, p, true).value;
  }

  /** wait's scan of a table with no zombie child of p runs to its end. */
  lemma {:induction false} ScanRuns(R: State -> bool, s: State, p: nat, child: nat) returns (t: State)
    requires Closed(R) && R(s) && p < |s.procs| && s.procs[p].parent != Some(p) && s.procs[p].pc.WaitScan?
    requires s.procs[p].pc.k <= |s.procs| && child < |s.procs| && s.procs[child].parent == Some(p)
    requires child < s.procs[p].pc.k ==> s.procs[p].pc.havekids
    requires forall q :: 0 <= q < |s.procs| && s.procs[q].parent == Some(p) ==>
                           s.procs[q].lock.None? && !s.procs[q].state.Zombie?
    ensures R(t) && t.procs == s.procs[p := s.procs[p].(pc := WaitScan(|s.procs|, true))]
    decreases |s.procs| - s.procs[p].pc.k
  {
    if s.procs[p].pc.k < |s.procs| {
      var u := ScanOnce(R, s, p);
      t := ScanRuns(R, u, p, child);
    } else {
      t := s;
      assert s.procs == s.procs[p := s.procs[p].(pc := WaitScan(|s.procs|, true))];
    }
  }

  /** With no lock held and no zombie child, wait goes to sleep. */
  lemma WaitRuns(R: State -> bool, s: State, p: nat, child: nat) returns (t: State)
    requires Closed(R) && R(s) && Unlocked(s) && p < |s.procs| && s.procs[p].parent != Some(p)
    requires s.procs[p].pc.User? && !s.procs[p].killed && child < |s.procs| && s.procs[child].parent == Some(p)
    requires forall q :: 0 <= q < |s.procs| && s.procs[q].parent == Some(p) ==> !s.procs[q].state.Zombie?
    ensures R(t)
    ensures t.procs == s.procs[p := s.procs[p].(chan := true, state := Sleeping, pc := WaitAsleep)]
  {
    assert Next(s, WaitBegin(p)).Some?;
    var u := ScanRuns(R, Next(s, WaitBegin(p)).value, p, child);
    assert Next(u, WaitSleep(p)).Some?;
    var v := Next(u, WaitSleep(p)).value;
    assert Next(v, WaitYield(p)).Some?;
    t := Next(v, WaitYield(p)).value;
    assert t.procs == s.procs[p := s.procs[p].(chan := true, state := Sleeping, pc := WaitAsleep)];
  }

  /** exit's first two steps. */
  lemma ExitStarts(R: State -> bool, s: State, p: nat) returns (t: State)
    requires Closed(R) && R(s) && Unlocked(s) && p < |s.procs| && p != INIT && s.procs[p].pc.User?
    requires s.procs[p].parent.Some? && !s.procs[INIT].state.Sleeping?
    ensures R(t) && t.procs == s.procs[p := s.procs[p].(pc := ExitParent(0, s.procs[p].parent.value))]
  {
    assert Next(s, ExitBegin(p, 0)).Some?;
    var u := Next(s, ExitBegin(p, 0)).value;
    assert Next(u, ExitCopy(p)).Some?;
    t := Next(u, ExitCopy(p)).value;
    assert t.procs == s.procs[p := s.procs[p].(pc := ExitParent(0, s.procs[p].parent.value))];
  }

  function Child(parent: nat, pid: nat): Proc {
    Proc(Runnable, Some(parent), pid, 0, false, false, None, User)
  }

  lemma ForkRuns(R: State -> bool, s: State, p: nat, c: nat) returns (t: State)
    requires Closed(R) && R(s) && p < |s.procs| && NextFork(s, p, c).Some?
    ensures R(t) && t.nextpid == s.nextpid + 1 && t.procs == s.procs[c := Child(p, s.nextpid)]
  {
    assert Next(s, Fork(p, c)).Some?;
    t := NextFork(s, p, c).value;
  }

  /** init forks slot 1, slot 1 forks slot 2, slot 2 forks slot 3. */
  lemma ThreeForks(R: State -> bool, count: nat) returns (s: State)
    requires Closed(R) && count >= 4 && R(Init(count))
    ensures R(s) && |s.procs| == count
    ensures s.procs[0] == Proc(Running, None, 1, 0, false, false, None, User)
    ensures s.procs[1] == Child(0, 2) && s.procs[2] == Child(1, 3) && s.procs[3] == Child(2, 4)
    ensures forall i :: 4 <= i < count ==> s.procs[i] == FREE
  {
    var u := ForkRuns(R, Init(count), 0, 1);
    var v := ForkRuns(R, u, 1, 2);
    s := ForkRuns(R, v, 2, 3);
  }

  /** The parent p is asleep in wait, its child c is a zombie, and nobody is inside exit to wake p. */
  predicate Missed(s: State, p: nat, c: nat) {
    && p < |s.procs| && c < |s.procs| && s.procs[c].state.Zombie? && s.procs[c].parent == Some(p)
    && InWaitSleep(s.procs[p])
    && forall q :: 0 <= q < |s.procs| ==> Exiting(s.procs[q].pc) ==> s.procs[q].pc.Dead?
  }

  /** init can sleep in wait with a zombie child, however many slots the table has from four on. */
  lemma InitMissesExit(R: State -> bool, count: nat) returns (s: State)
    requires Closed(R) && count >= 4 && R(Init(count))
    ensures R(s) && Missed(s, INIT, 3)
  {
    var b := OrphanWaits(R, count);
    var c := ExitStarts(R, b, 2);
    var d := WaitRuns(R, c, INIT, 1);
    s := ExitRuns(R, d, 2);
  }

  /** Slot 3 has exited and slot 2, its parent, has not waited for it. */
  lemma OrphanWaits(R: State -> bool, count: nat) returns (s: State)
    requires Closed(R) && count >= 4 && R(Init(count))
    ensures R(s) && |s.procs| == count
    ensures s.procs[0] == Proc(Running, None, 1, 0, false, false, None, User)
    ensures s.procs[1] == Child(0, 2) && s.procs[2] == Child(1, 3)
    ensures s.procs[3] == Child(2, 4).(state := Zombie, pc := Dead)
    ensures forall i :: 4 <= i < count ==> s.procs[i] == FREE
  {
    var a := ThreeForks(R, count);
    var b := ExitStarts(R, a, 3);
    s := ExitRuns(R, b, 3);
  }

  /** The exact condition: an exit can be missed by init, and by no other process. */
  lemma MissedIffInit(count: nat, p: nat)
    requires count >= 4
    ensures (exists s, c :: Reachable(count, s) && Missed(s, p, c)) <==> p == INIT
  {
    forall s, c | Reachable(count, s) && Missed(s, p, c) ensures p == INIT {
      NoMissedExit(count, s, c);
    }
    var R := (s: State) => Reachable(count, s);
    ReachableClosed(count);
    assert Run(Init(count), []) == Some(Init(count));
    var t := InitMissesExit(R, count);
  }
}

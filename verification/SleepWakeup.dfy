/**
 sleep and wakeup as steps of any number of processes using any number of condition locks,
 at the granularity of lock acquisition and release. A process that finds its condition false
 sleeps on the condition's channel; a waker sets the condition and scans the process table, all
 while holding the condition's lock.
 */
module SleepWakeup {
  import opened Basics

  /** p->state as far as sleeping matters. */
  datatype RunState = Running | Runnable | Sleeping

  /** Where a process is; r is the condition it works with. */
  datatype Pc =
    | Idle
    | Testing(r: nat)        // holds lk, about to test the condition
    | BothHeld(r: nat)       // in sleep: holds lk and p->lock
    | OwnHeld(r: nat)        // in sleep: has released lk, still holds p->lock
    | Marked(r: nat)         // in sleep: p->chan and p->state set, about to sched
    | Asleep(r: nat)         // switched away, p->lock released by the scheduler
    | Resumed(r: nat)        // switched back, holds p->lock again
    | Retake(r: nat)         // in sleep: p->chan cleared, about to reacquire lk
    | Waking(r: nat)         // holds lk, about to set the condition
    | Scan(r: nat, i: nat)   // in wakeup: holds lk, next looks at process i

  datatype Proc = Proc(pc: Pc, state: RunState, chan: Option<nat>, locked: bool)

  datatype State = State(lk: seq<Option<nat>>, cond: seq<bool>, procs: seq<Proc>)

  datatype Event =
    | TakeTest(p: nat, r: nat)        // acquire(lk), on entry or at the end of sleep
    | Pass(p: nat, consume: bool)     // condition true: use it, release(lk)
    | SleepLock(p: nat)               // condition false: sleep up to acquire(&p->lock)
    | SleepRelease(p: nat)            // release(lk)
    | SleepMark(p: nat)               // p->chan = chan; p->state = SLEEPING
    | SleepYield(p: nat)              // sched; the scheduler releases p->lock
    | Schedule(p: nat)                // the scheduler takes p->lock and runs p
    | Tidy(p: nat)                    // p->chan = 0; release(&p->lock)
    | TakeWake(p: nat, r: nat)        // acquire(lk) by a waker
    | SetCond(p: nat)                 // make the condition true, call wakeup
    | ScanStep(p: nat)                // one iteration of wakeup's loop
    | ScanEnd(p: nat)                 // wakeup returns, release(lk)
    | Kill(p: nat)                    // kill: a sleeper is made runnable

  function Init(count: nat, conds: seq<bool>): State {
    State(seq(|conds|, _ => None), conds, seq(count, _ => Proc(Idle, Running, None, false)))
  }

  /** wakeup's action on one process. */
  function WakeOne(x: Proc, r: nat): Proc {
    if x.state.Sleeping? && x.chan == Some(r) then x.(state := Runnable) else x
  }

  function Next(s: State, e: Event): Option<State> {
    if e.p >= |s.procs| || |s.lk| != |s.cond| then None
    else
      var x := s.procs[e.p];
      match e
      case TakeTest(p, r) =>
        if r < |s.lk| && s.lk[r].None? && (x.pc == Idle || x.pc == Retake(r))
        then Some(s.(lk := s.lk[r := Some(p)], procs := s.procs[p := x.(pc := Testing(r))])) else None
      case Pass(p, consume) =>
        if x.pc.Testing? && x.pc.r < |s.lk| && s.cond[x.pc.r]
        then Some(State(s.lk[x.pc.r := None], s.cond[x.pc.r := !consume], s.procs[p := x.(pc := Idle)])) else None
      case SleepLock(p) =>
        if x.pc.Testing? && x.pc.r < |s.lk| && !s.cond[x.pc.r] && !x.locked
        then Some(s.(procs := s.procs[p := x.(pc := BothHeld(x.pc.r), locked := true)])) else None
      case SleepRelease(p) =>
        if x.pc.BothHeld? && x.pc.r < |s.lk|
        then Some(s.(lk := s.lk[x.pc.r := None], procs := s.procs[p := x.(pc := OwnHeld(x.pc.r))])) else None
      case SleepMark(p) =>
        if x.pc.OwnHeld?
        then Some(s.(procs := s.procs[p :=
          x.(pc := Marked(x.pc.r), state := Sleeping, chan := Some(x.pc.r))])) else None
      case SleepYield(p) =>
        if x.pc.Marked?
        then Some(s.(procs := s.procs[p := x.(pc := Asleep(x.pc.r), locked := false)])) else None
      case Schedule(p) =>
        if x.pc.Asleep? && x.state.Runnable? && !x.locked
        then Some(s.(procs := s.procs[p := x.(pc := Resumed(x.pc.r), state := Running, locked := true)])) else None
      case Tidy(p) =>
        if x.pc.Resumed?
        then Some(s.(procs := s.procs[p := x.(pc := Retake(x.pc.r), chan := None, locked := false)])) else None
      case TakeWake(p, r) =>
        if r < |s.lk| && s.lk[r].None? && x.pc == Idle
        then Some(s.(lk := s.lk[r := Some(p)], procs := s.procs[p := x.(pc := Waking(r))])) else None
      case SetCond(p) =>
        if x.pc.Waking? && x.pc.r < |s.lk|
        then Some(s.(cond := s.cond[x.pc.r := true], procs := s.procs[p := x.(pc := Scan(x.pc.r, 0))])) else None
      case ScanStep(p) =>
        if x.pc.Scan? && x.pc.i < |s.procs| && !s.procs[x.pc.i].locked
        then
          var procs := s.procs[x.pc.i := WakeOne(s.procs[x.pc.i], x.pc.r)];
          Some(s.(procs := procs[p := procs[p].(pc := Scan(x.pc.r, x.pc.i + 1))]))
        else None
      case ScanEnd(p) =>
        if x.pc.Scan? && x.pc.i == |s.procs| && x.pc.r < |s.lk|
        then Some(s.(lk := s.lk[x.pc.r := None], procs := s.procs[p := x.(pc := Idle)])) else None
      case Kill(p) =>
        if x.state.Sleeping? && !x.locked
        then Some(s.(procs := s.procs[p := x.(state := Runnable)])) else None
  }

  function Run(s: State, es: seq<Event>): Option<State>
    decreases |es|
  {
    if es == [] then Some(s)
    else match Next(s, es[0])
      case None => None
      case Some(t) => Run(t, es[1..])
  }

  ghost predicate Reachable(count: nat, conds: seq<bool>, s: State) {
    exists es :: Run(Init(count, conds), es) == Some(s)
  }

  /* The invariant. */

  predicate HoldsLk(pc: Pc) {
    pc.Testing? || pc.BothHeld? || pc.Waking? || pc.Scan?
  }

  /** A process's own fields agree with where it is. */
  predicate ProcOk(x: Proc) {
    && (x.locked <==> x.pc.BothHeld? || x.pc.OwnHeld? || x.pc.Marked? || x.pc.Resumed?)
    && (x.state.Sleeping? ==> x.pc.Marked? || x.pc.Asleep?)
    && (x.state.Runnable? ==> x.pc.Asleep?)
    && (x.pc.Marked? ==> x.state.Sleeping?)
    && (x.pc.Asleep? ==> !x.state.Running?)
    && (x.pc.Marked? || x.pc.Asleep? ==> x.chan == Some(x.pc.r))
  }

  /** Lock owners and the processes that hold locks agree. */
  ghost predicate LocksOk(s: State) {
    && |s.lk| == |s.cond|
    && (forall p :: 0 <= p < |s.procs| && HoldsLk(s.procs[p].pc) ==>
          s.procs[p].pc.r < |s.lk| && s.lk[s.procs[p].pc.r] == Some(p))
    && (forall r :: 0 <= r < |s.lk| && s.lk[r].Some? ==>
          s.lk[r].value < |s.procs| && HoldsLk(s.procs[s.lk[r].value].pc) && s.procs[s.lk[r].value].pc.r == r)
  }

  /** Committed to sleeping on r: past the release of lk, and not yet woken. */
  predicate Committed(x: Proc) {
    x.pc.OwnHeld? || x.state.Sleeping?
  }

  /** A waker of r has yet to look at process p. */
  ghost predicate ScanPending(s: State, r: nat, p: nat)
    requires r < |s.lk|
  {
    && s.lk[r].Some? && s.lk[r].value < |s.procs|
    && var pc := s.procs[s.lk[r].value].pc;
       pc.Scan? && pc.r == r && pc.i <= p
  }

  ghost predicate SleeperOk(s: State, p: nat)
    requires p < |s.procs| && |s.lk| == |s.cond|
  {
    var x := s.procs[p];
    && (x.pc != Idle ==> x.pc.r < |s.lk|)
    && (x.pc.BothHeld? ==> !s.cond[x.pc.r])
    && (Committed(x) && x.pc != Idle && s.cond[x.pc.r] ==> ScanPending(s, x.pc.r, p))
  }

  ghost predicate Inv(s: State) {
    && LocksOk(s)
    && (forall p :: 0 <= p < |s.procs| ==> ProcOk(s.procs[p]))
    && (forall p :: 0 <= p < |s.procs| ==> SleeperOk(s, p))
  }

  lemma TakeTestKeeps(s: State, e: Event)
    requires Inv(s) && e.TakeTest? && Next(s, e).Some?
    ensures Inv(Next(s, e).value)
  {
    var t := Next(s, e).value;
    forall q | 0 <= q < |t.procs| ensures SleeperOk(t, q) { assert SleeperOk(s, q); }
  }

  lemma TakeWakeKeeps(s: State, e: Event)
    requires Inv(s) && e.TakeWake? && Next(s, e).Some?
    ensures Inv(Next(s, e).value)
  {
    var t := Next(s, e).value;
    forall q | 0 <= q < |t.procs| ensures SleeperOk(t, q) { assert SleeperOk(s, q); }
  }

  /** A step that changes only the process itself, takes and releases no lk and makes no new sleeper. */
  lemma OwnStepKeeps(s: State, p: nat, y: Proc)
    requires Inv(s) && p < |s.procs| && ProcOk(y)
    requires
      var x := s.procs[p];
      && x.pc != Idle && y.pc != Idle && x.pc.r == y.pc.r && !x.pc.Scan? && !y.pc.Scan?
      && (HoldsLk(y.pc) <==> HoldsLk(x.pc))
      && (y.pc.BothHeld? ==> !s.cond[y.pc.r])
      && (Committed(y) ==> Committed(x))
    ensures Inv(s.(procs := s.procs[p := y]))
  {
    var t := s.(procs := s.procs[p := y]);
    forall q | 0 <= q < |t.procs| ensures SleeperOk(t, q) { assert SleeperOk(s, q); }
  }

  lemma SleepReleaseKeeps(s: State, e: Event)
    requires Inv(s) && e.SleepRelease? && Next(s, e).Some?
    ensures Inv(Next(s, e).value)
  {
    var t := Next(s, e).value;
    forall q | 0 <= q < |t.procs| ensures SleeperOk(t, q) { assert SleeperOk(s, q); }
  }

  lemma PassKeeps(s: State, e: Event)
    requires Inv(s) && e.Pass? && Next(s, e).Some?
    ensures Inv(Next(s, e).value)
  {
    var t := Next(s, e).value;
    forall q | 0 <= q < |t.procs| ensures SleeperOk(t, q) { assert SleeperOk(s, q); }
  }

  lemma SetCondKeeps(s: State, e: Event)
    requires Inv(s) && e.SetCond? && Next(s, e).Some?
    ensures Inv(Next(s, e).value)
  {
    var t := Next(s, e).value;
    forall q | 0 <= q < |t.procs| ensures SleeperOk(t, q) { assert SleeperOk(s, q); }
  }

  lemma ScanStepKeeps(s: State, e: Event)
    requires Inv(s) && e.ScanStep? && Next(s, e).Some?
    ensures Inv(Next(s, e).value)
  {
    var t := Next(s, e).value;
    forall q | 0 <= q < |t.procs| ensures SleeperOk(t, q) { assert SleeperOk(s, q); }
  }

  lemma ScanEndKeeps(s: State, e: Event)
    requires Inv(s) && e.ScanEnd? && Next(s, e).Some?
    ensures Inv(Next(s, e).value)
  {
    var t := Next(s, e).value;
    forall q | 0 <= q < |t.procs| ensures SleeperOk(t, q) { assert SleeperOk(s, q); }
  }

  lemma NextKeeps(s: State, e: Event)
    requires Inv(s) && Next(s, e).Some?
    ensures Inv(Next(s, e).value)
  {
    var t := Next(s, e).value;
    assert SleeperOk(s, e.p);
    match e
    case TakeTest(_, _) => TakeTestKeeps(s, e);
    case TakeWake(_, _) => TakeWakeKeeps(s, e);
    case Pass(_, _) => PassKeeps(s, e);
    case SleepRelease(_) => SleepReleaseKeeps(s, e);
    case SetCond(_) => SetCondKeeps(s, e);
    case ScanStep(_) => ScanStepKeeps(s, e);
    case ScanEnd(_) => ScanEndKeeps(s, e);
    case _ => OwnStepKeeps(s, e.p, t.procs[e.p]);
  }

  lemma {:induction false} RunKeeps(s: State, es: seq<Event>)
    requires Inv(s) && Run(s, es).Some?
    ensures Inv(Run(s, es).value)
    decreases |es|
  {
    if es != [] {
      NextKeeps(s, es[0]);
      RunKeeps(Next(s, es[0]).value, es[1..]);
    }
  }

  lemma ReachableInv(count: nat, conds: seq<bool>, s: State)
    requires Reachable(count, conds, s)
    ensures Inv(s)
  {
    var es :| Run(Init(count, conds), es) == Some(s);
    RunKeeps(Init(count, conds), es);
  }

  /**
   No lost wakeup: in no reachable state is a process asleep on a channel whose condition is true,
   unless a waker holding the condition's lock has a scan that has yet to reach that process.
   */
  lemma NoLostWakeup(count: nat, conds: seq<bool>, s: State, p: nat, r: nat)
    requires Reachable(count, conds, s)
    requires p < |s.procs| && s.procs[p].state.Sleeping? && s.procs[p].chan == Some(r)
    ensures r < |s.lk| == |s.cond|
    ensures s.cond[r] ==> ScanPending(s, r, p)
  {
    ReachableInv(count, conds, s);
    assert SleeperOk(s, p);
  }

  /** Once a condition's lock is free, nobody sleeps on it while it is true. */
  lemma FreeLockNoStrandedSleeper(count: nat, conds: seq<bool>, s: State, p: nat, r: nat)
    requires Reachable(count, conds, s) && r < |s.lk| && s.lk[r].None?
    requires p < |s.procs| && s.procs[p].state.Sleeping? && s.procs[p].chan == Some(r)
    ensures r < |s.cond| && !s.cond[r]
  {
    NoLostWakeup(count, conds, s, p, r);
  }

  /**
   A process blocked for its own lock never blocks a scan for good: whoever holds p->lock is p itself, on its way
   through sleep.
   */
  lemma LockedIsInSleep(count: nat, conds: seq<bool>, s: State, p: nat)
    requires Reachable(count, conds, s) && p < |s.procs| && s.procs[p].locked
    ensures Next(s, SleepRelease(p)).Some? || Next(s, SleepMark(p)).Some? || Next(s, SleepYield(p)).Some? ||
      Next(s, Tidy(p)).Some?
  {
    ReachableInv(count, conds, s);
    assert SleeperOk(s, p);
  }

  /** A sleeper is made runnable only by kill, or by a wakeup on the channel it sleeps on that has come to its slot. */
  lemma WokenByOwn(count: nat, conds: seq<bool>, s: State, e: Event, t: State, q: nat)
    requires Reachable(count, conds, s) && Next(s, e) == Some(t) && q < |s.procs| && s.procs[q].state.Sleeping?
    ensures q < |t.procs|
    ensures !t.procs[q].state.Sleeping? ==>
      e == Kill(q) || (e.ScanStep? && s.procs[q].chan.Some? && s.procs[e.p].pc == Scan(s.procs[q].chan.value, q))
  {
    ReachableInv(count, conds, s);
    assert ProcOk(s.procs[q]);
  }
}

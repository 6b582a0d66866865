/**
 begin_op, log_write and end_op as steps of any number of processes, interleaved at the
 granularity of log.lock. log_write is two steps, because its guard reads the log before
 taking the lock.
 */
module LogProtocol {
  import opened Basics
  import opened RedoLog

  /** One process: outside the file system, asleep in begin_op, inside an operation, or committing. */
  datatype Proc =
    | Idle
    | Asleep
    | InOp(blocks: set<nat>, checked: Option<nat>)  // blocks logged so far; block whose guard has passed
    | Committing

  /** log.committing is recorded together with the process that set it. */
  datatype State = State(log: seq<nat>, outstanding: int, committer: Option<nat>, procs: seq<Proc>) {
    predicate Committing() { committer.Some? }
  }

  datatype Event =
    | Begin(p: nat)            // one turn of begin_op's loop
    | Guard(p: nat, b: nat)    // log_write(b) up to acquire(&log.lock)
    | Insert(p: nat)           // the rest of log_write
    | End(p: nat)              // end_op up to release(&log.lock)
    | Clear(p: nat)            // commit's log.lh.n = 0
    | Done(p: nat)             // end_op after commit
    | Kill(p: nat)             // a sleeper is woken for another reason

  /** Operations log at most budget distinct blocks; size is the superblock's nlog. */
  datatype Config = Config(budget: nat, size: nat)

  function Init(count: nat): State { State([], 0, None, seq(count, _ => Idle)) }

  function WakeAll(procs: seq<Proc>): seq<Proc> {
    seq(|procs|, i requires 0 <= i < |procs| => if procs[i].Asleep? then Idle else procs[i])
  }

  /** log_write's guard lets the caller through. */
  predicate GuardPasses(c: Config, s: State) {
    |s.log| < LOGSIZE && |s.log| < c.size - 1 && s.outstanding >= 1
  }

  /** Process p is about to call log_write(b) and keeps to its budget. */
  predicate CallsLogWrite(c: Config, s: State, p: nat, b: nat) {
    && p < |s.procs| && s.procs[p].InOp? && s.procs[p].checked.None?
    && |s.procs[p].blocks + {b}| <= c.budget
  }

  /** The state after e, or None when e cannot happen (a panic stops the machine). */
  function Next(c: Config, s: State, e: Event): Option<State> {
    if e.p >= |s.procs| then None
    else
      match (e, s.procs[e.p])
      case (Begin(p), Idle) =>
        if s.Committing() || |s.log| + (s.outstanding + 1) * MAXOPBLOCKS > LOGSIZE
        then Some(s.(procs := s.procs[p := Asleep]))
        else Some(s.(outstanding := s.outstanding + 1, procs := s.procs[p := InOp({}, None)]))
      case (Guard(p, b), InOp(blocks, None)) =>
        if CallsLogWrite(c, s, p, b) && GuardPasses(c, s)
        then Some(s.(procs := s.procs[p := InOp(blocks, Some(b))]))
        else None
      case (Insert(p), InOp(blocks, Some(b))) =>
        Some(s.(log := if b in s.log then s.log else s.log + [b], procs := s.procs[p := InOp(blocks + {b}, None)]))
      case (End(p), InOp(_, None)) =>
        if s.Committing() then None
        else if s.outstanding == 1
        then Some(s.(outstanding := 0, committer := Some(p), procs := s.procs[p := Committing]))
        else Some(s.(outstanding := s.outstanding - 1, procs := WakeAll(s.procs[p := Idle])))
      case (Clear(p), Committing) => Some(s.(log := []))
      case (Done(p), Committing) =>
        if s.log == [] then Some(s.(committer := None, procs := WakeAll(s.procs[p := Idle]))) else None
      case (Kill(p), Asleep) => Some(s.(procs := s.procs[p := Idle]))
      case _ => None
  }

  function Run(c: Config, s: State, es: seq<Event>): Option<State>
    decreases |es|
  {
    if es == [] then Some(s)
    else match Next(c, s, es[0])
      case None => None
      case Some(t) => Run(c, t, es[1..])
  }

  ghost predicate Reachable(c: Config, count: nat, s: State) {
    exists es :: Run(c, Init(count), es) == Some(s)
  }

  /* Counting processes. */

  /** Operations in progress. */
  function Ops(procs: seq<Proc>): nat {
    if procs == [] then 0 else Ops(procs[..|procs|-1]) + if procs[|procs|-1].InOp? then 1 else 0
  }

  function Unused(c: Config, p: Proc): int {
    if p.InOp? then c.budget - |p.blocks| else 0
  }

  /** Distinct blocks the operations in progress may still log. */
  function Left(c: Config, procs: seq<Proc>): int {
    if procs == [] then 0 else Left(c, procs[..|procs|-1]) + Unused(c, procs[|procs|-1])
  }

  lemma {:induction false} OpsUpdate(procs: seq<Proc>, i: nat, x: Proc)
    requires i < |procs|
    ensures Ops(procs[i := x]) == Ops(procs) - (if procs[i].InOp? then 1 else 0) + if x.InOp? then 1 else 0
  {
    var n := |procs| - 1;
    if i == n {
      assert procs[i := x][..n] == procs[..n];
    } else {
      OpsUpdate(procs[..n], i, x);
      assert procs[i := x][..n] == procs[..n][i := x];
    }
  }

  lemma {:induction false} LeftUpdate(c: Config, procs: seq<Proc>, i: nat, x: Proc)
    requires i < |procs|
    ensures Left(c, procs[i := x]) == Left(c, procs) - Unused(c, procs[i]) + Unused(c, x)
  {
    var n := |procs| - 1;
    if i == n {
      assert procs[i := x][..n] == procs[..n];
    } else {
      LeftUpdate(c, procs[..n], i, x);
      assert procs[i := x][..n] == procs[..n][i := x];
    }
  }

  lemma {:induction false} WakeAllCounts(c: Config, procs: seq<Proc>)
    ensures Ops(WakeAll(procs)) == Ops(procs) && Left(c, WakeAll(procs)) == Left(c, procs)
  {
    if procs != [] {
      var n := |procs| - 1;
      WakeAllCounts(c, procs[..n]);
      assert WakeAll(procs)[..n] == WakeAll(procs[..n]);
    }
  }

  lemma {:induction false} NoOps(c: Config, procs: seq<Proc>, i: nat)
    requires i < |procs| && procs[i].InOp?
    ensures Ops(procs) > 0
  {
    var n := |procs| - 1;
    if i < n { NoOps(c, procs[..n], i); }
  }

  lemma {:induction false} LeftBound(c: Config, procs: seq<Proc>)
    ensures Left(c, procs) <= c.budget * Ops(procs)
  {
    if procs != [] {
      LeftBound(c, procs[..|procs|-1]);
    }
  }

  lemma {:induction false} LeftNonNegative(c: Config, procs: seq<Proc>)
    requires forall i :: 0 <= i < |procs| && procs[i].InOp? ==> |procs[i].blocks| <= c.budget
    ensures Left(c, procs) >= 0
  {
    if procs != [] {
      LeftNonNegative(c, procs[..|procs|-1]);
    }
  }

  /* The invariant. */

  /** What the log can grow to: the log itself plus what operations in progress may still add. */
  function Potential(c: Config, s: State): int { |s.log| + Left(c, s.procs) }

  /** The most the log can ever hold. */
  function Peak(c: Config): int { MAXOPBLOCKS + 2 * c.budget }

  predicate Within(c: Config, p: Proc) {
    p.InOp? ==> |p.blocks| <= c.budget && (p.checked.Some? ==> |p.blocks + {p.checked.value}| <= c.budget)
  }

  /** An operation's blocks stay in the log until it ends. */
  predicate Logged(s: State, p: Proc) {
    p.InOp? ==> forall b :: b in p.blocks ==> b in s.log
  }

  /** begin_op's two reasons to sleep. */
  predicate MustWait(s: State) {
    s.Committing() || |s.log| + (s.outstanding + 1) * MAXOPBLOCKS > LOGSIZE
  }

  ghost predicate Inv(c: Config, s: State) {
    && s.outstanding == Ops(s.procs)
    && (s.Committing() ==> s.outstanding == 0)
    && (s.Committing() ==> s.committer.value < |s.procs| && s.procs[s.committer.value].Committing?)
    && (forall i :: 0 <= i < |s.procs| && s.procs[i].Committing? ==> s.committer == Some(i))
    && (!s.Committing() && s.outstanding == 0 ==> s.log == [])
    && (forall i :: 0 <= i < |s.procs| ==> Within(c, s.procs[i]) && Logged(s, s.procs[i]))
    && Potential(c, s) <= Peak(c)
    && (forall i :: 0 <= i < |s.procs| && s.procs[i].Asleep? ==> MustWait(s))
  }

  lemma InvInit(c: Config, count: nat)
    ensures Inv(c, Init(count))
  {
    IdleCounts(c, count);
  }

  lemma {:induction false} IdleCounts(c: Config, count: nat)
    ensures Ops(seq(count, _ => Idle)) == 0 && Left(c, seq(count, _ => Idle)) == 0
  {
    if count > 0 {
      IdleCounts(c, count - 1);
      assert seq<Proc>(count, _ => Idle)[..count-1] == seq(count - 1, _ => Idle);
    }
  }

  /** begin_op admits an operation only when its whole budget fits under the peak. */
  lemma BeginPotential(c: Config, s: State)
    requires c.budget <= MAXOPBLOCKS && s.outstanding == Ops(s.procs) && (s.outstanding == 0 ==> s.log == [])
    requires |s.log| + (s.outstanding + 1) * MAXOPBLOCKS <= LOGSIZE
    ensures Potential(c, s) + c.budget <= Peak(c)
  {
    LeftBound(c, s.procs);
    assert s.outstanding == 0 || s.outstanding == 1 || s.outstanding == 2;
  }

  lemma BeginKeeps(c: Config, s: State, p: nat)
    requires c.budget <= MAXOPBLOCKS && Inv(c, s) && p < |s.procs| && s.procs[p].Idle?
    ensures Inv(c, Next(c, s, Begin(p)).value)
  {
    var t := Next(c, s, Begin(p)).value;
    OpsUpdate(s.procs, p, t.procs[p]);
    LeftUpdate(c, s.procs, p, t.procs[p]);
    if t.outstanding > s.outstanding { BeginPotential(c, s); }
  }

  lemma GuardKeeps(c: Config, s: State, p: nat, b: nat)
    requires Inv(c, s) && CallsLogWrite(c, s, p, b) && GuardPasses(c, s)
    ensures Inv(c, Next(c, s, Guard(p, b)).value)
  {
    var t := Next(c, s, Guard(p, b)).value;
    OpsUpdate(s.procs, p, t.procs[p]);
    LeftUpdate(c, s.procs, p, t.procs[p]);
  }

  lemma InsertKeeps(c: Config, s: State, p: nat)
    requires Inv(c, s) && p < |s.procs| && s.procs[p].InOp? && s.procs[p].checked.Some?
    ensures Inv(c, Next(c, s, Insert(p)).value)
  {
    var t := Next(c, s, Insert(p)).value;
    OpsUpdate(s.procs, p, t.procs[p]);
    LeftUpdate(c, s.procs, p, t.procs[p]);
    NoOps(c, s.procs, p);
  }

  lemma EndKeeps(c: Config, s: State, p: nat)
    requires c.budget <= MAXOPBLOCKS && Inv(c, s) && p < |s.procs| && s.procs[p].InOp? && s.procs[p].checked.None?
    ensures !s.Committing() && Inv(c, Next(c, s, End(p)).value)
  {
    NoOps(c, s.procs, p);
    var t := Next(c, s, End(p)).value;
    var x := if s.outstanding == 1 then Committing else Idle;
    OpsUpdate(s.procs, p, x);
    LeftUpdate(c, s.procs, p, x);
    WakeAllCounts(c, s.procs[p := x]);
  }

  lemma CommittingKeeps(c: Config, s: State, e: Event)
    requires c.budget <= MAXOPBLOCKS && Inv(c, s) && (e.Clear? || e.Done?) && Next(c, s, e).Some?
    ensures Inv(c, Next(c, s, e).value)
  {
    var t := Next(c, s, e).value;
    forall i | 0 <= i < |s.procs| && s.procs[i].InOp? ensures false {
      NoOps(c, s.procs, i);
    }
    LeftBound(c, s.procs);
    if e.Done? {
      OpsUpdate(s.procs, e.p, Idle);
      LeftUpdate(c, s.procs, e.p, Idle);
      WakeAllCounts(c, s.procs[e.p := Idle]);
    }
  }

  lemma KillKeeps(c: Config, s: State, p: nat)
    requires Inv(c, s) && p < |s.procs| && s.procs[p].Asleep?
    ensures Inv(c, Next(c, s, Kill(p)).value)
  {
    var t := Next(c, s, Kill(p)).value;
    OpsUpdate(s.procs, p, Idle);
    LeftUpdate(c, s.procs, p, Idle);
  }

  lemma NextKeeps(c: Config, s: State, e: Event)
    requires c.budget <= MAXOPBLOCKS && Inv(c, s) && Next(c, s, e).Some?
    ensures Inv(c, Next(c, s, e).value)
  {
    match e
    case Begin(p) => BeginKeeps(c, s, p);
    case Guard(p, b) => GuardKeeps(c, s, p, b);
    case Insert(p) => InsertKeeps(c, s, p);
    case End(p) => EndKeeps(c, s, p);
    case Clear(_) => CommittingKeeps(c, s, e);
    case Done(_) => CommittingKeeps(c, s, e);
    case Kill(p) => KillKeeps(c, s, p);
  }

  lemma {:induction false} RunKeeps(c: Config, s: State, es: seq<Event>)
    requires c.budget <= MAXOPBLOCKS && Inv(c, s) && Run(c, s, es).Some?
    ensures Inv(c, Run(c, s, es).value)
    decreases |es|
  {
    if es != [] {
      NextKeeps(c, s, es[0]);
      RunKeeps(c, Next(c, s, es[0]).value, es[1..]);
    }
  }

  /** No interleaving grows the log past Peak, commits while an operation runs, or leaves an idle log full. */
  lemma ReservationHolds(c: Config, count: nat, s: State)
    requires c.budget <= MAXOPBLOCKS && Reachable(c, count, s)
    ensures |s.log| <= Peak(c) <= LOGSIZE
    ensures s.Committing() ==> s.outstanding == 0
    ensures !s.Committing() && s.outstanding == 0 ==> s.log == []
    ensures s.outstanding == Ops(s.procs)
  {
    InvInit(c, count);
    var es :| Run(c, Init(count), es) == Some(s);
    RunKeeps(c, Init(count), es);
    LeftNonNegative(c, s.procs);
  }

  /** Nobody is asleep in begin_op for longer than it must: a commit runs, or the reservations do not fit the log. */
  lemma SleeperMustWait(c: Config, count: nat, s: State, p: nat)
    requires c.budget <= MAXOPBLOCKS && Reachable(c, count, s) && p < |s.procs| && s.procs[p].Asleep?
    ensures s.committer.Some? || |s.log| + (s.outstanding + 1) * 10 > 30
  {
    InvInit(c, count);
    var es :| Run(c, Init(count), es) == Some(s);
    RunKeeps(c, Init(count), es);
  }

  /** A process asleep in begin_op always has an operation or a commit left to wake it. */
  lemma SleeperHasWaker(c: Config, count: nat, s: State, p: nat)
    requires c.budget <= MAXOPBLOCKS && Reachable(c, count, s) && p < |s.procs| && s.procs[p].Asleep?
    ensures exists q :: 0 <= q < |s.procs| && (s.procs[q].InOp? || s.procs[q].Committing?)
  {
    InvInit(c, count);
    var es :| Run(c, Init(count), es) == Some(s);
    RunKeeps(c, Init(count), es);
    if !s.Committing() { SomeOp(s.procs); }
  }

  lemma {:induction false} SomeOp(procs: seq<Proc>)
    requires Ops(procs) > 0
    ensures exists q :: 0 <= q < |procs| && procs[q].InOp?
  {
    var n := |procs| - 1;
    if !procs[n].InOp? {
      SomeOp(procs[..n]);
      var q :| 0 <= q < n && procs[..n][q].InOp?;
      assert procs[q].InOp?;
    }
  }

  /* The guard of log_write: exactly when no interleaving can make it panic. */

  lemma {:induction false} RunAppend(c: Config, s: State, xs: seq<Event>, e: Event)
    requires Run(c, s, xs).Some?
    ensures Run(c, s, xs + [e]) == Next(c, Run(c, s, xs).value, e)
    decreases |xs|
  {
    if xs == [] {
      assert xs + [e] == [e];
    } else {
      RunAppend(c, Next(c, s, xs[0]).value, xs[1..], e);
      assert (xs + [e])[1..] == xs[1..] + [e];
    }
  }

  lemma Extend(c: Config, count: nat, s: State, e: Event)
    requires Reachable(c, count, s) && Next(c, s, e).Some?
    ensures Reachable(c, count, Next(c, s, e).value)
  {
    var es :| Run(c, Init(count), es) == Some(s);
    RunAppend(c, Init(count), es, e);
  }

  function Range(k: nat): seq<nat> { seq(k, i => i) }
  function Span(lo: nat, hi: nat): set<nat>
    decreases hi
  {
    if hi <= lo then {} else Span(lo, hi - 1) + {hi - 1}
  }

  lemma {:induction false} SpanSize(lo: nat, hi: nat)
    requires lo <= hi
    ensures |Span(lo, hi)| == hi - lo && (forall x :: x in Span(lo, hi) ==> lo <= x < hi)
    ensures lo < hi ==> lo in Span(lo, hi)
  {
    if lo < hi { SpanSize(lo, hi - 1); }
  }

  function Procs(count: nat, a: Proc, b: Proc): seq<Proc>
    requires count >= 2
  {
    [a, b] + seq(count - 2, _ => Idle)
  }

  lemma ProcsUpdate(count: nat, a: Proc, b: Proc, x: Proc)
    requires count >= 2
    ensures Procs(count, a, b)[0 := x] == Procs(count, x, b) && Procs(count, a, b)[1 := x] == Procs(count, a, x)
  {}

  /** Process 0 is in an operation that has logged nothing; others have left k blocks in the log. */
  function Slow(count: nat, k: nat): State
    requires count >= 2
  {
    State(Range(k), 1, None, Procs(count, InOp({}, None), Idle))
  }

  /** After Slow(10), two operations run: process 0 has logged i more blocks and process 1 then j more. */
  function Both(count: nat, i: nat, j: nat): State
    requires count >= 2
  {
    State(Range(10 + i + j), 2, None,
          Procs(count, InOp(Span(10, 10 + i), None), InOp(Span(10 + i, 10 + i + j), None)))
  }

  function Cap(c: Config): int { if c.size - 1 < LOGSIZE then c.size - 1 else LOGSIZE }

  lemma SlowStart(c: Config, count: nat)
    requires count >= 2
    ensures Reachable(c, count, Slow(count, 0))
  {
    assert Run(c, Init(count), []) == Some(Init(count));
    Extend(c, count, Init(count), Begin(0));
    assert Next(c, Init(count), Begin(0)).value == Slow(count, 0);
  }

  /** Process p logs block b, which is not in the log yet. */
  lemma LogStep(c: Config, count: nat, s: State, p: nat, mine: set<nat>, b: nat)
    requires Reachable(c, count, s) && p < |s.procs| && s.procs[p] == InOp(mine, None)
    requires |mine + {b}| <= c.budget && GuardPasses(c, s) && b !in s.log
    ensures Reachable(c, count, s.(log := s.log + [b], procs := s.procs[p := InOp(mine + {b}, None)]))
  {
    var s1 := s.(procs := s.procs[p := InOp(mine, Some(b))]);
    assert Next(c, s, Guard(p, b)) == Some(s1);
    Extend(c, count, s, Guard(p, b));
    Extend(c, count, s1, Insert(p));
    assert s1.procs[p := InOp(mine + {b}, None)] == s.procs[p := InOp(mine + {b}, None)];
  }

  /** Process 1 begins, logs one new block and ends. */
  lemma SlowStep(c: Config, count: nat, k: nat)
    requires count >= 2 && 1 <= c.budget && k < 10 && k < Cap(c) && Reachable(c, count, Slow(count, k))
    ensures Reachable(c, count, Slow(count, k + 1))
  {
    var s, a := Slow(count, k), InOp({}, None);
    ProcsUpdate(count, a, Idle, a);
    var s1 := s.(outstanding := 2, procs := Procs(count, a, a));
    assert Next(c, s, Begin(1)) == Some(s1);
    Extend(c, count, s, Begin(1));
    var s3 := s1.(log := Range(k + 1), procs := Procs(count, a, InOp({k}, None)));
    LogStep(c, count, s1, 1, {}, k);
    ProcsUpdate(count, a, a, InOp({k}, None));
    ProcsUpdate(count, a, InOp({k}, None), Idle);
    assert {} + {k} == {k} && Range(k) + [k] == Range(k + 1);
    assert Reachable(c, count, s3);
    assert WakeAll(s3.procs[1 := Idle]) == Slow(count, k + 1).procs;
    assert Next(c, s3, End(1)) == Some(Slow(count, k + 1));
    Extend(c, count, s3, End(1));
  }

  lemma {:induction false} SlowReach(c: Config, count: nat, k: nat)
    requires count >= 2 && 1 <= c.budget && k <= 10 && (k == 0 || k <= Cap(c))
    ensures Reachable(c, count, Slow(count, k))
  {
    if k == 0 {
      SlowStart(c, count);
    } else {
      SlowReach(c, count, k - 1);
      SlowStep(c, count, k - 1);
    }
  }

  lemma BothStart(c: Config, count: nat)
    requires count >= 2 && 1 <= c.budget && 10 <= Cap(c)
    ensures Reachable(c, count, Both(count, 0, 0))
  {
    SlowReach(c, count, 10);
    ProcsUpdate(count, InOp({}, None), Idle, InOp({}, None));
    assert Next(c, Slow(count, 10), Begin(1)) == Some(Both(count, 0, 0));
    Extend(c, count, Slow(count, 10), Begin(1));
  }

  /** Process p of the two logs the next new block. */
  lemma BothStep(c: Config, count: nat, i: nat, j: nat, p: nat)
    requires count >= 2 && p < 2 && 10 + i + j < Cap(c) && Reachable(c, count, Both(count, i, j))
    requires if p == 0 then i < c.budget && j == 0 else j < c.budget
    ensures Reachable(c, count, if p == 0 then Both(count, i + 1, j) else Both(count, i, j + 1))
  {
    var s, b := Both(count, i, j), 10 + i + j;
    var lo := if p == 0 then 10 else 10 + i;
    SpanSize(lo, b + 1);
    LogStep(c, count, s, p, Span(lo, b), b);
    assert Range(b) + [b] == Range(b + 1);
    ProcsUpdate(count, s.procs[0], s.procs[1], InOp(Span(lo, b + 1), None));
  }

  lemma {:induction false} BothReach(c: Config, count: nat, i: nat, j: nat)
    requires count >= 2 && 1 <= c.budget && i <= c.budget && j <= c.budget && 10 + i + j <= Cap(c)
    ensures Reachable(c, count, Both(count, i, j))
    decreases i + j
  {
    if i + j == 0 {
      BothStart(c, count);
    } else if j == 0 {
      BothReach(c, count, i - 1, 0);
      BothStep(c, count, i - 1, 0, 0);
    } else {
      BothReach(c, count, i, j - 1);
      BothStep(c, count, i, j - 1, 1);
    }
  }

  /** If the log area has no room for the peak, some interleaving of operations within budget panics. */
  lemma PanicReachable(c: Config, count: nat) returns (s: State, p: nat, b: nat)
    requires count >= 2 && 1 <= c.budget && Cap(c) <= Peak(c)
    ensures Reachable(c, count, s) && CallsLogWrite(c, s, p, b) && !GuardPasses(c, s)
  {
    assert |{} + {0}| == 1;
    if Cap(c) <= 10 {
      var k := if Cap(c) < 0 then 0 else Cap(c);
      SlowReach(c, count, k);
      s, p, b := Slow(count, k), 0, 0;
    } else {
      var i := if Cap(c) - 10 <= c.budget then Cap(c) - 10 else c.budget;
      var j := Cap(c) - 10 - i;
      BothReach(c, count, i, j);
      s, p := Both(count, i, j), 1;
      b := if j == 0 then 0 else 10 + i;
      SpanSize(10 + i, 10 + i + j);
      assert j == 0 ==> s.procs[1].blocks + {b} == {b};
      assert j > 0 ==> s.procs[1].blocks + {b} == s.procs[1].blocks;
    }
  }

  /**
   Operations that keep to a budget of distinct blocks never make log_write panic, in any interleaving,
   exactly when the peak leaves the guard open. With budget MAXOPBLOCKS it never does: the guard is
   tested before absorption, so a full log refuses even a block it already lists.
   */
  lemma GuardNeverPanics(c: Config, count: nat)
    requires count >= 2 && 1 <= c.budget
    ensures (forall s, p, b :: Reachable(c, count, s) && CallsLogWrite(c, s, p, b) ==> GuardPasses(c, s))
              <==> Peak(c) < Cap(c)
  {
    if Peak(c) < Cap(c) {
      forall s, p, b | Reachable(c, count, s) && CallsLogWrite(c, s, p, b) ensures GuardPasses(c, s) {
        ReservationHolds(c, count, s);
        NoOps(c, s.procs, p);
      }
    } else {
      var s, p, b := PanicReachable(c, count);
    }
  }
}

/** When wait gives up and when it sleeps: over every interleaving of fork, exit, wait and kill. */
module Waiting {
  import opened Basics
  import opened ExitWait

  /** Process p has a child in slot k or later. */
  ghost predicate HasChild(ps: seq<Proc>, p: nat, k: nat) { exists c :: k <= c < |ps| && ps[c].parent == Some(p) }

  predicate NoneBelow(ps: seq<Proc>, p: nat, k: nat) {
    forall c :: 0 <= c < k && c < |ps| ==> ps[c].parent != Some(p)
  }

  /**
   What wait's scan knows of the children of p. Init may be given children in slots that its scan has passed, but never
   without one in a slot that it has yet to look at.
   */
  ghost predicate ScanOk(ps: seq<Proc>, p: nat)
    requires p < |ps|
  {
    var pc := ps[p].pc;
    && (pc.WaitMarked? || pc.WaitAsleep? || (pc.WaitScan? && pc.havekids) ==> HasChild(ps, p, 0))
    && (pc.WaitScan? && !pc.havekids ==> NoneBelow(ps, p, pc.k) || (p == INIT && HasChild(ps, p, pc.k)))
  }

  /** Parents have the smaller pids. */
  ghost predicate Elder(ps: seq<Proc>) {
    forall c :: 0 <= c < |ps| && ps[c].parent.Some? ==>
      ps[c].parent.value < |ps| && ps[ps[c].parent.value].pid < ps[c].pid
  }

  ghost predicate WaitInv(ps: seq<Proc>) { Elder(ps) && forall p :: 0 <= p < |ps| ==> ScanOk(ps, p) }

  predicate SameFamily(x: Proc, y: Proc) { x.parent == y.parent && x.pid == y.pid }

  /** A step that leaves parents and pids alone concerns the scan of one process. */
  lemma QuietScan(ps: seq<Proc>, qs: seq<Proc>, p: nat)
    requires WaitInv(ps) && |qs| == |ps| && p < |ps| && ScanOk(qs, p)
    requires forall q :: 0 <= q < |ps| ==> SameFamily(ps[q], qs[q]) && (q != p ==> qs[q].pc == ps[q].pc)
    ensures WaitInv(qs)
  {
    forall c | 0 <= c < |qs| && qs[c].parent.Some?
      ensures qs[c].parent.value < |qs| && qs[qs[c].parent.value].pid < qs[c].pid
    {
      assert SameFamily(ps[c], qs[c]);
      assert SameFamily(ps[ps[c].parent.value], qs[ps[c].parent.value]);
    }
    forall q | 0 <= q < |qs| ensures ScanOk(qs, q) {
      if q != p {
        assert ScanOk(ps, q);
        SameChildren(ps, qs, q, 0);
        if ps[q].pc.WaitScan? { SameChildren(ps, qs, q, ps[q].pc.k); }
      }
    }
  }

  lemma SameChildren(ps: seq<Proc>, qs: seq<Proc>, p: nat, k: nat)
    requires |qs| == |ps| && forall q :: 0 <= q < |ps| ==> SameFamily(ps[q], qs[q])
    ensures HasChild(ps, p, k) ==> HasChild(qs, p, k)
    ensures NoneBelow(ps, p, k) ==> NoneBelow(qs, p, k)
  {
    if HasChild(ps, p, k) {
      var c :| k <= c < |ps| && ps[c].parent == Some(p);
      assert SameFamily(ps[c], qs[c]);
    }
    forall c | 0 <= c < k && c < |qs| ensures qs[c].parent == ps[c].parent { assert SameFamily(ps[c], qs[c]); }
  }

  lemma ForkScan(s: State, p: nat, c: nat)
    requires Inv(s) && WaitInv(s.procs) && p < |s.procs| && NextFork(s, p, c).Some?
    ensures WaitInv(NextFork(s, p, c).value.procs)
  {
    var ps, qs := s.procs, NextFork(s, p, c).value.procs;
    assert ProcOk(ps[c]) && ProcOk(ps[p]) && PidOk(s, p);
    forall d | 0 <= d < |qs| && qs[d].parent.Some?
      ensures qs[d].parent.value < |qs| && qs[qs[d].parent.value].pid < qs[d].pid
    {
      assert ParentOk(ps, d);
    }
    forall q | 0 <= q < |qs| ensures ScanOk(qs, q) {
      assert ScanOk(ps, q);
      ChildrenKept(ps, qs, q, 0, c);
      if ps[q].pc.WaitScan? { ChildrenKept(ps, qs, q, ps[q].pc.k, c); }
    }
  }

  /** Slot c, which was nobody's child, has changed. */
  lemma ChildrenKept(ps: seq<Proc>, qs: seq<Proc>, q: nat, k: nat, c: nat)
    requires |qs| == |ps| && c < |ps| && ps[c].parent != Some(q)
    requires forall d :: 0 <= d < |ps| && d != c ==> qs[d] == ps[d]
    ensures HasChild(ps, q, k) ==> HasChild(qs, q, k)
    ensures NoneBelow(ps, q, k) && qs[c].parent != Some(q) ==> NoneBelow(qs, q, k)
  {
    if HasChild(ps, q, k) {
      var d :| k <= d < |ps| && ps[d].parent == Some(q);
      assert qs[d].parent == Some(q);
    }
  }

  /** Where there is a process besides init, init has a child: follow the parents, whose pids get smaller. */
  lemma {:induction false} InitHasChild(ps: seq<Proc>, c: nat)
    requires FamilyInv(ps) && Elder(ps) && c < |ps| && c != INIT && !ps[c].state.Unused?
    ensures INIT < |ps| && HasChild(ps, INIT, 0) && ps[INIT].pid < ps[c].pid
    decreases ps[c].pid
  {
    assert ParentOk(ps, c);
    var p := ps[c].parent.value;
    assert ProcOk(ps[p]);
    if p != INIT { InitHasChild(ps, p); } else { assert ps[c].parent == Some(INIT); }
  }

  lemma ReparentScan(s: State, p: nat)
    requires Inv(s) && WaitInv(s.procs) && p < |s.procs| && NextReparent(s, p).Some?
    ensures WaitInv(NextReparent(s, p).value.procs)
  {
    var ps, qs := s.procs, NextReparent(s, p).value.procs;
    var k := ps[p].pc.k;
    assert ProcOk(ps[p]) && InitOk(ps);
    if ps[k].parent != Some(p) {
      QuietScan(ps, qs, p);
    } else {
      InitHasChild(ps, p);
      Adopted(ps, qs, p, k);
    }
  }

  lemma Adopted(ps: seq<Proc>, qs: seq<Proc>, p: nat, k: nat)
    requires WaitInv(ps) && |qs| == |ps| && p < |ps| && k < |ps| && INIT < |ps| && HasChild(ps, INIT, 0)
    requires ps[INIT].pid <= ps[p].pid && ps[p].pc.ExitReparent? && qs[p].pc.ExitReparent?
    requires ps[k].parent == Some(p) && qs[k].parent == Some(INIT)
    requires forall d :: 0 <= d < |ps| ==> qs[d].pid == ps[d].pid && (d != k ==> qs[d].parent == ps[d].parent)
    requires forall d :: 0 <= d < |ps| && d != p ==> qs[d].pc == ps[d].pc
    ensures WaitInv(qs)
  {
    AdoptedElder(ps, qs, p, k);
    forall q | 0 <= q < |qs| ensures ScanOk(qs, q) { AdoptedScan(ps, qs, p, k, q); }
  }

  lemma AdoptedElder(ps: seq<Proc>, qs: seq<Proc>, p: nat, k: nat)
    requires Elder(ps) && |qs| == |ps| && p < |ps| && k < |ps| && INIT < |ps| && ps[k].parent == Some(p)
    requires ps[INIT].pid <= ps[p].pid && qs[k].parent == Some(INIT)
    requires forall d :: 0 <= d < |ps| ==> qs[d].pid == ps[d].pid && (d != k ==> qs[d].parent == ps[d].parent)
    ensures Elder(qs)
  {}

  lemma AdoptedScan(ps: seq<Proc>, qs: seq<Proc>, p: nat, k: nat, q: nat)
    requires |qs| == |ps| && p < |ps| && k < |ps| && q < |ps| && ScanOk(ps, q) && HasChild(ps, INIT, 0)
    requires ps[k].parent == Some(p) && qs[k].parent == Some(INIT) && ps[p].pc.ExitReparent? && qs[p].pc.ExitReparent?
    requires forall d :: 0 <= d < |ps| ==>
      (d != k ==> qs[d].parent == ps[d].parent) && (d != p ==> qs[d].pc == ps[d].pc)
    ensures ScanOk(qs, q)
  {
    if q != p {
      var pc := ps[q].pc;
      if HasChild(ps, q, 0) {
        var c :| 0 <= c < |ps| && ps[c].parent == Some(q);
        assert qs[c].parent == Some(q);
      }
      if pc.WaitScan? && HasChild(ps, q, pc.k) {
        var c :| pc.k <= c < |ps| && ps[c].parent == Some(q);
        assert qs[c].parent == Some(q);
      }
      if pc.WaitScan? && !pc.havekids && q == INIT {
        var c :| 0 <= c < |ps| && ps[c].parent == Some(INIT);
        assert c >= pc.k ==> HasChild(ps, q, pc.k);
      }
    }
  }

  lemma ReapScan(s: State, p: nat, copied: bool)
    requires Inv(s) && WaitInv(s.procs) && p < |s.procs| && NextScan(s, p, copied).Some?
    ensures WaitInv(NextScan(s, p, copied).value.procs)
  {
    var ps, qs := s.procs, NextScan(s, p, copied).value.procs;
    var k := ps[p].pc.k;
    if ps[k].parent == Some(p) && ps[k].state.Zombie? && copied {
      ReapedScan(ps, qs, p, k);
    } else {
      PassedScan(ps, qs, p, k);
    }
  }

  /** The scan goes on past slot k, or ends there without a reap. */
  lemma PassedScan(ps: seq<Proc>, qs: seq<Proc>, p: nat, k: nat)
    requires WaitInv(ps) && |qs| == |ps| && p < |ps| && k < |ps| && ps[p].pc.WaitScan? && ps[p].pc.k == k
    requires qs[p].pc == User
             || qs[p].pc == WaitScan(k + 1, ps[p].pc.havekids || ps[k].parent == Some(p))
    requires forall q :: 0 <= q < |ps| ==> SameFamily(ps[q], qs[q]) && (q != p ==> qs[q].pc == ps[q].pc)
    ensures WaitInv(qs)
  {
    assert ScanOk(ps, p);
    if qs[p].pc.WaitScan? {
      if ps[k].parent != Some(p) {
        ScanNext(ps, qs, p, k);
      } else {
        assert SameFamily(ps[k], qs[k]);
        assert qs[k].parent == Some(p);
      }
    }
    QuietScan(ps, qs, p);
  }

  /** Slot k, a zombie child of p, is reaped. */
  lemma ReapedScan(ps: seq<Proc>, qs: seq<Proc>, p: nat, k: nat)
    requires FamilyInv(ps) && WaitInv(ps) && |qs| == |ps| && p < |ps| && k < |ps| && p != k
    requires ps[k].parent == Some(p) && ps[k].state.Zombie? && qs[k] == FREE && qs[p].pc == User
    requires forall d :: 0 <= d < |ps| && d != k ==> SameFamily(ps[d], qs[d]) && (d != p ==> qs[d].pc == ps[d].pc)
    ensures WaitInv(qs)
  {
    ReapedElder(ps, qs, p, k);
    forall q | 0 <= q < |qs| ensures ScanOk(qs, q) {
      if q != p && q != k {
        assert ScanOk(ps, q);
        Reaped(ps, qs, p, k, q, 0);
        if ps[q].pc.WaitScan? { Reaped(ps, qs, p, k, q, ps[q].pc.k); }
      }
    }
  }

  lemma ScanNext(ps: seq<Proc>, qs: seq<Proc>, p: nat, k: nat)
    requires |qs| == |ps| && p < |ps| && k < |ps| && ScanOk(ps, p) && ps[k].parent != Some(p)
    requires ps[p].pc.WaitScan? && ps[p].pc.k == k && qs[p].pc == WaitScan(k + 1, ps[p].pc.havekids)
    requires forall d :: 0 <= d < |ps| ==> qs[d].parent == ps[d].parent
    ensures ScanOk(qs, p)
  {
    if HasChild(ps, p, 0) {
      var c :| 0 <= c < |ps| && ps[c].parent == Some(p);
      assert qs[c].parent == Some(p);
    }
    if HasChild(ps, p, k) {
      var c :| k <= c < |ps| && ps[c].parent == Some(p);
      assert qs[c].parent == Some(p) && c != k;
    }
  }

  /** Slot k, a child of p that nobody is a child of, is free now. */
  lemma ReapedElder(ps: seq<Proc>, qs: seq<Proc>, p: nat, k: nat)
    requires FamilyInv(ps) && Elder(ps) && |qs| == |ps| && k < |ps| && ps[k].state.Zombie? && qs[k] == FREE
    requires forall d :: 0 <= d < |ps| && d != k ==> SameFamily(ps[d], qs[d])
    ensures Elder(qs)
  {
    assert ProcOk(ps[k]);
    forall c | 0 <= c < |qs| && qs[c].parent.Some?
      ensures qs[c].parent.value < |qs| && qs[qs[c].parent.value].pid < qs[c].pid
    {
      assert ParentOk(ps, c) && SameFamily(ps[c], qs[c]);
      assert SameFamily(ps[ps[c].parent.value], qs[ps[c].parent.value]);
    }
  }

  lemma Reaped(ps: seq<Proc>, qs: seq<Proc>, p: nat, k: nat, q: nat, from: nat)
    requires |qs| == |ps| && k < |ps| && ps[k].parent == Some(p) && q != p && qs[k] == FREE
    requires forall d :: 0 <= d < |ps| && d != k ==> SameFamily(ps[d], qs[d])
    ensures HasChild(ps, q, from) ==> HasChild(qs, q, from)
    ensures NoneBelow(ps, q, from) ==> NoneBelow(qs, q, from)
  {
    if HasChild(ps, q, from) {
      var c :| from <= c < |ps| && ps[c].parent == Some(q);
      assert SameFamily(ps[c], qs[c]);
    }
    forall c | 0 <= c < from && c < |qs| && NoneBelow(ps, q, from) ensures qs[c].parent != Some(q) {
      assert c != k ==> SameFamily(ps[c], qs[c]);
    }
  }

  lemma OtherScan(s: State, e: Event)
    requires Inv(s) && WaitInv(s.procs) && Next(s, e).Some? && !e.Fork? && !e.ExitStep? && !e.WaitStep?
    ensures WaitInv(Next(s, e).value.procs)
  {
    var ps, qs := s.procs, Next(s, e).value.procs;
    assert ScanOk(ps, e.p);
    forall q | 0 <= q < |ps| ensures SameFamily(ps[q], qs[q]) && (q != e.p ==> qs[q].pc == ps[q].pc) {}
    SameChildren(ps, qs, e.p, 0);
    if ps[e.p].pc.WaitScan? { SameChildren(ps, qs, e.p, ps[e.p].pc.k); }
    QuietScan(ps, qs, e.p);
  }

  lemma NextScanKeeps(s: State, e: Event)
    requires Inv(s) && WaitInv(s.procs) && Next(s, e).Some?
    ensures WaitInv(Next(s, e).value.procs)
  {
    match e
    case Fork(p, c) => ForkScan(s, p, c);
    case ExitStep(p) => ReparentScan(s, p);
    case WaitStep(p, copied) => ReapScan(s, p, copied);
    case _ => OtherScan(s, e);
  }

  lemma {:induction false} RunScan(s: State, es: seq<Event>)
    requires Inv(s) && WaitInv(s.procs) && Run(s, es).Some?
    ensures WaitInv(Run(s, es).value.procs)
    decreases |es|
  {
    if es != [] {
      NextScanKeeps(s, es[0]);
      LockKeeps(s, es[0]);
      FamilyKeeps(s, es[0]);
      PidKeeps(s, es[0]);
      RunScan(Next(s, es[0]).value, es[1..]);
    }
  }

  lemma ReachableScan(count: nat, s: State)
    requires count > 0 && Reachable(count, s)
    ensures WaitInv(s.procs)
  {
    InvInit(count);
    var es :| Run(Init(count), es) == Some(s);
    RunScan(Init(count), es);
  }

  /** Nobody who has been killed sleeps in wait, or is about to. */
  ghost predicate Spared(ps: seq<Proc>) { forall p :: 0 <= p < |ps| && InWaitSleep(ps[p]) ==> !ps[p].killed }

  lemma NextSpared(s: State, e: Event)
    requires Inv(s) && Spared(s.procs) && Next(s, e).Some?
    ensures Spared(Next(s, e).value.procs)
  {
    var qs := Next(s, e).value.procs;
    MoverSpared(s, e);
    forall p | 0 <= p < |qs| && InWaitSleep(qs[p]) ensures !qs[p].killed {
      if p != e.p { OtherSpared(s, e, p); }
    }
  }

  lemma MoverSpared(s: State, e: Event)
    requires Inv(s) && Spared(s.procs) && Next(s, e).Some?
    ensures InWaitSleep(Next(s, e).value.procs[e.p]) ==> !Next(s, e).value.procs[e.p].killed
  {
    assert LockOk(s.procs, e.p) && ProcOk(s.procs[e.p]);
  }

  lemma OtherSpared(s: State, e: Event, p: nat)
    requires Spared(s.procs) && Next(s, e).Some? && p < |s.procs| && p != e.p
    ensures InWaitSleep(Next(s, e).value.procs[p]) ==> !Next(s, e).value.procs[p].killed
  {}

  lemma {:induction false} RunSpared(s: State, es: seq<Event>)
    requires Inv(s) && Spared(s.procs) && Run(s, es).Some?
    ensures Spared(Run(s, es).value.procs)
    decreases |es|
  {
    if es != [] {
      NextSpared(s, es[0]);
      LockKeeps(s, es[0]);
      FamilyKeeps(s, es[0]);
      PidKeeps(s, es[0]);
      RunSpared(Next(s, es[0]).value, es[1..]);
    }
  }

  lemma KilledIsAwake(count: nat, s: State, p: nat)
    requires count > 0 && Reachable(count, s) && p < |s.procs| && s.procs[p].killed
    ensures !s.procs[p].pc.WaitMarked? && !(s.procs[p].pc.WaitAsleep? && s.procs[p].state.Sleeping?)
  {
    InvInit(count);
    var es :| Run(Init(count), es) == Some(s);
    RunSpared(Init(count), es);
  }

  /** wait returns -1 after its scan only to a process that was killed or has no child, and to one of these it does. */
  lemma WaitFailsIff(count: nat, s: State, p: nat)
    requires count > 0 && Reachable(count, s) && p < |s.procs|
    requires s.procs[p].pc.WaitScan? && s.procs[p].pc.k == |s.procs|
    ensures Next(s, WaitFail(p)).Some? <==>
      s.procs[p].killed || forall c :: 0 <= c < |s.procs| ==> s.procs[c].parent != Some(p)
    ensures Next(s, WaitFail(p)).Some? <==> Next(s, WaitSleep(p)).None?
  {
    ReachableScan(count, s);
    assert ScanOk(s.procs, p);
  }

  /** Nobody sleeps in wait without a child to wait for. */
  lemma SleeperHasChild(count: nat, s: State, p: nat)
    requires count > 0 && Reachable(count, s) && p < |s.procs|
    requires s.procs[p].pc.WaitMarked? || s.procs[p].pc.WaitAsleep?
    ensures exists c :: 0 <= c < |s.procs| && s.procs[c].parent == Some(p)
  {
    ReachableScan(count, s);
    assert ScanOk(s.procs, p);
  }
}

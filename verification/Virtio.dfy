/**
 The virtio disk driver and the device behind it: descriptors, the available ring and the used ring. The methods of
 Queue are what happens between two moments at which others may act: a driver's turn under vdisk_lock, one round of
 the interrupt handler's loop, or one act of the device. Every interleaving is a row of such calls.
 A predicate that a method only hands on is written `P == true`, so that it is handed on unopened.
 */
module Virtio {
  import opened Basics

  const NUM := 8
  const WORD16 := 0x1_0000

  /** What a descriptor points at: the request header, a buffer's data, or the status byte of a chain. */
  datatype What = Nothing | Header(write: bool, sector: nat) | DataOf(b: nat) | StatusOf(head: nat)

  /** A descriptor; more is VRING_DESC_F_NEXT, fill is VRING_DESC_F_WRITE: the device writes what it points at. */
  datatype Desc = Desc(what: What, next: nat, more: bool, fill: bool)

  /** Where a request is: in the available ring at x, with the device, in the used ring at x, or over. */
  datatype Phase = Queued(x: nat) | Held | Used(x: nat) | Done

  datatype Req = Req(b: nat, write: bool, sector: nat, i1: nat, i2: nat, phase: Phase)

  /**
   What driver and device share, and their own books. busy holds the buffers whose disk flag is set; devIdx is how far
   the device has looked in the available ring.
   */
  datatype Mem = Mem(free: seq<bool>, desc: seq<Desc>, info: seq<Option<nat>>, busy: set<nat>,
                     avail: seq<nat>, availIdx: nat, devIdx: nat, used: seq<nat>, usedId: nat, usedIdx: nat)

  /**
   The requests by the first descriptor of their chain, and by their buffer; the chain each descriptor is in; and all
   the chains ever put in the two rings, with how far their readers have come.
   */
  datatype Log = Log(reqs: map<nat, Req>, of: map<nat, nat>, owner: seq<Option<nat>>,
                     put: seq<nat>, fetched: nat, done: seq<nat>, seen: nat)

  predicate Sized(m: Mem, g: Log) {
    |m.free| == |m.desc| == |m.info| == |m.avail| == |m.used| == |g.owner| == NUM
  }

  /** The counters wrap; the histories do not. */
  predicate Counters(m: Mem, g: Log) {
    && m.availIdx == |g.put| % WORD16 && g.fetched <= |g.put| && m.devIdx == g.fetched % WORD16
    && m.usedId == |g.done| % WORD16 && g.seen <= |g.done| && m.usedIdx == g.seen % NUM
  }

  /** The chain of request h is in memory as the device has to find it, and its descriptors are nobody else's. */
  predicate ChainOk(m: Mem, g: Log, h: nat)
    requires h in g.reqs
  {
    var q := g.reqs[h];
    && |m.desc| == |m.info| == |g.owner| == NUM && h < NUM && q.i1 < NUM && q.i2 < NUM
    && h != q.i1 && h != q.i2 && q.i1 != q.i2
    && g.owner[h] == g.owner[q.i1] == g.owner[q.i2] == Some(h)
    && m.desc[h] == Desc(Header(q.write, q.sector), q.i1, true, false)
    && m.desc[q.i1] == Desc(DataOf(q.b), q.i2, true, !q.write)
    && m.desc[q.i2] == Desc(StatusOf(h), 0, false, true)
    && m.info[h] == Some(q.b) && q.b in g.of && g.of[q.b] == h
  }

  /** A descriptor is free or in the chain of a request. */
  predicate DescOk(m: Mem, g: Log, d: nat) {
    && d < |g.owner| && d < |m.free| && (m.free[d] <==> g.owner[d].None?)
    && (g.owner[d].Some? ==>
          var h := g.owner[d].value; h in g.reqs && (d == h || d == g.reqs[h].i1 || d == g.reqs[h].i2))
  }

  /** A buffer's disk flag is set exactly while a request on it is not over. */
  predicate BufOk(m: Mem, g: Log, b: nat) {
    && (b in g.of ==> g.of[b] in g.reqs && g.reqs[g.of[b]].b == b)
    && (b in m.busy <==> b in g.of && !g.reqs[g.of[b]].phase.Done?)
  }

  /** A request is in a ring exactly when its phase says so. */
  predicate PhaseOk(g: Log, h: nat)
    requires h in g.reqs
  {
    match g.reqs[h].phase
    case Queued(x) => g.fetched <= x < |g.put| && g.put[x] == h
    case Used(x) => g.seen <= x < |g.done| && g.done[x] == h
    case Held => true
    case Done => true
  }

  predicate PutOk(m: Mem, g: Log, x: nat) {
    && x < |g.put| && |m.avail| == NUM && m.avail[x % NUM] == g.put[x]
    && g.put[x] in g.reqs && g.reqs[g.put[x]].phase == Queued(x)
  }

  predicate DoneOk(m: Mem, g: Log, x: nat) {
    && x < |g.done| && |m.used| == NUM && m.used[x % NUM] == g.done[x]
    && g.done[x] in g.reqs && g.reqs[g.done[x]].phase == Used(x)
  }

  ghost predicate Tables(m: Mem, g: Log) {
    && Sized(m, g) && (forall h :: h in g.reqs ==> ChainOk(m, g, h))
    && (forall d :: 0 <= d < NUM ==> DescOk(m, g, d)) && (forall b: nat :: BufOk(m, g, b))
  }

  ghost predicate Rings(m: Mem, g: Log) {
    && Counters(m, g) && (forall h :: h in g.reqs ==> PhaseOk(g, h))
    && (forall x :: g.fetched <= x < |g.put| ==> PutOk(m, g, x))
    && (forall x :: g.seen <= x < |g.done| ==> DoneOk(m, g, x))
  }

  ghost predicate Inv(m: Mem, g: Log) { Tables(m, g) && Rings(m, g) }

  /* At most two requests are live. */

  function Below(n: nat): (r: set<nat>)
    ensures |r| == n && forall d :: d in r <==> 0 <= d < n
  {
    if n == 0 then {} else Below(n - 1) + {n - 1}
  }

  lemma SubsetSize(a: set<nat>, b: set<nat>)
    requires a <= b
    ensures |a| <= |b|
  {
    assert b == a + (b - a);
  }

  /** The descriptors of a chain. */
  function Chain(g: Log, h: nat): set<nat>
    requires h in g.reqs
  {
    {h, g.reqs[h].i1, g.reqs[h].i2}
  }

  lemma ThreeSize(a: nat, b: nat, c: nat)
    requires a != b && a != c && b != c
    ensures |{a, b, c}| == 3
  {
    assert {a, b, c} == {a, b} + {c};
    assert |{a, b}| == 2;
  }

  lemma NineFit(x: set<nat>, y: set<nat>, z: set<nat>, n: nat)
    requires |x| == |y| == |z| == 3 && x !! y && x !! z && y !! z
    requires forall d :: d in x || d in y || d in z ==> d < n
    ensures n >= 9
  {
    var a := x + y;
    assert |a| == 6 && |a + z| == 9;
    SubsetSize(a + z, Below(n));
  }

  lemma ChainsApart(m: Mem, g: Log, h: nat, k: nat)
    requires h in g.reqs && k in g.reqs && h != k && ChainOk(m, g, h) && ChainOk(m, g, k)
    ensures |Chain(g, h)| == 3 && Chain(g, h) !! Chain(g, k)
  {
    ThreeSize(h, g.reqs[h].i1, g.reqs[h].i2);
  }

  lemma AtMostTwo(m: Mem, g: Log, h: nat, k: nat, l: nat)
    requires Tables(m, g) && h in g.reqs && k in g.reqs && l in g.reqs
    ensures h == k || k == l || h == l
  {
    if h != k && k != l && h != l {
      assert ChainOk(m, g, h) && ChainOk(m, g, k) && ChainOk(m, g, l);
      ChainsApart(m, g, h, k);
      ChainsApart(m, g, k, l);
      ChainsApart(m, g, l, h);
      NineFit(Chain(g, h), Chain(g, k), Chain(g, l), NUM);
    }
  }

  /** So neither ring ever holds more than two. */
  lemma RingsShort(m: Mem, g: Log)
    requires Inv(m, g)
    ensures |g.put| <= g.fetched + 2 && |g.done| <= g.seen + 2
  {
    if |g.put| > g.fetched + 2 {
      var x := g.fetched;
      assert PutOk(m, g, x) && PutOk(m, g, x + 1) && PutOk(m, g, x + 2);
      AtMostTwo(m, g, g.put[x], g.put[x + 1], g.put[x + 2]);
      assert false;
    }
    if |g.done| > g.seen + 2 {
      var x := g.seen;
      assert DoneOk(m, g, x) && DoneOk(m, g, x + 1) && DoneOk(m, g, x + 2);
      AtMostTwo(m, g, g.done[x], g.done[x + 1], g.done[x + 2]);
      assert false;
    }
  }

  lemma SlotsDiffer(a: nat, b: nat)
    requires a < b < a + NUM
    ensures a % NUM != b % NUM
  {}

  /** The interrupt handler's comparison, on a wrapped 16-bit counter and one modulo NUM, is exact. */
  lemma IndexTest(m: Mem, g: Log)
    requires Inv(m, g)
    ensures m.usedIdx % NUM != m.usedId % NUM <==> g.seen < |g.done|
  {
    RingsShort(m, g);
    SlotOfCounter(|g.done|);
  }

  /** So is the device's, on two wrapped counters. */
  lemma DeviceTest(m: Mem, g: Log)
    requires Inv(m, g)
    ensures m.devIdx != m.availIdx <==> g.fetched < |g.put|
  {
    RingsShort(m, g);
  }

  lemma SlotOfCounter(n: nat)
    ensures n % WORD16 % NUM == n % NUM
  {
    var q, w := n / WORD16, n % WORD16;
    assert n == NUM * (WORD16 / NUM * q) + w;
    WholeRounds(WORD16 / NUM * q, w);
  }

  lemma WholeRounds(q: nat, w: nat)
    ensures (NUM * q + w) % NUM == w % NUM
  {}

  /* What each act does. */

  /** Three different descriptors. */
  datatype Trio = Trio(h: nat, i1: nat, i2: nat)

  predicate Different(t: Trio) { t.h != t.i1 && t.h != t.i2 && t.i1 != t.i2 && t.h < NUM && t.i1 < NUM && t.i2 < NUM }

  /** virtio_disk_rw with the descriptors t, up to its wait. */
  function Submitted(m: Mem, t: Trio, b: nat, write: bool, sector: nat): Mem
    requires |m.free| == |m.desc| == |m.info| == |m.avail| == NUM && Different(t)
  {
    m.(free := m.free[t.h := false][t.i1 := false][t.i2 := false],
       desc := m.desc[t.h := Desc(Header(write, sector), t.i1, true, false)]
                     [t.i1 := Desc(DataOf(b), t.i2, true, !write)][t.i2 := Desc(StatusOf(t.h), 0, false, true)],
       info := m.info[t.h := Some(b)], busy := m.busy + {b},
       avail := m.avail[m.availIdx % NUM := t.h], availIdx := (m.availIdx + 1) % WORD16)
  }

  function LogSubmitted(g: Log, t: Trio, b: nat, write: bool, sector: nat): Log
    requires |g.owner| == NUM && Different(t)
  {
    g.(reqs := g.reqs[t.h := Req(b, write, sector, t.i1, t.i2, Queued(|g.put|))], of := g.of[b := t.h],
       owner := g.owner[t.h := Some(t.h)][t.i1 := Some(t.h)][t.i2 := Some(t.h)], put := g.put + [t.h])
  }

  predicate CanSubmit(m: Mem, g: Log, t: Trio, b: nat) {
    |m.free| == NUM && Different(t) && m.free[t.h] && m.free[t.i1] && m.free[t.i2] && b !in g.of
  }

  predicate Loose(g: Log, d: nat, k: nat) { k in g.reqs ==> d != k && d != g.reqs[k].i1 && d != g.reqs[k].i2 }

  /** A free descriptor is in no chain. */
  lemma FreeIsLoose(m: Mem, g: Log, d: nat, k: nat)
    requires Tables(m, g) && d < NUM && m.free[d]
    ensures Loose(g, d, k)
  {
    assert DescOk(m, g, d);
    if k in g.reqs { assert ChainOk(m, g, k); }
  }

  lemma SubmitOld(m: Mem, g: Log, t: Trio, b: nat, write: bool, sector: nat, k: nat)
    requires Sized(m, g) && CanSubmit(m, g, t, b) && k in g.reqs && ChainOk(m, g, k)
    requires Loose(g, t.h, k) && Loose(g, t.i1, k) && Loose(g, t.i2, k)
    ensures ChainOk(Submitted(m, t, b, write, sector), LogSubmitted(g, t, b, write, sector), k)
  {}

  lemma SubmitNew(m: Mem, g: Log, t: Trio, b: nat, write: bool, sector: nat)
    requires Sized(m, g) && CanSubmit(m, g, t, b)
    ensures ChainOk(Submitted(m, t, b, write, sector), LogSubmitted(g, t, b, write, sector), t.h)
  {}

  lemma SubmitChains(m: Mem, g: Log, t: Trio, b: nat, write: bool, sector: nat, k: nat)
    requires Tables(m, g) && CanSubmit(m, g, t, b) && k in LogSubmitted(g, t, b, write, sector).reqs
    ensures ChainOk(Submitted(m, t, b, write, sector), LogSubmitted(g, t, b, write, sector), k)
  {
    SubmitNew(m, g, t, b, write, sector);
    if k != t.h {
      assert ChainOk(m, g, k);
      FreeIsLoose(m, g, t.h, k);
      FreeIsLoose(m, g, t.i1, k);
      FreeIsLoose(m, g, t.i2, k);
      SubmitOld(m, g, t, b, write, sector, k);
    }
  }

  lemma SubmitDesc(m: Mem, g: Log, t: Trio, b: nat, write: bool, sector: nat, d: nat)
    requires Sized(m, g) && CanSubmit(m, g, t, b) && d < NUM && DescOk(m, g, d) && t.h !in g.reqs
    ensures DescOk(Submitted(m, t, b, write, sector), LogSubmitted(g, t, b, write, sector), d)
  {}

  lemma SubmitBuf(m: Mem, g: Log, t: Trio, b: nat, write: bool, sector: nat, c: nat)
    requires Sized(m, g) && CanSubmit(m, g, t, b) && BufOk(m, g, c) && t.h !in g.reqs
    ensures BufOk(Submitted(m, t, b, write, sector), LogSubmitted(g, t, b, write, sector), c)
  {}

  lemma SubmitTables(m: Mem, g: Log, t: Trio, b: nat, write: bool, sector: nat)
    requires Tables(m, g) && CanSubmit(m, g, t, b)
    ensures t.h !in g.reqs && Tables(Submitted(m, t, b, write, sector), LogSubmitted(g, t, b, write, sector)) == true
  {
    var m', g' := Submitted(m, t, b, write, sector), LogSubmitted(g, t, b, write, sector);
    FreeIsLoose(m, g, t.h, t.h);
    forall k | k in g'.reqs ensures ChainOk(m', g', k) { SubmitChains(m, g, t, b, write, sector, k); }
    forall d | 0 <= d < NUM ensures DescOk(m', g', d) {
      assert DescOk(m, g, d);
      SubmitDesc(m, g, t, b, write, sector, d);
    }
    forall c: nat ensures BufOk(m', g', c) {
      assert BufOk(m, g, c);
      SubmitBuf(m, g, t, b, write, sector, c);
    }
  }

  lemma NextCounter(n: nat)
    ensures (n % WORD16 + 1) % WORD16 == (n + 1) % WORD16
  {}

  lemma SubmitPut(m: Mem, g: Log, t: Trio, b: nat, write: bool, sector: nat, x: nat)
    requires Sized(m, g) && Counters(m, g) && Different(t) && t.h !in g.reqs && |g.put| < g.fetched + NUM
    requires g.fetched <= x <= |g.put| && (x < |g.put| ==> PutOk(m, g, x))
    ensures PutOk(Submitted(m, t, b, write, sector), LogSubmitted(g, t, b, write, sector), x)
  {
    SlotOfCounter(|g.put|);
    if x < |g.put| { SlotsDiffer(x, |g.put|); }
  }

  lemma SubmitRings(m: Mem, g: Log, t: Trio, b: nat, write: bool, sector: nat)
    requires Rings(m, g) && Sized(m, g) && Different(t) && t.h !in g.reqs && |g.put| < g.fetched + NUM
    ensures Rings(Submitted(m, t, b, write, sector), LogSubmitted(g, t, b, write, sector)) == true
  {
    var m', g' := Submitted(m, t, b, write, sector), LogSubmitted(g, t, b, write, sector);
    NextCounter(|g.put|);
    forall k | k in g'.reqs ensures PhaseOk(g', k) { assert k in g.reqs ==> PhaseOk(g, k); }
    forall x | g'.fetched <= x < |g'.put| ensures PutOk(m', g', x) {
      if x < |g.put| { assert PutOk(m, g, x); }
      SubmitPut(m, g, t, b, write, sector, x);
    }
    forall x | g'.seen <= x < |g'.done| ensures DoneOk(m', g', x) { assert DoneOk(m, g, x); }
  }

  lemma SubmitKeeps(m: Mem, g: Log, t: Trio, b: nat, write: bool, sector: nat)
    requires Inv(m, g) && CanSubmit(m, g, t, b)
    ensures Inv(Submitted(m, t, b, write, sector), LogSubmitted(g, t, b, write, sector)) == true
  {
    RingsShort(m, g);
    SubmitTables(m, g, t, b, write, sector);
    SubmitRings(m, g, t, b, write, sector);
  }

  /** A request moves to another phase. */
  function Phased(g: Log, h: nat, p: Phase): map<nat, Req>
    requires h in g.reqs
  {
    g.reqs[h := g.reqs[h].(phase := p)]
  }

  /** The device takes the next chain from the available ring. */
  function LogFetched(g: Log): Log
    requires g.fetched < |g.put| && g.put[g.fetched] in g.reqs
  {
    g.(reqs := Phased(g, g.put[g.fetched], Held), fetched := g.fetched + 1)
  }

  function Fetched(m: Mem): Mem { m.(devIdx := (m.devIdx + 1) % WORD16) }

  lemma FetchKeeps(m: Mem, g: Log)
    requires Inv(m, g) && g.fetched < |g.put|
    ensures PutOk(m, g, g.fetched) && ChainOk(m, g, g.put[g.fetched]) && m.avail[m.devIdx % NUM] == g.put[g.fetched]
    ensures Inv(Fetched(m), LogFetched(g)) == true
  {
    assert PutOk(m, g, g.fetched) && ChainOk(m, g, g.put[g.fetched]);
    SlotOfCounter(g.fetched);
    PhaseTables(m, Fetched(m), g, LogFetched(g), g.put[g.fetched], Held);
    FetchRings(m, g);
  }

  lemma FetchRings(m: Mem, g: Log)
    requires Rings(m, g) && g.fetched < |g.put| && PutOk(m, g, g.fetched)
    ensures Rings(Fetched(m), LogFetched(g)) == true
  {
    var m', g' := Fetched(m), LogFetched(g);
    NextCounter(g.fetched);
    forall k | k in g'.reqs ensures PhaseOk(g', k) { assert PhaseOk(g, k); }
    forall x | g'.fetched <= x < |g'.put| ensures PutOk(m', g', x) { assert PutOk(m, g, x); }
    forall x | g'.seen <= x < |g'.done| ensures DoneOk(m', g', x) { assert DoneOk(m, g, x); }
  }

  /** A change of phase leaves the chains alone. */
  lemma PhaseTables(m: Mem, m': Mem, g: Log, g': Log, h: nat, p: Phase)
    requires Tables(m, g) && h in g.reqs && g'.reqs == Phased(g, h, p) && g'.of == g.of && g'.owner == g.owner
    requires m'.desc == m.desc && m'.info == m.info && m'.free == m.free && |m'.avail| == |m'.used| == NUM
    requires m'.busy == (if p.Done? then m.busy - {g.reqs[h].b} else m.busy) && !g.reqs[h].phase.Done?
    ensures Tables(m', g') == true
  {
    assert ChainOk(m, g, h);
    forall k | k in g'.reqs ensures ChainOk(m', g', k) { assert ChainOk(m, g, k); }
    forall d | 0 <= d < NUM ensures DescOk(m', g', d) { assert DescOk(m, g, d); }
    forall b: nat ensures BufOk(m', g', b) { assert BufOk(m, g, b); }
  }

  /** The device puts a chain in the used ring. */
  function Completed(m: Mem, h: nat): Mem
    requires |m.used| == NUM
  {
    m.(used := m.used[m.usedId % NUM := h], usedId := (m.usedId + 1) % WORD16)
  }

  function LogCompleted(g: Log, h: nat): Log
    requires h in g.reqs
  {
    g.(reqs := Phased(g, h, Used(|g.done|)), done := g.done + [h])
  }

  lemma CompleteKeeps(m: Mem, g: Log, h: nat)
    requires Inv(m, g) && h in g.reqs && g.reqs[h].phase.Held?
    ensures Inv(Completed(m, h), LogCompleted(g, h)) == true
  {
    RingsShort(m, g);
    PhaseTables(m, Completed(m, h), g, LogCompleted(g, h), h, Used(|g.done|));
    CompleteRings(m, g, h);
  }

  lemma CompleteDone(m: Mem, g: Log, h: nat, x: nat)
    requires Counters(m, g) && |m.used| == NUM && h in g.reqs && g.reqs[h].phase.Held? && |g.done| < g.seen + NUM
    requires g.seen <= x <= |g.done| && (x < |g.done| ==> DoneOk(m, g, x))
    ensures DoneOk(Completed(m, h), LogCompleted(g, h), x)
  {
    SlotOfCounter(|g.done|);
    if x < |g.done| { SlotsDiffer(x, |g.done|); }
  }

  lemma CompleteRings(m: Mem, g: Log, h: nat)
    requires Rings(m, g) && |m.used| == NUM && h in g.reqs && g.reqs[h].phase.Held? && |g.done| < g.seen + NUM
    ensures Rings(Completed(m, h), LogCompleted(g, h)) == true
  {
    var m', g' := Completed(m, h), LogCompleted(g, h);
    NextCounter(|g.done|);
    forall k | k in g'.reqs ensures PhaseOk(g', k) { assert PhaseOk(g, k); }
    forall x | g'.fetched <= x < |g'.put| ensures PutOk(m', g', x) { assert PutOk(m, g, x); }
    forall x | g'.seen <= x < |g'.done| ensures DoneOk(m', g', x) {
      if x < |g.done| { assert DoneOk(m, g, x); }
      CompleteDone(m, g, h, x);
    }
  }

  /** One round of the interrupt handler's loop. */
  function Interrupted(m: Mem): Mem
    requires m.usedIdx < |m.used| && m.used[m.usedIdx] < |m.info| && m.info[m.used[m.usedIdx]].Some?
  {
    m.(busy := m.busy - {m.info[m.used[m.usedIdx]].value}, usedIdx := (m.usedIdx + 1) % NUM)
  }

  function LogInterrupted(g: Log): Log
    requires g.seen < |g.done| && g.done[g.seen] in g.reqs
  {
    g.(reqs := Phased(g, g.done[g.seen], Done), seen := g.seen + 1)
  }

  lemma InterruptKeeps(m: Mem, g: Log)
    requires Inv(m, g) && g.seen < |g.done|
    ensures DoneOk(m, g, g.seen) && m.usedIdx < NUM && m.used[m.usedIdx] == g.done[g.seen]
    ensures ChainOk(m, g, g.done[g.seen])
    ensures Inv(Interrupted(m), LogInterrupted(g)) == true
  {
    assert DoneOk(m, g, g.seen) && ChainOk(m, g, g.done[g.seen]);
    PhaseTables(m, Interrupted(m), g, LogInterrupted(g), g.done[g.seen], Done);
    InterruptRings(m, g);
  }

  lemma InterruptRings(m: Mem, g: Log)
    requires Rings(m, g) && g.seen < |g.done| && DoneOk(m, g, g.seen) && m.usedIdx < NUM == |m.used|
    requires g.done[g.seen] < |m.info| && m.info[g.done[g.seen]].Some? && m.used[m.usedIdx] == g.done[g.seen]
    ensures Rings(Interrupted(m), LogInterrupted(g)) == true
  {
    var m', g' := Interrupted(m), LogInterrupted(g);
    NextSlot(g.seen);
    forall k | k in g'.reqs ensures PhaseOk(g', k) { assert PhaseOk(g, k); }
    forall x | g'.fetched <= x < |g'.put| ensures PutOk(m', g', x) { assert PutOk(m, g, x); }
    forall x | g'.seen <= x < |g'.done| ensures DoneOk(m', g', x) { assert DoneOk(m, g, x); }
  }

  lemma NextSlot(n: nat)
    ensures (n % NUM + 1) % NUM == (n + 1) % NUM
  {}

  /** The end of virtio_disk_rw: the chain of h goes back. */
  function Finished(m: Mem, t: Trio): Mem
    requires |m.free| == |m.desc| == |m.info| == NUM && Different(t)
  {
    m.(free := m.free[t.h := true][t.i1 := true][t.i2 := true],
       desc := m.desc[t.h := m.desc[t.h].(what := Nothing)][t.i1 := m.desc[t.i1].(what := Nothing)]
                     [t.i2 := m.desc[t.i2].(what := Nothing)],
       info := m.info[t.h := None])
  }

  function LogFinished(g: Log, t: Trio): Log
    requires |g.owner| == NUM && Different(t) && t.h in g.reqs
  {
    g.(reqs := g.reqs - {t.h}, of := g.of - {g.reqs[t.h].b}, owner := g.owner[t.h := None][t.i1 := None][t.i2 := None])
  }

  predicate CanFinish(g: Log, t: Trio) {
    t.h in g.reqs && g.reqs[t.h].i1 == t.i1 && g.reqs[t.h].i2 == t.i2 && g.reqs[t.h].phase.Done?
  }

  lemma FinishKeeps(m: Mem, g: Log, t: Trio)
    requires Inv(m, g) && CanFinish(g, t)
    ensures Different(t) && Inv(Finished(m, t), LogFinished(g, t)) == true
  {
    assert ChainOk(m, g, t.h);
    FinishTables(m, g, t);
    FinishRings(m, g, t);
  }

  lemma FinishChain(m: Mem, g: Log, t: Trio, k: nat)
    requires Sized(m, g) && CanFinish(g, t) && ChainOk(m, g, t.h) && k in g.reqs && k != t.h && ChainOk(m, g, k)
    ensures Different(t) && ChainOk(Finished(m, t), LogFinished(g, t), k)
  {}

  lemma FinishTables(m: Mem, g: Log, t: Trio)
    requires Tables(m, g) && CanFinish(g, t) && ChainOk(m, g, t.h) && Different(t)
    ensures Tables(Finished(m, t), LogFinished(g, t)) == true
  {
    var m', g' := Finished(m, t), LogFinished(g, t);
    forall k | k in g'.reqs ensures ChainOk(m', g', k) {
      assert ChainOk(m, g, k);
      FinishChain(m, g, t, k);
    }
    forall d | 0 <= d < NUM ensures DescOk(m', g', d) { assert DescOk(m, g, d); }
    forall b: nat ensures BufOk(m', g', b) { assert BufOk(m, g, b); }
  }

  lemma FinishRings(m: Mem, g: Log, t: Trio)
    requires Rings(m, g) && Sized(m, g) && CanFinish(g, t) && Different(t)
    ensures Rings(Finished(m, t), LogFinished(g, t)) == true
  {
    var m', g' := Finished(m, t), LogFinished(g, t);
    forall k | k in g'.reqs ensures PhaseOk(g', k) { assert PhaseOk(g, k); }
    forall x | g'.fetched <= x < |g'.put| ensures PutOk(m', g', x) { assert PutOk(m, g, x); }
    forall x | g'.seen <= x < |g'.done| ensures DoneOk(m', g', x) { assert DoneOk(m, g, x); }
  }

  /* Descriptors. */

  /** No three of these are free. */
  ghost predicate FewFree(free: seq<bool>) {
    forall t: Trio {:trigger Different(t)} :: |free| == NUM && Different(t) ==> !(free[t.h] && free[t.i1] && free[t.i2])
  }

  lemma SubmitFresh(m: Mem, g: Log, t: Trio)
    requires Inv(m, g) && Different(t) && m.free[t.h]
    ensures t.h !in g.reqs
  {
    FreeIsLoose(m, g, t.h, t.h);
  }

  lemma SizedHere(m: Mem, g: Log)
    requires Inv(m, g)
    ensures Sized(m, g)
  {}

  lemma BusyUntilSeen(m: Mem, g: Log, h: nat)
    requires Inv(m, g) && h in g.reqs
    ensures g.reqs[h].b in m.busy <==> !g.reqs[h].phase.Done?
  {
    assert ChainOk(m, g, h) && BufOk(m, g, g.reqs[h].b);
  }

  lemma ChainHere(m: Mem, g: Log, h: nat)
    requires Inv(m, g) && h in g.reqs
    ensures ChainAt(m.free, m.desc, Trio(h, g.reqs[h].i1, g.reqs[h].i2))
  {
    assert ChainOk(m, g, h);
    assert DescOk(m, g, h) && DescOk(m, g, g.reqs[h].i1) && DescOk(m, g, g.reqs[h].i2);
  }

  /** What a free descriptor holds does not matter. */
  lemma FreeDescsIdle(m: Mem, g: Log, desc: seq<Desc>)
    requires Inv(m, g) && |desc| == NUM && forall d :: 0 <= d < NUM && !m.free[d] ==> desc[d] == m.desc[d]
    ensures Inv(m.(desc := desc), g) == true
  {
    var n := m.(desc := desc);
    forall h | h in g.reqs ensures ChainOk(n, g, h) {
      assert ChainOk(m, g, h);
      assert DescOk(m, g, h) && DescOk(m, g, g.reqs[h].i1) && DescOk(m, g, g.reqs[h].i2);
    }
    forall d | 0 <= d < NUM ensures DescOk(n, g, d) { assert DescOk(m, g, d); }
    forall b: nat ensures BufOk(n, g, b) { assert BufOk(m, g, b); }
    forall x | g.fetched <= x < |g.put| ensures PutOk(n, g, x) { assert PutOk(m, g, x); }
    forall x | g.seen <= x < |g.done| ensures DoneOk(n, g, x) { assert DoneOk(m, g, x); }
  }

  /** A chain of three in memory, none of them free. */
  predicate ChainAt(free: seq<bool>, desc: seq<Desc>, t: Trio) {
    && |free| == |desc| == NUM && Different(t) && !free[t.h] && !free[t.i1] && !free[t.i2]
    && desc[t.h].more && desc[t.h].next == t.i1 && desc[t.i1].more && desc[t.i1].next == t.i2 && !desc[t.i2].more
  }

  /** Some free descriptors, all different, have been taken in this order. */
  predicate Took(was: seq<bool>, idx: seq<nat>, now: seq<bool>) {
    && |was| == |now| == NUM && (forall k :: 0 <= k < |idx| ==> idx[k] < NUM && was[idx[k]])
    && (forall k, l :: 0 <= k < l < |idx| ==> idx[k] != idx[l])
    && (forall d :: 0 <= d < NUM ==> (now[d] <==> was[d] && d !in idx))
  }

  lemma TookNext(was: seq<bool>, idx: seq<nat>, now: seq<bool>, d: nat)
    requires Took(was, idx, now) && d < NUM && now[d]
    ensures Took(was, idx + [d], now[d := false])
  {}

  lemma NotThreeIn(idx: seq<nat>, a: nat, b: nat, c: nat)
    requires |idx| <= 2 && a != b && b != c && a != c
    ensures !(a in idx && b in idx && c in idx)
  {
    assert forall d :: d in idx ==> (|idx| > 0 && d == idx[0]) || (|idx| > 1 && d == idx[1]);
  }

  lemma TookAll(was: seq<bool>, idx: seq<nat>, now: seq<bool>)
    requires Took(was, idx, now) && |idx| <= 2 && forall d :: 0 <= d < NUM ==> !now[d]
    ensures FewFree(was)
  {
    forall t: Trio | Different(t) ensures !(was[t.h] && was[t.i1] && was[t.i2]) {
      NotThreeIn(idx, t.h, t.i1, t.i2);
    }
  }

  lemma TookThree(was: seq<bool>, idx: seq<nat>, now: seq<bool>, t: Trio)
    requires Took(was, idx, now) && |idx| == 3 && t == Trio(idx[0], idx[1], idx[2])
    ensures Different(t) && was[t.h] && was[t.i1] && was[t.i2] && now == was[t.h := false][t.i1 := false][t.i2 := false]
  {
    assert forall d :: d in idx <==> d == idx[0] || d == idx[1] || d == idx[2];
  }

  /** Between acts a descriptor is free exactly when it is in no chain, and it is in no two. */
  lemma Partitioned(m: Mem, g: Log, d: nat)
    requires Inv(m, g) && d < NUM
    ensures m.free[d] <==> forall h :: h in g.reqs ==> d !in Chain(g, h)
    ensures forall h, k :: h in g.reqs && k in g.reqs && d in Chain(g, h) && d in Chain(g, k) ==> h == k
  {
    assert DescOk(m, g, d);
    forall h | h in g.reqs ensures d in Chain(g, h) <==> g.owner[d] == Some(h) { assert ChainOk(m, g, h); }
  }

  lemma ThreeOutside(a: nat, b: nat, c: nat, n: nat) returns (x: nat, y: nat, z: nat)
    requires n >= 6
    ensures x < n && y < n && z < n && x != y && x != z && y != z && {a, b, c} !! {x, y, z}
  {
    var s := Below(n) - {a, b, c};
    assert |{a, b, c}| <= 3 by { assert {a, b, c} == {a, b} + {c}; }
    assert |Below(n) * {a, b, c}| <= 3 by { SubsetSize(Below(n) * {a, b, c}, {a, b, c}); }
    assert |s| == n - |Below(n) * {a, b, c}|;
    x :| x in s;
    assert |s - {x}| == |s| - 1;
    y :| y in s - {x};
    assert |s - {x} - {y}| == |s| - 2;
    z :| z in s - {x} - {y};
  }

  /** A request waits for descriptors only while two others are live. */
  lemma WaitsForTwo(m: Mem, g: Log) returns (h: nat, k: nat)
    requires Inv(m, g) && FewFree(m.free)
    ensures h in g.reqs && k in g.reqs && h != k
  {
    h := LiveOutside(m, g, 0, 0, 0);
    assert ChainOk(m, g, h);
    k := LiveOutside(m, g, h, g.reqs[h].i1, g.reqs[h].i2);
  }

  /** When no three descriptors are free, some chain has one other than a, b and c. */
  lemma LiveOutside(m: Mem, g: Log, a: nat, b: nat, c: nat) returns (h: nat)
    requires Inv(m, g) && FewFree(m.free)
    ensures h in g.reqs && exists d :: d in Chain(g, h) && d !in {a, b, c}
  {
    var x, y, z := ThreeOutside(a, b, c, NUM);
    assert Different(Trio(x, y, z));
    var d := if !m.free[x] then x else if !m.free[y] then y else z;
    assert DescOk(m, g, d);
    h := g.owner[d].value;
    assert d in Chain(g, h);
  }

  /**
   What the device reads in a chain: the request, the buffer, whether it may fill the buffer, and the chain in whose
   status byte it is to answer.
   */
  datatype Order = Order(head: nat, write: bool, sector: nat, b: nat, fill: bool, status: nat)

  class Queue {
    var free: seq<bool>
    var desc: seq<Desc>
    var info: seq<Option<nat>>
    var busy: set<nat>
    var avail: seq<nat>
    var availIdx: nat
    var devIdx: nat
    var used: seq<nat>
    var usedId: nat
    var usedIdx: nat
    ghost var g: Log

    ghost function Now(): Mem
      reads this
    {
      Mem(free, desc, info, busy, avail, availIdx, devIdx, used, usedId, usedIdx)
    }

    ghost predicate Valid()
      reads this
    {
      Inv(Now(), g)
    }

    /** virtio_disk_init: memory cleared, every descriptor free. */
    constructor ()
      ensures Valid() && Now() == StartMem() && g == StartLog()
    {
      free := seq(NUM, _ => true);
      desc := seq(NUM, _ => Desc(Nothing, 0, false, false));
      info := seq(NUM, _ => None);
      busy, avail, availIdx, devIdx := {}, seq(NUM, _ => 0), 0, 0;
      used, usedId, usedIdx := seq(NUM, _ => 0), 0, 0;
      g := Log(map[], map[], seq(NUM, _ => None), [], 0, [], 0);
    }

    /** alloc_desc: the first free descriptor. */
    method AllocDesc() returns (r: Option<nat>)
      requires |free| == NUM
      modifies `free
      ensures r.None? ==> free == old(free) && forall d :: 0 <= d < NUM ==> !free[d]
      ensures r.Some? ==> r.value < NUM && old(free)[r.value] && free == old(free)[r.value := false]
      ensures r.Some? ==> forall d :: 0 <= d < r.value ==> !old(free)[d]
    {
      var i := 0;
      while i < NUM
        invariant 0 <= i <= NUM && free == old(free) && forall d :: 0 <= d < i ==> !free[d]
      {
        if free[i] {
          free := free[i := false];
          return Some(i);
        }
        i := i + 1;
      }
      return None;
    }

    /** free_desc; false is one of its panics. */
    method FreeDesc(i: nat) returns (ok: bool)
      requires |free| == |desc| == NUM
      modifies `free, `desc
      ensures ok <==> i < NUM && !old(free)[i]
      ensures !ok ==> free == old(free) && desc == old(desc)
      ensures ok ==> free == old(free)[i := true] && desc == old(desc)[i := old(desc)[i].(what := Nothing)]
    {
      if i >= NUM { return false; }
      if free[i] { return false; }
      desc := desc[i := desc[i].(what := Nothing)];
      free := free[i := true];
      return true;
    }

    /** free_chain of a chain of three; it never panics. */
    method FreeChain(h: nat, ghost t: Trio) returns (ok: bool)
      requires h == t.h && ChainAt(free, desc, t)
      modifies `free, `desc
      ensures ok && free == old(free)[t.h := true][t.i1 := true][t.i2 := true]
      ensures desc == old(desc)[t.h := old(desc)[t.h].(what := Nothing)][t.i1 := old(desc)[t.i1].(what := Nothing)]
                               [t.i2 := old(desc)[t.i2].(what := Nothing)]
    {
      ghost var was, links := free, desc;
      ghost var n := 0;
      var i := h;
      while true
        invariant 0 <= n <= 2 && i == (if n == 0 then t.h else if n == 1 then t.i1 else t.i2)
        invariant free == if n == 0 then was else if n == 1 then was[t.h := true] else was[t.h := true][t.i1 := true]
        invariant desc == if n == 0 then links else if n == 1 then links[t.h := links[t.h].(what := Nothing)]
                          else links[t.h := links[t.h].(what := Nothing)][t.i1 := links[t.i1].(what := Nothing)]
        decreases 2 - n
      {
        ok := FreeDesc(i);
        if !ok { return; }
        if desc[i].more {
          i := desc[i].next;
        } else {
          return;
        }
        n := n + 1;
      }
    }
  
    /** alloc3_desc's way back: the descriptors it has taken are freed again. */
    method Release(idx: seq<nat>, ghost was: seq<bool>)
      requires |free| == |desc| == NUM && Took(was, idx, free)
      modifies `free, `desc
      ensures free == was && |desc| == NUM && forall d :: 0 <= d < NUM && !free[d] ==> desc[d] == old(desc)[d]
    {
      var j := 0;
      while j < |idx|
        invariant 0 <= j <= |idx| && Took(was, idx[j..], free) && |desc| == NUM
        invariant forall d :: 0 <= d < NUM && !was[d] ==> desc[d] == old(desc)[d]
      {
        assert idx[j..][0] == idx[j] && idx[j..][1..] == idx[j + 1..];
        var ok := FreeDesc(idx[j]);
        j := j + 1;
      }
      assert free == was;
    }

    /** alloc3_desc: all three or none. */
    method Alloc3Desc() returns (r: Option<Trio>)
      requires |free| == |desc| == NUM
      modifies `free, `desc
      ensures |free| == |desc| == NUM
      ensures r.Some? ==> Different(r.value) && old(free)[r.value.h] && old(free)[r.value.i1] && old(free)[r.value.i2]
      ensures r.Some? ==>
        free == old(free)[r.value.h := false][r.value.i1 := false][r.value.i2 := false] && desc == old(desc)
      ensures r.None? ==> free == old(free) && FewFree(free) == true
      ensures r.None? ==> forall d :: 0 <= d < NUM && !free[d] ==> desc[d] == old(desc)[d]
    {
      ghost var was := free;
      var idx := [];
      while |idx| < 3
        invariant |idx| <= 3 && Took(was, idx, free) && desc == old(desc)
        decreases 3 - |idx|
      {
        ghost var had := free;
        var d := AllocDesc();
        if d.None? {
          TookAll(was, idx, free);
          Release(idx, was);
          return None;
        }
        TookNext(was, idx, had, d.value);
        idx := idx + [d.value];
      }
      r := Some(Trio(idx[0], idx[1], idx[2]));
      TookThree(was, idx, free, r.value);
    }
  
    /** The chain t is formatted for a request, and put in the available ring. */
    method Format(t: Trio, b: nat, write: bool, sector: nat, ghost m: Mem)
      requires |m.free| == |m.desc| == |m.info| == |m.avail| == NUM && Different(t)
      requires Now() == m.(free := m.free[t.h := false][t.i1 := false][t.i2 := false])
      modifies `desc, `busy, `info, `avail, `availIdx
      ensures Now() == Submitted(m, t, b, write, sector)
    {
      desc := desc[t.h := Desc(Header(write, sector), t.i1, true, false)]
                  [t.i1 := Desc(DataOf(b), t.i2, true, !write)][t.i2 := Desc(StatusOf(t.h), 0, false, true)];
      busy, info := busy + {b}, info[t.h := Some(b)];
      avail := avail[availIdx % NUM := t.h];
      availIdx := (availIdx + 1) % WORD16;
    }

    /** virtio_disk_rw up to its wait, for a buffer that no request is on; None when it sleeps for descriptors. */
    method Submit(b: nat, write: bool, blockno: nat) returns (r: Option<nat>)
      requires Valid() == true && b !in g.of
      modifies this
      ensures Valid() == true
      ensures r.None? ==> g == old(g) && FewFree(free) == true && busy == old(busy)
      ensures r.Some? ==> busy == old(busy) + {b} && r.value !in old(g).reqs && r.value in g.reqs
      ensures r.Some? ==> g.reqs == old(g).reqs[r.value := g.reqs[r.value]] && g.put == old(g).put + [r.value]
      ensures r.Some? ==>
        g.reqs[r.value].b == b && g.reqs[r.value].write == write && g.reqs[r.value].sector == blockno * 2
      ensures g.done == old(g).done && g.seen == old(g).seen && g.fetched == old(g).fetched
      ensures |old(avail)| == 8
      ensures r.Some? ==> avail == old(avail)[old(availIdx) % 8 := r.value] && availIdx == (old(availIdx) + 1) % 65536
    {
      ghost var m := Now();
      SizedHere(m, g);
      var t := Alloc3Desc();
      if t.None? {
        FreeDescsIdle(m, g, desc);
        return None;
      }
      SubmitFresh(m, g, t.value);
      SubmitKeeps(m, g, t.value, b, write, blockno * 2);
      Format(t.value, b, write, blockno * 2, m);
      g := LogSubmitted(g, t.value, b, write, blockno * 2);
      return Some(t.value.h);
    }

    /** The device takes the next chain, if there is one, and reads what the driver asked for. */
    method Fetch() returns (r: Option<Order>)
      requires Valid() == true
      modifies `devIdx, `g
      ensures Valid() == true
      ensures r.None? <==> old(g).fetched == |old(g).put|
      ensures r.None? ==> g == old(g)
      ensures r.Some? ==> old(g).put[old(g).fetched] in old(g).reqs && g == LogFetched(old(g))
      ensures r.Some? ==>
                var h := old(g).put[old(g).fetched];
                var q := old(g).reqs[h];
                q.phase == Queued(old(g).fetched) && r.value == Order(h, q.write, q.sector, q.b, !q.write, h)
    {
      DeviceTest(Now(), g);
      if devIdx == availIdx { return None; }
      FetchKeeps(Now(), g);
      var h := avail[devIdx % NUM];
      var data := desc[desc[h].next];
      var last := desc[data.next];
      r := Some(Order(h, desc[h].what.write, desc[h].what.sector, data.what.b, data.fill, last.what.head));
      devIdx := (devIdx + 1) % WORD16;
      g := LogFetched(g);
    }

    /** The device is done with a chain that it holds, in whatever order it likes. */
    method Complete(h: nat)
      requires Valid() == true && h in g.reqs && g.reqs[h].phase.Held?
      modifies `used, `usedId, `g
      ensures Valid() == true && g == LogCompleted(old(g), h) && |old(used)| == 8
      ensures used == old(used)[old(usedId) % 8 := h] && usedId == (old(usedId) + 1) % 65536
    {
      CompleteKeeps(Now(), g, h);
      used := used[usedId % NUM := h];
      usedId := (usedId + 1) % WORD16;
      g := LogCompleted(g, h);
    }

    /**
     One round of the interrupt handler's loop; None ends the loop. It sees every completion once, in order, and clears
     the disk flag of the buffer whose request it was and of no other.
     */
    method Interrupt() returns (r: Option<nat>)
      requires Valid() == true
      modifies `busy, `usedIdx, `g
      ensures Valid() == true
      ensures r.None? <==> old(g).seen == |old(g).done|
      ensures r.None? ==> g == old(g) && busy == old(busy)
      ensures r.Some? ==> old(g).done[old(g).seen] in old(g).reqs && g == LogInterrupted(old(g))
      ensures r.Some? ==>
        r.value == old(g).reqs[old(g).done[old(g).seen]].b && r.value in old(busy) && busy == old(busy) - {r.value}
    {
      IndexTest(Now(), g);
      if usedIdx % NUM == usedId % NUM { return None; }
      InterruptKeeps(Now(), g);
      BusyUntilSeen(Now(), g, g.done[g.seen]);
      var id := used[usedIdx];
      r := info[id];
      busy := busy - {r.value};
      usedIdx := (usedIdx + 1) % NUM;
      g := LogInterrupted(g);
    }

    /** The end of virtio_disk_rw's wait: false when it sleeps on because the disk flag is still set. */
    method Finish(h: nat, b: nat) returns (ok: bool)
      requires Valid() == true && h in g.reqs && g.reqs[h].b == b
      modifies this
      ensures Valid() == true
      ensures ok <==> old(g).reqs[h].phase.Done?
      ensures !ok ==> g == old(g) && busy == old(busy)
      ensures ok ==> g.reqs == old(g).reqs - {h} && g.of == old(g).of - {b} && busy == old(busy)
      ensures g.done == old(g).done && g.seen == old(g).seen && g.put == old(g).put && g.fetched == old(g).fetched
    {
      BusyUntilSeen(Now(), g, h);
      if b in busy { return false; }
      ghost var m, t := Now(), Trio(h, g.reqs[h].i1, g.reqs[h].i2);
      FinishKeeps(m, g, t);
      ChainHere(m, g, h);
      info := info[h := None];
      ok := FreeChain(h, t);
      g := LogFinished(g, t);
    }
  }

  /* Every interleaving. */

  /** An act of the driver, the device or the interrupt handler. */
  datatype Act = Start(t: Trio, b: nat, write: bool, sector: nat) | Take | Give(h: nat) | Handle | Close(t: Trio)

  /** The act is possible, and leads from one state to the other. */
  ghost predicate Step(m: Mem, g: Log, a: Act, m': Mem, g': Log) {
    Sized(m, g) &&
    match a
    case Start(t, b, write, sector) =>
      CanSubmit(m, g, t, b) && m' == Submitted(m, t, b, write, sector) && g' == LogSubmitted(g, t, b, write, sector)
    case Take => g.fetched < |g.put| && g.put[g.fetched] in g.reqs && m' == Fetched(m) && g' == LogFetched(g)
    case Give(h) => h in g.reqs && g.reqs[h].phase.Held? && m' == Completed(m, h) && g' == LogCompleted(g, h)
    case Handle =>
      && m.usedIdx % NUM != m.usedId % NUM && g.seen < |g.done| && g.done[g.seen] in g.reqs && m.usedIdx < NUM
      && m.used[m.usedIdx] < NUM && m.info[m.used[m.usedIdx]].Some? && m' == Interrupted(m) && g' == LogInterrupted(g)
    case Close(t) => CanFinish(g, t) && Different(t) && m' == Finished(m, t) && g' == LogFinished(g, t)
  }

  lemma StepKeeps(m: Mem, g: Log, a: Act, m': Mem, g': Log)
    requires Inv(m, g) && Step(m, g, a, m', g')
    ensures Inv(m', g') == true
  {
    match a
    case Start(t, b, write, sector) => SubmitKeeps(m, g, t, b, write, sector);
    case Take => FetchKeeps(m, g);
    case Give(h) => CompleteKeeps(m, g, h);
    case Handle => InterruptKeeps(m, g);
    case Close(t) => FinishKeeps(m, g, t);
  }

  /** A disk flag is cleared only by the interrupt for the request on that very buffer. */
  lemma ClearedByOwn(m: Mem, g: Log, a: Act, m': Mem, g': Log, b: nat)
    requires Inv(m, g) && Step(m, g, a, m', g') && b in m.busy && b !in m'.busy
    ensures a.Handle? && g.seen < |g.done| && b in g.of && g.done[g.seen] == g.of[b]
  {
    if a.Handle? { InterruptKeeps(m, g); }
  }

  /** The interrupt handler finds something to do exactly when there is a completion it has not seen. */
  lemma HandlesAll(m: Mem, g: Log)
    requires Inv(m, g)
    ensures (exists m', g' :: Step(m, g, Handle, m', g')) <==> g.seen < |g.done|
  {
    if g.seen < |g.done| {
      InterruptKeeps(m, g);
      IndexTest(m, g);
      assert Step(m, g, Handle, Interrupted(m), LogInterrupted(g));
    }
  }

  function StartMem(): Mem {
    Mem(seq(NUM, _ => true), seq(NUM, _ => Desc(Nothing, 0, false, false)), seq(NUM, _ => None), {},
        seq(NUM, _ => 0), 0, 0, seq(NUM, _ => 0), 0, 0)
  }

  function StartLog(): Log { Log(map[], map[], seq(NUM, _ => None), [], 0, [], 0) }

  ghost predicate Run(ms: seq<Mem>, gs: seq<Log>, acts: seq<Act>) {
    && |ms| == |gs| == |acts| + 1 && ms[0] == StartMem() && gs[0] == StartLog()
    && forall i :: 0 <= i < |acts| ==> Step(ms[i], gs[i], acts[i], ms[i + 1], gs[i + 1])
  }

  /**
   In every state of every interleaving the descriptors are free ones and chains of three, the rings agree with their
   histories, at most two requests are live, and a disk flag is set exactly while its request is not over.
   */
  lemma {:induction false} EveryInterleaving(ms: seq<Mem>, gs: seq<Log>, acts: seq<Act>, i: nat)
    requires Run(ms, gs, acts) && i <= |acts|
    ensures Inv(ms[i], gs[i]) == true
    ensures forall h, k, l :: h in gs[i].reqs && k in gs[i].reqs && l in gs[i].reqs ==> h == k || k == l || h == l
    ensures forall h :: h in gs[i].reqs ==> (gs[i].reqs[h].b in ms[i].busy <==> !gs[i].reqs[h].phase.Done?)
  {
    if i > 0 {
      EveryInterleaving(ms, gs, acts, i - 1);
      StepKeeps(ms[i - 1], gs[i - 1], acts[i - 1], ms[i], gs[i]);
    } else {
      StartOk();
    }
    forall h, k, l | h in gs[i].reqs && k in gs[i].reqs && l in gs[i].reqs ensures h == k || k == l || h == l {
      AtMostTwo(ms[i], gs[i], h, k, l);
    }
    forall h | h in gs[i].reqs ensures gs[i].reqs[h].b in ms[i].busy <==> !gs[i].reqs[h].phase.Done? {
      BusyUntilSeen(ms[i], gs[i], h);
    }
  }

  lemma StartOk()
    ensures Inv(StartMem(), StartLog()) == true
  {}
}

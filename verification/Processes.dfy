/**
 All of memory at once: the free list, and the pages of every process, over runs of fork, exit, sbrk and copyout. Every
 page is accounted for, and the processes see exactly what UserMemory says.
 A predicate that a method only hands on is written `P == true`, so that it is handed on unopened.
 */
module Processes {
  import opened Basics
  import opened Bytes
  import opened PageTable
  import opened Vm
  import opened ProcMemory
  import opened Growproc
  import opened UserMemory
  import UserCopy

  /** A process: its trapframe and root table, its size in bytes, and its address space. */
  datatype Proc = Proc(pages: Pages, sz: nat, s: Space)

  /** Every page of memory above the kernel is free or some process's. */
  datatype Owner = FreePage | Of(i: nat)

  datatype World = World(ps: map<nat, Proc>, owner: map<nat, Owner>)

  predicate Mine(q: Proc, p: nat) { p in q.s.own || p == q.pages.trapframe }

  ghost predicate ProcOk(lo: nat, k: Kst, trampoline: nat, q: Proc) {
    && Good(lo, k, q.s) && ROOT in q.s.tab && q.s.tab[ROOT] == q.pages.root && q.s.top == TRAPFRAME
    && q.sz < WORD_LIMIT && Up(q.sz) <= TRAPFRAME && Layout(k, q.s, trampoline, q.pages.trapframe, Up(q.sz))
    && lo <= q.pages.trapframe < |k.pages| && !Pool(k, q.s, q.pages.trapframe)
  }

  /** Process i owns its pages, and only they are its. */
  ghost predicate OwnsOk(w: World, i: nat)
    requires i in w.ps
  {
    forall p :: Mine(w.ps[i], p) ==> p in w.owner && w.owner[p] == Of(i)
  }

  ghost predicate OwnerOk(k: Kst, w: World, p: nat)
    requires p in w.owner
  {
    match w.owner[p]
    case FreePage => p in k.free
    case Of(i) => p !in k.free && i in w.ps && Mine(w.ps[i], p)
  }

  /** The free pages and the pages of the processes make up memory, and no page is in two of these. */
  ghost predicate Partition(lo: nat, k: Kst, w: World) {
    && (forall p :: p in w.owner <==> lo <= p < |k.pages|)
    && (forall i :: i in w.ps ==> OwnsOk(w, i)) && (forall p :: p in w.owner ==> OwnerOk(k, w, p))
  }

  ghost predicate WorldOk(lo: nat, k: Kst, trampoline: nat, w: World) {
    FreeOk(lo, k) && Partition(lo, k, w) && forall i :: i in w.ps ==> ProcOk(lo, k, trampoline, w.ps[i])
  }

  /* A step in which one process trades pages with the free list. */

  predicate MineIf(q: Option<Proc>, p: nat) { q.Some? && Mine(q.value, p) }

  /** From k to l the pages of q become those of r, and none are lost or shared; no other page changes. */
  ghost predicate Trades(k: Kst, q: Option<Proc>, l: Kst, r: Option<Proc>) {
    && |l.pages| == |k.pages|
    && (forall p :: p in l.free || MineIf(r, p) <==> p in k.free || MineIf(q, p))
    && (forall p :: MineIf(r, p) ==> p !in l.free)
    && (forall p :: 0 <= p < |k.pages| && p !in k.free && !MineIf(q, p) ==> l.pages[p] == k.pages[p])
  }

  function At(w: World, i: nat): Option<Proc> { if i in w.ps then Some(w.ps[i]) else None }

  function Becomes(ps: map<nat, Proc>, i: nat, r: Option<Proc>): map<nat, Proc> {
    if r.Some? then ps[i := r.value] else ps - {i}
  }

  ghost function Moved(w: World, l: Kst, i: nat, r: Option<Proc>): World {
    World(Becomes(w.ps, i, r),
          map p | p in w.owner :: if p in l.free then FreePage else if MineIf(r, p) then Of(i) else w.owner[p])
  }

  /** The pages of another process are not traded. */
  lemma OtherPages(lo: nat, k: Kst, w: World, i: nat, l: Kst, r: Option<Proc>, j: nat, p: nat)
    requires Partition(lo, k, w) == true && Trades(k, At(w, i), l, r) == true && j in w.ps && j != i && Mine(w.ps[j], p)
    ensures lo <= p < |k.pages| == |l.pages| && l.pages[p] == k.pages[p] && p !in l.free && !MineIf(r, p)
  {
    assert OwnsOk(w, j) && OwnerOk(k, w, p);
    if i in w.ps { assert OwnsOk(w, i); }
    assert p in l.free || MineIf(r, p) <==> p in k.free || MineIf(At(w, i), p);
  }

  /** A process whose pages are as they were is as it was. */
  lemma ProcStays(lo: nat, k: Kst, l: Kst, trampoline: nat, q: Proc)
    requires ProcOk(lo, k, trampoline, q) == true && FreeOk(lo, l) == true && |l.pages| == |k.pages|
    requires forall p: nat :: Mine(q, p) && p < |k.pages| ==> l.pages[p] == k.pages[p] && p !in l.free
    ensures ProcOk(lo, l, trampoline, q) == true
  {
    forall p | p in q.s.own ensures p !in l.free && lo <= p {
      assert Mine(q, p);
      assert RoleOk(k.pages, q.s, p);
    }
    SameSpace(k.pages, l.pages, q.s);
    LayoutSame(k, q.s, l, q.s, trampoline, q.pages.trapframe, Up(q.sz));
    assert Mine(q, q.pages.trapframe);
  }

  lemma OtherProc(lo: nat, k: Kst, trampoline: nat, w: World, i: nat, l: Kst, r: Option<Proc>, j: nat)
    requires Partition(lo, k, w) == true && Trades(k, At(w, i), l, r) == true && FreeOk(lo, l) == true
    requires j in w.ps && j != i && ProcOk(lo, k, trampoline, w.ps[j]) == true
    ensures ProcOk(lo, l, trampoline, w.ps[j]) == true
  {
    forall p: nat | Mine(w.ps[j], p) ensures p < |k.pages| == |l.pages| && l.pages[p] == k.pages[p] && p !in l.free {
      OtherPages(lo, k, w, i, l, r, j, p);
    }
    SameSize(k, At(w, i), l, r);
    ProcStays(lo, k, l, trampoline, w.ps[j]);
  }

  lemma SameSize(k: Kst, q: Option<Proc>, l: Kst, r: Option<Proc>)
    requires Trades(k, q, l, r) == true
    ensures |l.pages| == |k.pages|
  {}

  lemma WorldProc(lo: nat, k: Kst, trampoline: nat, w: World, i: nat)
    requires WorldOk(lo, k, trampoline, w) == true && i in w.ps
    ensures ProcOk(lo, k, trampoline, w.ps[i]) == true
  {}

  lemma WorldParts(lo: nat, k: Kst, trampoline: nat, w: World)
    requires WorldOk(lo, k, trampoline, w) == true
    ensures FreeOk(lo, k) == true && Partition(lo, k, w) == true
  {}

  /** A trade of one process with the free list keeps the whole in order. */
  lemma TradeKeeps(lo: nat, k: Kst, trampoline: nat, w: World, i: nat, l: Kst, r: Option<Proc>)
    requires WorldOk(lo, k, trampoline, w) == true && Trades(k, At(w, i), l, r) == true && FreeOk(lo, l) == true
    requires r.Some? ==> ProcOk(lo, l, trampoline, r.value) == true
    ensures WorldOk(lo, l, trampoline, Moved(w, l, i, r)) == true
  {
    var x := Moved(w, l, i, r);
    WorldParts(lo, k, trampoline, w);
    FreeOwned(lo, k, w);
    TradePartition(lo, k, w, i, l, r);
    forall j | j in x.ps ensures ProcOk(lo, l, trampoline, x.ps[j]) == true {
      if j != i {
        WorldProc(lo, k, trampoline, w, j);
        OtherProc(lo, k, trampoline, w, i, l, r, j);
      }
    }
    WorldFrom(lo, l, trampoline, x);
  }

  lemma WorldFrom(lo: nat, k: Kst, trampoline: nat, w: World)
    requires FreeOk(lo, k) == true && Partition(lo, k, w) == true
    requires forall i :: i in w.ps ==> ProcOk(lo, k, trampoline, w.ps[i]) == true
    ensures WorldOk(lo, k, trampoline, w) == true
  {}

  lemma FreeOwned(lo: nat, k: Kst, w: World)
    requires FreeOk(lo, k) == true && Partition(lo, k, w) == true
    ensures forall p :: p in k.free ==> p in w.owner
  {}

  lemma TradePartition(lo: nat, k: Kst, w: World, i: nat, l: Kst, r: Option<Proc>)
    requires Partition(lo, k, w) == true && Trades(k, At(w, i), l, r) == true && FreeOk(lo, l) == true
    requires forall p :: p in k.free ==> p in w.owner
    ensures Partition(lo, l, Moved(w, l, i, r)) == true
  {
    var x := Moved(w, l, i, r);
    forall j | j in x.ps ensures OwnsOk(x, j) {
      if j != i {
        assert OwnsOk(w, j);
        forall p | Mine(w.ps[j], p) ensures p !in l.free && !MineIf(r, p) {
          OtherPages(lo, k, w, i, l, r, j, p);
        }
      } else {
        TradeOwns(lo, k, w, i, l, r);
      }
    }
    forall p | p in x.owner ensures OwnerOk(l, x, p) {
      TradeOwner(lo, k, w, i, l, r, p);
    }
  }

  lemma TradeOwns(lo: nat, k: Kst, w: World, i: nat, l: Kst, r: Option<Proc>)
    requires Partition(lo, k, w) == true && Trades(k, At(w, i), l, r) == true && r.Some?
    requires forall p :: p in k.free ==> p in w.owner
    ensures OwnsOk(Moved(w, l, i, r), i) == true
  {
    if i in w.ps { assert OwnsOk(w, i); }
    forall p | Mine(r.value, p) ensures p in w.owner && p !in l.free {
      assert MineIf(r, p);
      assert p in k.free || MineIf(At(w, i), p);
    }
  }

  lemma TradeOwner(lo: nat, k: Kst, w: World, i: nat, l: Kst, r: Option<Proc>, p: nat)
    requires Partition(lo, k, w) == true && Trades(k, At(w, i), l, r) == true && p in w.owner
    ensures OwnerOk(l, Moved(w, l, i, r), p) == true
  {
    assert OwnerOk(k, w, p);
    assert p in l.free || MineIf(r, p) <==> p in k.free || MineIf(At(w, i), p);
  }

  /* What the operations on one process trade. */

  lemma ForkTrade(lo: nat, k: Kst, l: Kst, q: Proc)
    requires Parts(k, l, q.s, {q.pages.trapframe}) == true && Good(lo, l, q.s) == true
    ensures Trades(k, None, l, Some(q)) == true
  {
    forall p ensures p in l.free || MineIf(Some(q), p) <==> p in k.free || MineIf(None, p) {
      assert p in k.free <==> Pool(l, q.s, p) || p in {q.pages.trapframe};
    }
    assert q.pages.trapframe in {q.pages.trapframe};
  }

  lemma NoTrade(k: Kst, l: Kst, top: nat)
    requires Parts(k, l, Empty(top), {}) == true
    ensures Trades(k, None, l, None) == true
  {
    forall p ensures p in l.free <==> p in k.free { assert p in k.free <==> Pool(l, Empty(top), p) || p in {}; }
  }

  lemma ExitTrade(k: Kst, l: Kst, q: Proc)
    requires Reclaimed(k, q.s, q.pages.trapframe, l) == true
    ensures Trades(k, Some(q), l, None) == true
  {
    forall p ensures p in l.free <==> p in k.free || MineIf(Some(q), p) {
      assert p in l.free <==> Pool(k, q.s, p) || p == q.pages.trapframe;
    }
  }

  lemma GoodApart(lo: nat, k: Kst, s: Space)
    requires Good(lo, k, s) == true
    ensures forall p :: p in s.own ==> p !in k.free
  {}

  /** The address space changes and the trapframe stays. */
  lemma SpaceTrade(lo: nat, k: Kst, l: Kst, q: Proc, t: Space, sz: nat)
    requires !Pool(k, q.s, q.pages.trapframe) && Moves(k, q.s, l, t) == true && Good(lo, l, t) == true
    ensures Trades(k, Some(q), l, Some(Proc(q.pages, sz, t))) == true && !Pool(l, t, q.pages.trapframe)
  {
    GoodApart(lo, l, t);
    SpaceTraded(k, l, q, t, sz);
  }

  lemma SpaceTraded(k: Kst, l: Kst, q: Proc, t: Space, sz: nat)
    requires !Pool(k, q.s, q.pages.trapframe) && Moves(k, q.s, l, t) == true && forall p :: p in t.own ==> p !in l.free
    ensures Trades(k, Some(q), l, Some(Proc(q.pages, sz, t))) == true && !Pool(l, t, q.pages.trapframe)
  {
    var r := Proc(q.pages, sz, t);
    forall p ensures p in l.free || MineIf(Some(r), p) <==> p in k.free || MineIf(Some(q), p) {
      assert Pool(l, t, p) <==> Pool(k, q.s, p);
    }
    assert Pool(l, t, q.pages.trapframe) <==> Pool(k, q.s, q.pages.trapframe);
    forall p | 0 <= p < |k.pages| && p !in k.free && !MineIf(Some(q), p) ensures l.pages[p] == k.pages[p] {
      assert !Pool(k, q.s, p);
    }
  }

  lemma TradeTwice(k: Kst, q: Option<Proc>, l: Kst, r: Option<Proc>, m: Kst, x: Option<Proc>)
    requires Trades(k, q, l, r) == true && Trades(l, r, m, x) == true
    ensures Trades(k, q, m, x) == true
  {
    forall p ensures p in m.free || MineIf(x, p) <==> p in k.free || MineIf(q, p) {
      assert p in l.free || MineIf(r, p) <==> p in k.free || MineIf(q, p);
    }
    forall p | 0 <= p < |k.pages| && p !in k.free && !MineIf(q, p) ensures m.pages[p] == k.pages[p] {
      assert p in l.free || MineIf(r, p) <==> p in k.free || MineIf(q, p);
    }
  }

  /** The layout after growing from a pages to b. */
  lemma GrownLayout(k: Kst, s: Space, l: Kst, t: Space, trampoline: nat, trapframe: nat, a: nat, b: nat)
    requires Layout(k, s, trampoline, trapframe, a) == true && a <= b <= TRAPFRAME
    requires Filling(k, s, l, t, a, Zeroes(b - a)) == true
    ensures Layout(l, t, trampoline, trapframe, b) == true
  {
    forall w: nat ensures w < b ==> Valid(Lookup(l.pages, t.tab, w)) { assert FillOk(k, s, l, t, a, Zeroes(b - a), w); }
    forall w: nat | w >= b ensures Lookup(l.pages, t.tab, w) == Above(trampoline, trapframe, w) {
      assert FillOk(k, s, l, t, a, Zeroes(b - a), w);
    }
  }

  lemma ShrunkLayout(k: Kst, s: Space, l: Kst, t: Space, trampoline: nat, trapframe: nat, a: nat, b: nat)
    requires Layout(k, s, trampoline, trapframe, a) == true && b <= a <= TRAPFRAME && Cleared(k, s, l, t, b, a) == true
    ensures Layout(l, t, trampoline, trapframe, b) == true
  {
    forall w: nat | w >= b ensures Lookup(l.pages, t.tab, w) == Above(trampoline, trapframe, w) {
      assert w < a ==> Above(trampoline, trapframe, w) == NOTHING;
    }
  }

  /** Below the trapframe nothing is mapped beyond the size of a process. */
  lemma LayoutFree(k: Kst, s: Space, trampoline: nat, trapframe: nat, a: nat, b: nat)
    requires Layout(k, s, trampoline, trapframe, a) == true && b <= TRAPFRAME
    ensures AllFree(k.pages, s.tab, a, b) == true
  {
    forall v | a <= v < b ensures !Valid(Lookup(k.pages, s.tab, v)) {
      assert Lookup(k.pages, s.tab, v) == Above(trampoline, trapframe, v);
    }
  }

  lemma LayoutMapped(k: Kst, s: Space, trampoline: nat, trapframe: nat, a: nat, b: nat)
    requires Layout(k, s, trampoline, trapframe, a) == true
    ensures AllMapped(k.pages, s.tab, b, a) == true
  {}

  lemma SizeFits(sz: nat)
    requires sz < WORD_LIMIT
    ensures Up(sz) <= TRAPFRAME
  {}

  lemma ProcParts(lo: nat, k: Kst, trampoline: nat, q: Proc)
    requires ProcOk(lo, k, trampoline, q) == true
    ensures Good(lo, k, q.s) == true && ROOT in q.s.tab && q.s.tab[ROOT] == q.pages.root && q.s.top == TRAPFRAME
    ensures q.sz < WORD_LIMIT && Up(q.sz) <= TRAPFRAME && lo <= q.pages.trapframe < |k.pages|
    ensures !Pool(k, q.s, q.pages.trapframe)
    ensures Layout(k, q.s, trampoline, q.pages.trapframe, Up(q.sz)) == true
  {}

  function AllFreePages(lo: nat, n: nat): (m: map<nat, Owner>)
    ensures forall p :: (p in m <==> lo <= p < n) && (p in m ==> m[p] == FreePage)
  {
    if n <= lo then map[] else AllFreePages(lo, n - 1)[n - 1 := FreePage]
  }

  /** What the kernel keeps of a process's memory. */
  datatype Task = Task(pages: Pages, sz: nat)

  predicate TasksOk(tasks: map<nat, Task>, ps: map<nat, Proc>) {
    tasks.Keys == ps.Keys && forall i :: i in tasks ==> tasks[i] == Task(ps[i].pages, ps[i].sz)
  }

  function TaskOf(r: Option<Proc>): Option<Task> { if r.Some? then Some(Task(r.value.pages, r.value.sz)) else None }

  function Recorded(tasks: map<nat, Task>, i: nat, t: Option<Task>): (r: map<nat, Task>)
    ensures i in r <==> t.Some?
    ensures t.None? && i !in tasks ==> r == tasks
  {
    if t.Some? then tasks[i := t.value] else tasks - {i}
  }

  lemma TasksNext(tasks: map<nat, Task>, ps: map<nat, Proc>, i: nat, r: Option<Proc>)
    requires TasksOk(tasks, ps) == true
    ensures TasksOk(Recorded(tasks, i, TaskOf(r)), Becomes(ps, i, r)) == true
  {}

  lemma ValidParts(lo: nat, k: Kst, trampoline: nat, w: World, tasks: map<nat, Task>, i: nat)
    requires WorldOk(lo, k, trampoline, w) == true && TasksOk(tasks, w.ps) == true
    ensures FreeOk(lo, k) == true && (i in tasks <==> i in w.ps) && (i !in tasks ==> At(w, i) == None)
    ensures i in tasks ==> tasks[i] == Task(w.ps[i].pages, w.ps[i].sz) && ProcOk(lo, k, trampoline, w.ps[i]) == true
  {}

  lemma SameTask(tasks: map<nat, Task>, i: nat)
    requires i in tasks
    ensures tasks[i := Task(tasks[i].pages, tasks[i].sz)] == tasks
  {}

  lemma AddRemove(tasks: map<nat, Task>, j: nat, t: Task)
    requires j !in tasks
    ensures tasks[j := t] - {j} == tasks
  {}

  /** Process q after a change to its address space. */
  lemma ProcChanged(lo: nat, k: Kst, l: Kst, trampoline: nat, q: Proc, t: Space, sz: nat)
    requires ProcOk(lo, k, trampoline, q) == true && Moves(k, q.s, l, t) == true
    requires SameRoot(q.s, t) && Good(lo, l, t) == true
    requires sz < WORD_LIMIT && Layout(l, t, trampoline, q.pages.trapframe, Up(sz)) == true
    ensures Trades(k, Some(q), l, Some(Proc(q.pages, sz, t))) == true && FreeOk(lo, l) == true
    ensures ProcOk(lo, l, trampoline, Proc(q.pages, sz, t)) == true
  {
    ProcParts(lo, k, trampoline, q);
    SpaceTrade(lo, k, l, q, t, sz);
    SameLength(k, q.s, l, t);
  }

  lemma SameLength(k: Kst, s: Space, l: Kst, t: Space)
    requires Moves(k, s, l, t) == true
    ensures |l.pages| == |k.pages| && t.top == s.top
  {}

  lemma FillingMoves(k: Kst, s: Space, l: Kst, t: Space, a: nat, want: seq<Want>)
    requires Filling(k, s, l, t, a, want) == true
    ensures Moves(k, s, l, t) == true && SameRoot(s, t)
  {}

  lemma SameMoves(k: Kst, s: Space, l: Kst, t: Space)
    requires Same(k, s, l, t) == true
    ensures Moves(k, s, l, t) == true && SameRoot(s, t) && SameMap(k, s, l, t) == true && t.top == s.top
  {}

  lemma GoodFree(lo: nat, k: Kst, s: Space)
    requires Good(lo, k, s) == true
    ensures FreeOk(lo, k) == true
  {}

  /** A new process, from pages that were free in state k. */
  lemma NewProc(lo: nat, k: Kst, l: Kst, trampoline: nat, q: Proc)
    requires FreeOk(lo, k) == true && Good(lo, l, q.s) == true && Parts(k, l, q.s, {q.pages.trapframe}) == true
    requires ROOT in q.s.tab && q.s.tab[ROOT] == q.pages.root && q.sz < WORD_LIMIT
    requires Layout(l, q.s, trampoline, q.pages.trapframe, Up(q.sz)) == true
    ensures Trades(k, None, l, Some(q)) == true && ProcOk(lo, l, trampoline, q) == true && FreeOk(lo, l) == true
  {
    ForkTrade(lo, k, l, q);
    HeldRange(k, lo, l, q.s, q.pages.trapframe);
  }

  /* What the processes see. */

  function ImageOf(k: Kst, q: Proc): Image { Image(q.sz, Copies(k, q.s, Up(q.sz))) }

  function Images(k: Kst, ps: map<nat, Proc>): map<nat, Image> { map i | i in ps :: ImageOf(k, ps[i]) }

  function ImageIf(k: Kst, r: Option<Proc>): Option<Image> { if r.Some? then Some(ImageOf(k, r.value)) else None }

  function Put(ms: map<nat, Image>, i: nat, m: Option<Image>): map<nat, Image> {
    if m.Some? then ms[i := m.value] else ms - {i}
  }

  /** Pages that are as they were show what they showed. */
  lemma SameImage(lo: nat, k: Kst, l: Kst, trampoline: nat, q: Proc)
    requires ProcOk(lo, k, trampoline, q) == true && |l.pages| == |k.pages|
    requires forall p: nat :: Mine(q, p) && p < |k.pages| ==> l.pages[p] == k.pages[p]
    ensures ImageOf(l, q) == ImageOf(k, q)
  {
    ProcParts(lo, k, trampoline, q);
    LayoutMapped(k, q.s, trampoline, q.pages.trapframe, Up(q.sz), 0);
    assert Untouched(k, l, q.s) by {
      forall p | p in q.s.own && p < |k.pages| ensures l.pages[p] == k.pages[p] { assert Mine(q, p); }
    }
    forall w: nat | w < Up(q.sz) ensures WantOf(l, q.s, w) == WantOf(k, q.s, w) { SameWant(lo, k, l, q.s, w); }
  }

  lemma OtherImage(lo: nat, k: Kst, trampoline: nat, w: World, i: nat, l: Kst, r: Option<Proc>, j: nat)
    requires Partition(lo, k, w) == true && Trades(k, At(w, i), l, r) == true
    requires j in w.ps && j != i && ProcOk(lo, k, trampoline, w.ps[j]) == true
    ensures ImageOf(l, w.ps[j]) == ImageOf(k, w.ps[j])
  {
    forall p: nat | Mine(w.ps[j], p) ensures p < |k.pages| == |l.pages| && l.pages[p] == k.pages[p] {
      OtherPages(lo, k, w, i, l, r, j, p);
    }
    SameSize(k, At(w, i), l, r);
    SameImage(lo, k, l, trampoline, w.ps[j]);
  }

  /** A trade changes what one process sees. */
  lemma TradeImages(lo: nat, k: Kst, trampoline: nat, w: World, i: nat, l: Kst, r: Option<Proc>)
    requires WorldOk(lo, k, trampoline, w) == true && Trades(k, At(w, i), l, r) == true
    ensures Images(l, Becomes(w.ps, i, r)) == Put(Images(k, w.ps), i, ImageIf(l, r))
  {
    WorldParts(lo, k, trampoline, w);
    forall j | j in w.ps && j != i ensures ImageOf(l, w.ps[j]) == ImageOf(k, w.ps[j]) {
      WorldProc(lo, k, trampoline, w, j);
      OtherImage(lo, k, trampoline, w, i, l, r, j);
    }
    PutImages(k, w.ps, i, l, r);
  }

  lemma PutImages(k: Kst, ps: map<nat, Proc>, i: nat, l: Kst, r: Option<Proc>)
    requires forall j :: j in ps && j != i ==> ImageOf(l, ps[j]) == ImageOf(k, ps[j])
    ensures Images(l, Becomes(ps, i, r)) == Put(Images(k, ps), i, ImageIf(l, r))
  {}

  lemma ImagesHas(k: Kst, ps: map<nat, Proc>, i: nat)
    ensures i in Images(k, ps) <==> i in ps
    ensures i in ps ==> Images(k, ps)[i] == ImageOf(k, ps[i])
  {}

  /** A copy shows what was copied. */
  lemma CopiedImage(k: Kst, o: Space, l: Kst, s: Space, trampoline: nat, trapframe: nat, b: nat)
    requires Copied(k, o, l, s, b) == true && Layout(k, o, trampoline, trapframe, b) == true
    ensures Copies(l, s, b) == Copies(k, o, b)
  {
    forall w: nat | w < b ensures WantOf(l, s, w) == WantOf(k, o, w) {
      assert Has(l, s.tab, w, WantOf(k, o, w)) && Valid(Lookup(k.pages, o.tab, w));
    }
  }

  /** Below the new pages nothing has changed. */
  lemma GrownImage(lo: nat, k: Kst, s: Space, l: Kst, t: Space, trampoline: nat, trapframe: nat, a: nat, b: nat)
    requires Good(lo, k, s) == true && Layout(k, s, trampoline, trapframe, a) == true && a <= b <= TRAPFRAME
    requires Filling(k, s, l, t, a, Zeroes(b - a)) == true
    ensures Copies(l, t, b) == Copies(k, s, a) + NewPages(b - a)
  {
    var r := Copies(k, s, a) + NewPages(b - a);
    forall w: nat | w < b ensures WantOf(l, t, w) == r[w] {
      assert FillOk(k, s, l, t, a, Zeroes(b - a), w);
      if w < a { KeptWant(lo, k, s, l, t, w); }
    }
  }

  /** A mapped page with the same entry, in memory that is untouched. */
  lemma KeptWant(lo: nat, k: Kst, s: Space, l: Kst, t: Space, w: nat)
    requires Good(lo, k, s) == true && SameMem(k, s, l) == true && |l.pages| == |k.pages| && w < s.top
    requires Valid(Lookup(k.pages, s.tab, w)) && Lookup(l.pages, t.tab, w) == Lookup(k.pages, s.tab, w)
    ensures WantOf(l, t, w) == WantOf(k, s, w)
  {
    LeafForm(lo, k, s, w);
  }

  lemma SameSpaceImage(lo: nat, k: Kst, s: Space, l: Kst, t: Space, trampoline: nat, trapframe: nat, a: nat)
    requires Good(lo, k, s) == true && Layout(k, s, trampoline, trapframe, a) == true && Same(k, s, l, t) == true
    ensures Copies(l, t, a) == Copies(k, s, a)
  {
    forall w: nat | w < a ensures WantOf(l, t, w) == WantOf(k, s, w) { KeptWant(lo, k, s, l, t, w); }
  }

  lemma ShrunkImage(lo: nat, k: Kst, s: Space, l: Kst, t: Space, trampoline: nat, trapframe: nat, a: nat, b: nat)
    requires Good(lo, k, s) == true && Good(lo, l, t) == true && b <= a
    requires Layout(k, s, trampoline, trapframe, a) == true && Cleared(k, s, l, t, b, a) == true
    ensures Copies(l, t, b) == Copies(k, s, a)[..b]
  {
    forall w: nat | w < b ensures WantOf(l, t, w) == WantOf(k, s, w) { ClearedWant(lo, k, s, l, t, b, a, w); }
  }

  lemma ClearedWant(lo: nat, k: Kst, s: Space, l: Kst, t: Space, b: nat, a: nat, w: nat)
    requires Good(lo, k, s) == true && Good(lo, l, t) == true && Cleared(k, s, l, t, b, a) == true
    requires w < b && w < s.top && Valid(Lookup(k.pages, s.tab, w))
    ensures WantOf(l, t, w) == WantOf(k, s, w)
  {
    LeafForm(lo, k, s, w);
    LeafForm(lo, l, t, w);
  }

  /** What the user may touch is the process's memory. */
  lemma TouchableHere(k: Kst, q: Proc, trampoline: nat, x: nat)
    requires Layout(k, q.s, trampoline, q.pages.trapframe, Up(q.sz)) == true
    ensures UserCopy.Accessible(k, q.s, x / PGSIZE) <==> Touchable(ImageOf(k, q), x)
  {
    var v := x / PGSIZE;
    if v >= Up(q.sz) { assert Lookup(k.pages, q.s.tab, v) == Above(trampoline, q.pages.trapframe, v); }
  }

  lemma NothingForUserAbove(k: Kst, s: Space, trampoline: nat, trapframe: nat, b: nat)
    requires Layout(k, s, trampoline, trapframe, b) == true
    ensures UserCopy.UserBelow(k, s) == true
  {
    forall v: nat | v >= s.top ensures !UserCopy.Accessible(k, s, v) {
      assert Lookup(k.pages, s.tab, v) == Above(trampoline, trapframe, v);
    }
  }

  /** How far copyout gets. */
  lemma ReachIs(k: Kst, q: Proc, trampoline: nat, va: nat, n: nat, done: nat)
    requires Layout(k, q.s, trampoline, q.pages.trapframe, Up(q.sz)) == true && done <= n
    requires UserCopy.AllAccessible(k, q.s, va, va + done) == true
    requires done < n ==> !UserCopy.Accessible(k, q.s, (va + done) / PGSIZE)
    ensures Reach(ImageOf(k, q), va, n) == done
  {
    var m := ImageOf(k, q);
    forall x: nat ensures UserCopy.Accessible(k, q.s, x / PGSIZE) <==> Touchable(m, x) {
      TouchableHere(k, q, trampoline, x);
    }
    forall x | va <= x < va + done ensures Touchable(m, x) { assert UserCopy.Accessible(k, q.s, x / PGSIZE); }
    ReachUnique(m, va, n, done);
  }

  lemma ReachUnique(m: Image, va: nat, n: nat, done: nat)
    requires done <= n && (forall x :: va <= x < va + done ==> Touchable(m, x))
    requires done < n ==> !Touchable(m, va + done)
    ensures Reach(m, va, n) == done
  {}

  lemma InPage(w: nat, o: nat)
    requires o < PGSIZE
    ensures (w * PGSIZE + o) / PGSIZE == w && (w * PGSIZE + o) % PGSIZE == o
  {}

  lemma WrittenPage(k: Kst, l: Kst, q: Proc, trampoline: nat, va: nat, src: seq<Byte>, w: nat)
    requires Layout(k, q.s, trampoline, q.pages.trapframe, Up(q.sz)) == true && w < Up(q.sz)
    requires UserCopy.Writes(k, q.s, l, va, src) == true
    ensures PageOf(l.pages, q.s.tab, w) == Patched(PageOf(k.pages, q.s.tab, w), w, va, src)
  {
    var d, e := PageOf(l.pages, q.s.tab, w), Patched(PageOf(k.pages, q.s.tab, w), w, va, src);
    forall o | 0 <= o < PGSIZE ensures d.bytes[o] == e.bytes[o] {
      InPage(w, o);
      assert UserCopy.IsMemory(k, q.s, (w * PGSIZE + o) / PGSIZE);
    }
    assert d.bytes == e.bytes;
  }

  lemma WrittenImage(k: Kst, l: Kst, q: Proc, trampoline: nat, va: nat, src: seq<Byte>)
    requires Layout(k, q.s, trampoline, q.pages.trapframe, Up(q.sz)) == true
    requires UserCopy.Writes(k, q.s, l, va, src) == true
    ensures ImageOf(l, q) == Written(ImageOf(k, q), va, src)
  {
    forall w: nat | w < Up(q.sz)
      ensures WantOf(l, q.s, w) == Written(ImageOf(k, q), va, src).pages[w]
    {
      WrittenPage(k, l, q, trampoline, va, src, w);
    }
  }

  lemma StoreTrade(lo: nat, k: Kst, l: Kst, trampoline: nat, q: Proc, va: nat, src: seq<Byte>, done: nat)
    requires ProcOk(lo, k, trampoline, q) == true && UserCopy.CopiedOut(lo, k, q.s, l, va, src, done) == true
    ensures Trades(k, Some(q), l, Some(q)) == true && ProcOk(lo, l, trampoline, q) == true && FreeOk(lo, l) == true
  {
    ProcParts(lo, k, trampoline, q);
    LayoutSame(k, q.s, l, q.s, trampoline, q.pages.trapframe, Up(q.sz));
  }

  lemma SameTrade(lo: nat, k: Kst, trampoline: nat, w: World, i: nat)
    requires WorldOk(lo, k, trampoline, w) == true
    ensures Trades(k, At(w, i), k, At(w, i)) == true
  {
    if i in w.ps {
      WorldProc(lo, k, trampoline, w, i);
      ProcParts(lo, k, trampoline, w.ps[i]);
      GoodApart(lo, k, w.ps[i].s);
    }
  }

  /* Steps and runs. */

  /** An operation succeeds only where it applies, and fails there only for want of pages. */
  predicate Allowed(k: Kst, ms: map<nat, Image>, op: Op, ok: bool) {
    if ok then Applies(ms, op) else Applies(ms, op) ==> |k.free| < Needs(ms, op)
  }

  /**
   One operation: the pages it takes and gives are those of one process, every page stays accounted for, the processes
   see what UserMemory says, and it fails only for want of pages.
   */
  ghost predicate Stepped(lo: nat, trampoline: nat, k: Kst, w: World, op: Op, ok: bool, l: Kst, x: World) {
    && WorldOk(lo, l, trampoline, x) && Trades(k, At(w, op.Who()), l, At(x, op.Who()))
    && Images(l, x.ps) == Effect(Images(k, w.ps), op, ok) && Allowed(k, Images(k, w.ps), op, ok)
  }

  lemma SteppedTrade(lo: nat, trampoline: nat, k: Kst, w: World, op: Op, ok: bool, l: Kst, x: World)
    requires Stepped(lo, trampoline, k, w, op, ok, l, x) == true
    ensures Trades(k, At(w, op.Who()), l, At(x, op.Who())) == true
    ensures Images(l, x.ps) == Effect(Images(k, w.ps), op, ok)
  {}

  lemma ForkExitEffect(ms: map<nat, Image>, i: nat, j: nat)
    requires i in ms && j !in ms
    ensures Effect(Effect(ms, Op.Fork(i, j), true), Op.Exit(j), true) == ms
  {}

  lemma ForkThenExit(lo: nat, trampoline: nat, k: Kst, v: World, i: nat, j: nat, l: Kst, x: World, m: Kst, y: World)
    requires Stepped(lo, trampoline, k, v, Op.Fork(i, j), true, l, x) == true && i in v.ps && j !in v.ps
    requires Stepped(lo, trampoline, l, x, Op.Exit(j), true, m, y) == true && At(y, j) == None
    ensures Trades(k, None, m, None) == true && Images(m, y.ps) == Images(k, v.ps)
  {
    SteppedTrade(lo, trampoline, k, v, Op.Fork(i, j), true, l, x);
    SteppedTrade(lo, trampoline, l, x, Op.Exit(j), true, m, y);
    TradeTwice(k, None, l, At(x, j), m, None);
    ImagesHas(k, v.ps, i);
    ImagesHas(k, v.ps, j);
    ForkExitEffect(Images(k, v.ps), i, j);
  }

  lemma TasksHave(tasks: map<nat, Task>, ps: map<nat, Proc>, i: nat, j: nat)
    requires TasksOk(tasks, ps) == true
    ensures (i in tasks <==> i in ps) && (j in tasks <==> j in ps)
  {}

  /** When its process is r afterwards, in state l, the operation has done what it should. */
  ghost predicate Told(k: Kst, ps: map<nat, Proc>, op: Op, ok: bool, l: Kst, r: Option<Proc>) {
    && Allowed(k, Images(k, ps), op, ok)
    && Put(Images(k, ps), op.Who(), ImageIf(l, r)) == Effect(Images(k, ps), op, ok)
  }

  lemma SpawnTold(k: Kst, ps: map<nat, Proc>, j: nat, l: Kst, r: Option<Proc>)
    requires j !in ps && if r.Some? then r.value.sz == 0 else |k.free| < 6
    ensures Told(k, ps, Op.Spawn(j), r.Some?, l, r) == true
  {
    ImagesHas(k, ps, j);
    assert r.Some? ==> ImageOf(l, r.value) == Image(0, []);
  }

  lemma ForkTold(k: Kst, ps: map<nat, Proc>, i: nat, j: nat, l: Kst, r: Option<Proc>)
    requires i in ps && j !in ps && (r.None? ==> |k.free| < 6 + 3 * Up(ps[i].sz))
    requires r.Some? ==> ImageOf(l, r.value) == ImageOf(k, ps[i])
    ensures Told(k, ps, Op.Fork(i, j), r.Some?, l, r) == true
  {
    ImagesHas(k, ps, i);
    ImagesHas(k, ps, j);
  }

  lemma ExitTold(k: Kst, ps: map<nat, Proc>, i: nat, l: Kst)
    requires i in ps
    ensures Told(k, ps, Op.Exit(i), true, l, None) == true
  {
    ImagesHas(k, ps, i);
  }

  lemma ResizeTold(k: Kst, ps: map<nat, Proc>, i: nat, n: int, l: Kst, r: Proc)
    requires i in ps && r.sz == NewSize(ps[i].sz, n)
    requires var a, b := Up(ps[i].sz), Up(r.sz);
      Copies(l, r.s, b) == if b <= a then Copies(k, ps[i].s, a)[..b] else Copies(k, ps[i].s, a) + NewPages(b - a)
    ensures Told(k, ps, Op.Sbrk(i, n), true, l, Some(r)) == true
  {
    ImagesHas(k, ps, i);
  }

  lemma NoRoomTold(k: Kst, ps: map<nat, Proc>, i: nat, n: int, l: Kst, r: Proc)
    requires i in ps && ImageOf(l, r) == ImageOf(k, ps[i]) && Up(NewSize(ps[i].sz, n)) >= Up(ps[i].sz)
    requires |k.free| < 3 * (Up(NewSize(ps[i].sz, n)) - Up(ps[i].sz))
    ensures Told(k, ps, Op.Sbrk(i, n), false, l, Some(r)) == true
  {
    ImagesHas(k, ps, i);
  }

  lemma StoreTold(k: Kst, ps: map<nat, Proc>, i: nat, l: Kst, va: nat, src: seq<Byte>, done: nat)
    requires i in ps && Reach(ImageOf(k, ps[i]), va, |src|) == done
    requires ImageOf(l, ps[i]) == Written(ImageOf(k, ps[i]), va, src[..done])
    ensures Told(k, ps, Op.Store(i, va, src), true, l, Some(ps[i])) == true
  {
    ImagesHas(k, ps, i);
  }

  /** A size that stays is a step that does nothing. */
  lemma SameSizeTold(k: Kst, ps: map<nat, Proc>, i: nat, n: int)
    requires i in ps && NewSize(ps[i].sz, n) == ps[i].sz
    ensures Told(k, ps, Op.Sbrk(i, n), true, k, Some(ps[i])) == true
  {
    var c := Copies(k, ps[i].s, Up(ps[i].sz));
    assert c[..|c|] == c;
    ResizeTold(k, ps, i, n, k, ps[i]);
  }

  /** An operation that the table does not allow. */
  lemma RefusedTold(k: Kst, ps: map<nat, Proc>, op: Op)
    requires !Applies(Images(k, ps), op)
    ensures Told(k, ps, op, false, k, if op.Who() in ps then Some(ps[op.Who()]) else None) == true
  {
    ImagesHas(k, ps, op.Who());
  }

  /** Applies, in terms of the table. */
  lemma AppliesTo(k: Kst, ps: map<nat, Proc>, tasks: map<nat, Task>, op: Op)
    requires TasksOk(tasks, ps)
    ensures Applies(Images(k, ps), op) <==>
      match op
      case Spawn(j) => j !in tasks
      case Fork(i, j) => i in tasks && j !in tasks
      case Exit(i) => i in tasks
      case Sbrk(i, _) => i in tasks
      case Store(i, _, _) => i in tasks
  {}

  /** What Record needs to know of a process that has become r. */
  ghost predicate Settled(lo: nat, k: Kst, trampoline: nat, ps: map<nat, Proc>, i: nat, op: Op, ok: bool, l: Kst,
                          r: Proc)
  {
    && i in ps && Trades(k, Some(ps[i]), l, Some(r)) && FreeOk(lo, l) && ProcOk(lo, l, trampoline, r)
    && Told(k, ps, op, ok, l, Some(r))
  }

  lemma SettledParts(lo: nat, k: Kst, trampoline: nat, ps: map<nat, Proc>, i: nat, op: Op, ok: bool, l: Kst, r: Proc)
    requires Settled(lo, k, trampoline, ps, i, op, ok, l, r) == true
    ensures i in ps && Trades(k, Some(ps[i]), l, Some(r)) == true && FreeOk(lo, l) == true
    ensures ProcOk(lo, l, trampoline, r) == true && Told(k, ps, op, ok, l, Some(r)) == true
  {}

  lemma GrowSettled(lo: nat, k: Kst, trampoline: nat, ps: map<nat, Proc>, i: nat, n: int, l: Kst, q: Proc, s: Space,
                    newsz: nat, a: nat, b: nat)
    requires i in ps && q == ps[i] && ProcOk(lo, k, trampoline, q) == true && newsz == NewSize(q.sz, n) < WORD_LIMIT
    requires a == Up(q.sz) <= b == Up(newsz) <= TRAPFRAME && Good(lo, l, s) == true
    requires Filling(k, q.s, l, s, a, Zeroes(b - a)) == true
    ensures Settled(lo, k, trampoline, ps, i, Op.Sbrk(i, n), true, l, Proc(q.pages, newsz, s)) == true
  {
    ProcParts(lo, k, trampoline, q);
    GrownLayout(k, q.s, l, s, trampoline, q.pages.trapframe, a, b);
    FillingMoves(k, q.s, l, s, a, Zeroes(b - a));
    ProcChanged(lo, k, l, trampoline, q, s, newsz);
    GrownImage(lo, k, q.s, l, s, trampoline, q.pages.trapframe, a, b);
    GrownCopies(k, q.s, l, s, a, b);
    ResizeTold(k, ps, i, n, l, Proc(q.pages, newsz, s));
  }

  /** No new page is no change either way of putting it. */
  lemma GrownCopies(k: Kst, s: Space, l: Kst, t: Space, a: nat, b: nat)
    requires a <= b && Copies(l, t, b) == Copies(k, s, a) + NewPages(b - a)
    ensures b <= a ==> Copies(l, t, b) == Copies(k, s, a)[..b]
  {}

  lemma NoRoomSettled(lo: nat, k: Kst, trampoline: nat, ps: map<nat, Proc>, i: nat, n: int, l: Kst, q: Proc, s: Space,
                      a: nat, b: nat)
    requires i in ps && q == ps[i] && ProcOk(lo, k, trampoline, q) == true && Good(lo, l, s) == true
    requires Same(k, q.s, l, s) == true && a == Up(q.sz) <= b == Up(NewSize(q.sz, n)) && |k.free| < 3 * (b - a)
    ensures Settled(lo, k, trampoline, ps, i, Op.Sbrk(i, n), false, l, Proc(q.pages, q.sz, s)) == true
  {
    ProcParts(lo, k, trampoline, q);
    SameMoves(k, q.s, l, s);
    LayoutSame(k, q.s, l, s, trampoline, q.pages.trapframe, a);
    ProcChanged(lo, k, l, trampoline, q, s, q.sz);
    SameSpaceImage(lo, k, q.s, l, s, trampoline, q.pages.trapframe, a);
    NoRoomTold(k, ps, i, n, l, Proc(q.pages, q.sz, s));
  }

  lemma ShrinkSettled(lo: nat, k: Kst, trampoline: nat, ps: map<nat, Proc>, i: nat, n: int, l: Kst, q: Proc, s: Space,
                      newsz: nat, a: nat, b: nat)
    requires i in ps && q == ps[i] && ProcOk(lo, k, trampoline, q) == true && newsz == NewSize(q.sz, n) < WORD_LIMIT
    requires b == Up(newsz) <= a == Up(q.sz) && Good(lo, l, s) == true && Cleared(k, q.s, l, s, b, a) == true
    ensures Settled(lo, k, trampoline, ps, i, Op.Sbrk(i, n), true, l, Proc(q.pages, newsz, s)) == true
  {
    ProcParts(lo, k, trampoline, q);
    ShrunkLayout(k, q.s, l, s, trampoline, q.pages.trapframe, a, b);
    ClearedThen(k, q.s, l, s, b, a);
    ProcChanged(lo, k, l, trampoline, q, s, newsz);
    ShrunkImage(lo, k, q.s, l, s, trampoline, q.pages.trapframe, a, b);
    ResizeTold(k, ps, i, n, l, Proc(q.pages, newsz, s));
  }

  lemma StoreSettled(lo: nat, k: Kst, trampoline: nat, ps: map<nat, Proc>, i: nat, l: Kst, q: Proc, va: nat,
                     src: seq<Byte>, done: nat)
    requires i in ps && q == ps[i] && ProcOk(lo, k, trampoline, q) == true
    requires UserCopy.CopiedOut(lo, k, q.s, l, va, src, done) == true && done <= |src|
    requires done < |src| ==> !UserCopy.Accessible(k, q.s, (va + done) / PGSIZE)
    ensures Reach(ImageOf(k, q), va, |src|) == done
    ensures Settled(lo, k, trampoline, ps, i, Op.Store(i, va, src), true, l, q) == true
  {
    ProcParts(lo, k, trampoline, q);
    CopiedOutParts(lo, k, q.s, l, va, src, done);
    StoreTrade(lo, k, l, trampoline, q, va, src, done);
    ReachIs(k, q, trampoline, va, |src|, done);
    WrittenImage(k, l, q, trampoline, va, src[..done]);
    StoreTold(k, ps, i, l, va, src, done);
  }

  /** The trade and what the operation has done make a step. */
  lemma SteppedFrom(lo: nat, trampoline: nat, k: Kst, w: World, op: Op, ok: bool, l: Kst, r: Option<Proc>, i: nat)
    requires WorldOk(lo, k, trampoline, w) == true && i == op.Who() && Trades(k, At(w, i), l, r) == true
    requires FreeOk(lo, l) == true && (r.Some? ==> ProcOk(lo, l, trampoline, r.value) == true)
    requires Told(k, w.ps, op, ok, l, r) == true
    ensures WorldOk(lo, l, trampoline, Moved(w, l, i, r)) == true && At(Moved(w, l, i, r), i) == r
    ensures Stepped(lo, trampoline, k, w, op, ok, l, Moved(w, l, i, r)) == true
  {
    TradeKeeps(lo, k, trampoline, w, i, l, r);
    TradeImages(lo, k, trampoline, w, i, l, r);
    SteppedParts(lo, trampoline, k, w, op, ok, l, Moved(w, l, i, r));
  }

  lemma SteppedParts(lo: nat, trampoline: nat, k: Kst, w: World, op: Op, ok: bool, l: Kst, x: World)
    requires WorldOk(lo, l, trampoline, x) == true && Trades(k, At(w, op.Who()), l, At(x, op.Who())) == true
    requires Images(l, x.ps) == Effect(Images(k, w.ps), op, ok) && Allowed(k, Images(k, w.ps), op, ok) == true
    ensures Stepped(lo, trampoline, k, w, op, ok, l, x) == true
  {}

  /** A step that leaves everything where it is. */
  lemma SteppedSame(lo: nat, trampoline: nat, k: Kst, w: World, op: Op, ok: bool)
    requires WorldOk(lo, k, trampoline, w) == true && Told(k, w.ps, op, ok, k, At(w, op.Who())) == true
    ensures Stepped(lo, trampoline, k, w, op, ok, k, w) == true
  {
    SameTrade(lo, k, trampoline, w, op.Who());
    SamePut(k, w, op.Who());
    SteppedParts(lo, trampoline, k, w, op, ok, k, w);
  }

  lemma SamePut(k: Kst, w: World, i: nat)
    ensures Put(Images(k, w.ps), i, ImageIf(k, At(w, i))) == Images(k, w.ps)
  {}

  lemma CopiedOutParts(lo: nat, k: Kst, s: Space, l: Kst, va: nat, src: seq<Byte>, done: nat)
    requires UserCopy.CopiedOut(lo, k, s, l, va, src, done) == true
    ensures done <= |src| && UserCopy.Writes(k, s, l, va, src[..done]) == true
    ensures UserCopy.AllAccessible(k, s, va, va + done) == true
  {}

  /** After kinit: every page is free and there are no processes. */
  ghost predicate Boot(lo: nat, size: nat, trampoline: nat, k: Kst, w: World) {
    && |k.pages| == size && WorldOk(lo, k, trampoline, w) && w.ps == map[]
    && forall p :: p in k.free <==> lo <= p < size
  }

  /** The states ks and ws that the operations ops lead through from boot. */
  ghost predicate History(lo: nat, size: nat, trampoline: nat, ops: seq<Op>, oks: seq<bool>, ks: seq<Kst>,
                          ws: seq<World>)
  {
    && |oks| == |ops| && |ks| == |ws| == |ops| + 1 && Boot(lo, size, trampoline, ks[0], ws[0])
    && forall n :: 0 <= n < |ops| ==> Stepped(lo, trampoline, ks[n], ws[n], ops[n], oks[n], ks[n + 1], ws[n + 1])
  }

  lemma HistoryNext(lo: nat, size: nat, trampoline: nat, ops: seq<Op>, oks: seq<bool>, ks: seq<Kst>, ws: seq<World>,
                    i: nat, ok: bool, l: Kst, x: World)
    requires i < |ops| && History(lo, size, trampoline, ops[..i], oks, ks, ws) == true
    requires |oks| == i && |ks| == |ws| == i + 1 && Stepped(lo, trampoline, ks[i], ws[i], ops[i], ok, l, x) == true
    ensures History(lo, size, trampoline, ops[..i + 1], oks + [ok], ks + [l], ws + [x]) == true
  {
    var o, p, q, v := ops[..i + 1], oks + [ok], ks + [l], ws + [x];
    forall n | 0 <= n < i + 1 ensures Stepped(lo, trampoline, q[n], v[n], o[n], p[n], q[n + 1], v[n + 1]) {
      if n < i { assert Stepped(lo, trampoline, ks[n], ws[n], ops[..i][n], oks[n], ks[n + 1], ws[n + 1]); }
    }
  }

  /** At every moment of a run pages are accounted for and the processes see the outcome so far. */
  lemma {:induction false} HistoryOutcome(lo: nat, size: nat, trampoline: nat, ops: seq<Op>, oks: seq<bool>,
                                          ks: seq<Kst>, ws: seq<World>, n: nat)
    requires History(lo, size, trampoline, ops, oks, ks, ws) && n <= |ops|
    ensures WorldOk(lo, ks[n], trampoline, ws[n]) == true && |ks[n].pages| == size
    ensures Images(ks[n], ws[n].ps) == Outcome(ops[..n], oks[..n])
  {
    if n > 0 {
      HistoryOutcome(lo, size, trampoline, ops, oks, ks, ws, n - 1);
      assert Stepped(lo, trampoline, ks[n - 1], ws[n - 1], ops[n - 1], oks[n - 1], ks[n], ws[n]);
      assert ops[..n][..n - 1] == ops[..n - 1] && oks[..n][..n - 1] == oks[..n - 1];
    }
  }

  /** Isolation at every moment of a run: while no operation is about process j, it sees every byte as before. */
  lemma RunIsolated(lo: nat, size: nat, trampoline: nat, ops: seq<Op>, oks: seq<bool>, ks: seq<Kst>, ws: seq<World>,
                    a: nat, b: nat, j: nat)
    requires History(lo, size, trampoline, ops, oks, ks, ws) == true && a <= b <= |ops|
    requires |oks| == |ops| && |ks| == |ws| == |ops| + 1 && forall n :: a <= n < b ==> ops[n].Who() != j
    ensures Keeps(Images(ks[a], ws[a].ps), Images(ks[b], ws[b].ps), j) == true
  {
    HistoryOutcome(lo, size, trampoline, ops, oks, ks, ws, a);
    HistoryOutcome(lo, size, trampoline, ops, oks, ks, ws, b);
    Isolated(ops, oks, a, b, j);
  }

  class Machine {
    const kr: Kernel
    const trampoline: nat
    var tasks: map<nat, Task>
    ghost var w: World

    ghost predicate Valid()
      reads this, kr
    {
      WorldOk(kr.lo, kr.Now(), trampoline, w) && TasksOk(tasks, w.ps)
    }

    constructor (lo: nat, pages: seq<Page>, trampoline: nat)
      ensures kr.lo == lo && this.trampoline == trampoline && tasks == map[] && fresh(kr)
      ensures Valid() == true && Boot(lo, |pages|, trampoline, kr.Now(), w) == true
    {
      var kernel := new Kernel.Kinit(lo, pages);
      kr, this.trampoline, tasks := kernel, trampoline, map[];
      w := World(map[], AllFreePages(lo, |pages|));
    }

    /** The step op ends: its process is r now, after a trade of pages with the free list of state k. */
    method Record(t: Option<Task>, ghost k: Kst, ghost op: Op, ghost ok: bool, ghost r: Option<Proc>, i: nat)
      requires WorldOk(kr.lo, k, trampoline, w) == true && TasksOk(tasks, w.ps) == true && t == TaskOf(r)
      requires i == op.Who() && Trades(k, At(w, i), kr.Now(), r) == true && FreeOk(kr.lo, kr.Now()) == true
      requires r.Some? ==> ProcOk(kr.lo, kr.Now(), trampoline, r.value) == true
      requires Told(k, w.ps, op, ok, kr.Now(), r) == true
      modifies this
      ensures Valid() == true && tasks == Recorded(old(tasks), i, t) && At(w, i) == r
      ensures Stepped(kr.lo, trampoline, k, old(w), op, ok, kr.Now(), w) == true
    {
      SteppedFrom(kr.lo, trampoline, k, w, op, ok, kr.Now(), r, i);
      TasksNext(tasks, w.ps, i, r);
      w := Moved(w, kr.Now(), i, r);
      tasks := Recorded(tasks, i, t);
    }

    /** The same for a process that there is and that stays. */
    method Replace(t: Task, ghost k: Kst, ghost op: Op, ghost ok: bool, ghost r: Proc, i: nat)
      requires WorldOk(kr.lo, k, trampoline, w) == true && TasksOk(tasks, w.ps) == true && t == Task(r.pages, r.sz)
      requires i == op.Who() && Settled(kr.lo, k, trampoline, w.ps, i, op, ok, kr.Now(), r) == true
      modifies this
      ensures Valid() == true && tasks == old(tasks)[i := t]
      ensures Stepped(kr.lo, trampoline, k, old(w), op, ok, kr.Now(), w) == true
    {
      SettledParts(kr.lo, k, trampoline, w.ps, i, op, ok, kr.Now(), r);
      Record(Some(t), k, op, ok, Some(r), i);
    }

    /** allocproc's pages for a process with no memory yet. */
    method Spawn(j: nat) returns (ok: bool)
      requires Valid() == true && j !in tasks
      modifies this, kr
      ensures Valid() == true
      ensures Stepped(kr.lo, trampoline, old(kr.Now()), old(w), Op.Spawn(j), ok, kr.Now(), w) == true
      ensures ok <==> j in tasks
      ensures tasks == if ok then old(tasks)[j := Task(tasks[j].pages, 0)] else old(tasks)
    {
      ghost var k := kr.Now();
      ValidParts(kr.lo, k, trampoline, w, tasks, j);
      var r;
      ghost var s;
      r, s := AllocMemory(kr, trampoline);
      if r.None? {
        NoTrade(k, kr.Now(), TRAPFRAME);
        SpawnTold(k, w.ps, j, kr.Now(), None);
        Record(None, k, Op.Spawn(j), false, None, j);
        return false;
      }
      ghost var q := Proc(r.value, 0, s);
      NewProc(kr.lo, k, kr.Now(), trampoline, q);
      SpawnTold(k, w.ps, j, kr.Now(), Some(q));
      Record(Some(Task(r.value, 0)), k, Op.Spawn(j), true, Some(q), j);
      return true;
    }

    /** fork's pages: process j gets a copy of the memory of process i, or nothing changes hands. */
    method Fork(i: nat, j: nat) returns (ok: bool)
      requires Valid() == true && i in tasks && j !in tasks
      modifies this, kr
      ensures Valid() == true
      ensures Stepped(kr.lo, trampoline, old(kr.Now()), old(w), Op.Fork(i, j), ok, kr.Now(), w) == true
      ensures ok <==> j in tasks
      ensures tasks == if ok then old(tasks)[j := Task(tasks[j].pages, old(tasks)[i].sz)] else old(tasks)
    {
      ghost var k, o := kr.Now(), w.ps[i];
      ValidParts(kr.lo, k, trampoline, w, tasks, i);
      ValidParts(kr.lo, k, trampoline, w, tasks, j);
      ProcParts(kr.lo, k, trampoline, o);
      var parent := tasks[i];
      var r;
      ghost var s;
      r, s := ForkMemory(kr, trampoline, parent.pages.root, parent.sz, o.pages.trapframe, Up(parent.sz), o.s);
      if r.None? {
        NoTrade(k, kr.Now(), TRAPFRAME);
        GoodFree(kr.lo, kr.Now(), o.s);
        ForkTold(k, w.ps, i, j, kr.Now(), None);
        Record(None, k, Op.Fork(i, j), false, None, j);
        return false;
      }
      ghost var q := Proc(r.value, parent.sz, s);
      NewProc(kr.lo, k, kr.Now(), trampoline, q);
      CopiedImage(k, o.s, kr.Now(), s, trampoline, o.pages.trapframe, Up(parent.sz));
      ForkTold(k, w.ps, i, j, kr.Now(), Some(q));
      Record(Some(Task(r.value, parent.sz)), k, Op.Fork(i, j), true, Some(q), j);
      return true;
    }

    /** freeproc's pages. */
    method Exit(i: nat)
      requires Valid() == true && i in tasks
      modifies this, kr
      ensures Valid() == true
      ensures Stepped(kr.lo, trampoline, old(kr.Now()), old(w), Op.Exit(i), true, kr.Now(), w) == true
      ensures tasks == old(tasks) - {i} && At(w, i) == None
    {
      ghost var k, q := kr.Now(), w.ps[i];
      ValidParts(kr.lo, k, trampoline, w, tasks, i);
      ProcParts(kr.lo, k, trampoline, q);
      var t := tasks[i];
      FreeMemory(kr, t.pages, t.sz, Up(t.sz), trampoline, q.s);
      ExitTrade(k, kr.Now(), q);
      ExitTold(k, w.ps, i, kr.Now());
      Record(None, k, Op.Exit(i), true, None, i);
    }

    /** A fork and the exit of the child: the free pages are those there were, and every process sees what it saw. */
    method ForkExit(i: nat, j: nat)
      requires Valid() == true && i in tasks && j !in tasks
      modifies this, kr
      ensures Valid() == true && tasks == old(tasks) && Trades(old(kr.Now()), None, kr.Now(), None) == true
      ensures Images(kr.Now(), w.ps) == Images(old(kr.Now()), old(w).ps)
    {
      ghost var k, v := kr.Now(), w;
      TasksHave(tasks, w.ps, i, j);
      var ok := Fork(i, j);
      ghost var l, x := kr.Now(), w;
      if ok {
        ghost var t := tasks[j];
        Exit(j);
        ForkThenExit(kr.lo, trampoline, k, v, i, j, l, x, kr.Now(), w);
        AddRemove(old(tasks), j, t);
      } else {
        TasksHave(tasks, w.ps, i, j);
        SteppedTrade(kr.lo, trampoline, k, v, Op.Fork(i, j), ok, l, w);
      }
    }

    /** uvmalloc for process i, of which the table has t. */
    method GrowSpace(t: Task, newsz: nat, ghost ps: map<nat, Proc>, ghost i: nat, ghost n: int)
      returns (ok: bool, ghost r: Proc)
      requires i in ps && t == Task(ps[i].pages, ps[i].sz) && ProcOk(kr.lo, kr.Now(), trampoline, ps[i]) == true
      requires t.sz < newsz < WORD_LIMIT && newsz == NewSize(t.sz, n)
      modifies kr
      ensures Settled(kr.lo, old(kr.Now()), trampoline, ps, i, Op.Sbrk(i, n), ok, kr.Now(), r) == true
      ensures r.pages == t.pages && r.sz == if ok then newsz else t.sz
    {
      ghost var k, q := kr.Now(), ps[i];
      ProcParts(kr.lo, k, trampoline, q);
      SizeFits(newsz);
      ghost var a, b := Up(t.sz), Up(newsz);
      UpMono(t.sz, newsz);
      LayoutFree(k, q.s, trampoline, q.pages.trapframe, a, b);
      var sz, panic;
      ghost var s;
      sz, ok, panic, s := kr.Uvmalloc(t.pages.root, t.sz, newsz, a, b, q.s);
      if ok {
        GrowSettled(kr.lo, k, trampoline, ps, i, n, kr.Now(), q, s, newsz, a, b);
        r := Proc(q.pages, newsz, s);
      } else {
        NoRoomSettled(kr.lo, k, trampoline, ps, i, n, kr.Now(), q, s, a, b);
        r := Proc(q.pages, q.sz, s);
      }
    }

    /** uvmdealloc for process i, of which the table has t. */
    method ShrinkSpace(t: Task, newsz: nat, ghost ps: map<nat, Proc>, ghost i: nat, ghost n: int)
      returns (ghost r: Proc)
      requires i in ps && t == Task(ps[i].pages, ps[i].sz) && ProcOk(kr.lo, kr.Now(), trampoline, ps[i]) == true
      requires newsz < t.sz && newsz == NewSize(t.sz, n)
      modifies kr
      ensures Settled(kr.lo, old(kr.Now()), trampoline, ps, i, Op.Sbrk(i, n), true, kr.Now(), r) == true
      ensures r.pages == t.pages && r.sz == newsz
    {
      ghost var k, q := kr.Now(), ps[i];
      ProcParts(kr.lo, k, trampoline, q);
      ghost var a, b := Up(t.sz), Up(newsz);
      UpMono(newsz, t.sz);
      LayoutMapped(k, q.s, trampoline, q.pages.trapframe, a, b);
      var sz, ok;
      ghost var s;
      sz, ok, s := kr.Uvmdealloc(t.pages.root, t.sz, newsz, q.s);
      ShrinkSettled(kr.lo, k, trampoline, ps, i, n, kr.Now(), q, s, newsz, a, b);
      r := Proc(q.pages, newsz, s);
    }

    /** copyout for process i, of which the table has t. */
    method StoreSpace(t: Task, va: nat, src: seq<Byte>, ghost ps: map<nat, Proc>, ghost i: nat) returns (ok: bool)
      requires i in ps && t == Task(ps[i].pages, ps[i].sz) && ProcOk(kr.lo, kr.Now(), trampoline, ps[i]) == true
      modifies kr
      ensures Settled(kr.lo, old(kr.Now()), trampoline, ps, i, Op.Store(i, va, src), true, kr.Now(), ps[i]) == true
      ensures ok <==> Reach(ImageOf(old(kr.Now()), ps[i]), va, |src|) == |src|
    {
      ghost var k, q := kr.Now(), ps[i];
      ProcParts(kr.lo, k, trampoline, q);
      NothingForUserAbove(k, q.s, trampoline, q.pages.trapframe, Up(q.sz));
      ghost var done;
      ok, done := UserCopy.Copyout(kr, t.pages.root, va, src, q.s);
      CopiedOutParts(kr.lo, k, q.s, kr.Now(), va, src, done);
      StoreSettled(kr.lo, k, trampoline, ps, i, kr.Now(), q, va, src, done);
    }

    /** growproc for a larger size: zeroed pages, or -1 and no change to what the process sees. */
    method Grow(i: nat, newsz: nat, ghost n: int) returns (ok: bool, now: nat)
      requires Valid() == true && i in tasks && tasks[i].sz < newsz < WORD_LIMIT && newsz == NewSize(tasks[i].sz, n)
      modifies this, kr
      ensures Valid() == true
      ensures Stepped(kr.lo, trampoline, old(kr.Now()), old(w), Op.Sbrk(i, n), ok, kr.Now(), w) == true
      ensures now == (if ok then newsz else old(tasks)[i].sz)
      ensures tasks == old(tasks)[i := Task(old(tasks)[i].pages, now)]
    {
      ghost var k, r := kr.Now(), w.ps[i];
      ValidParts(kr.lo, k, trampoline, w, tasks, i);
      var t := tasks[i];
      ok, r := GrowSpace(t, newsz, w.ps, i, n);
      now := if ok then newsz else t.sz;
      Replace(Task(t.pages, now), k, Op.Sbrk(i, n), ok, r, i);
    }

    /** growproc for a smaller size. */
    method Shrink(i: nat, newsz: nat, ghost n: int)
      requires Valid() == true && i in tasks && newsz < tasks[i].sz && newsz == NewSize(tasks[i].sz, n)
      modifies this, kr
      ensures Valid() == true
      ensures Stepped(kr.lo, trampoline, old(kr.Now()), old(w), Op.Sbrk(i, n), true, kr.Now(), w) == true
      ensures tasks == old(tasks)[i := Task(old(tasks)[i].pages, newsz)]
    {
      ghost var k := kr.Now();
      ValidParts(kr.lo, k, trampoline, w, tasks, i);
      var t := tasks[i];
      ghost var r := ShrinkSpace(t, newsz, w.ps, i, n);
      Replace(Task(t.pages, newsz), k, Op.Sbrk(i, n), true, r, i);
    }

    /** sbrk: growproc computes sz + n in 32 bits, and a sum on the wrong side of sz changes nothing. */
    method Sbrk(i: nat, n: int) returns (ok: bool, now: nat)
      requires Valid() == true && i in tasks
      modifies this, kr
      ensures Valid() == true
      ensures Stepped(kr.lo, trampoline, old(kr.Now()), old(w), Op.Sbrk(i, n), ok, kr.Now(), w) == true
      ensures now == (if ok then NewSize(old(tasks)[i].sz, n) else old(tasks)[i].sz)
      ensures tasks == old(tasks)[i := Task(old(tasks)[i].pages, now)]
    {
      ghost var k, q := kr.Now(), w.ps[i];
      ValidParts(kr.lo, k, trampoline, w, tasks, i);
      ProcParts(kr.lo, k, trampoline, q);
      var sz := tasks[i].sz;
      var want := NewSize(sz, n);
      ok, now := true, sz;
      if want > sz {
        ok, now := Grow(i, want, n);
      } else if want < sz {
        Shrink(i, want, n);
        now := want;
      } else {
        SameTask(tasks, i);
        SameSizeTold(k, w.ps, i, n);
        SteppedSame(kr.lo, trampoline, k, w, Op.Sbrk(i, n), true);
      }
    }

    /** copyout into the memory of process i, as far as the user may touch it. */
    method Store(i: nat, va: nat, src: seq<Byte>) returns (ok: bool)
      requires Valid() == true && i in tasks
      modifies this, kr
      ensures Valid() == true && tasks == old(tasks)
      ensures Stepped(kr.lo, trampoline, old(kr.Now()), old(w), Op.Store(i, va, src), true, kr.Now(), w) == true
      ensures i in old(w).ps && (ok <==> Reach(ImageOf(old(kr.Now()), old(w).ps[i]), va, |src|) == |src|)
    {
      ghost var k, q := kr.Now(), w.ps[i];
      ValidParts(kr.lo, k, trampoline, w, tasks, i);
      var t := tasks[i];
      ok := StoreSpace(t, va, src, w.ps, i);
      SameTask(tasks, i);
      Replace(t, k, Op.Store(i, va, src), true, q, i);
    }

    /** One operation, if the table allows it. */
    method Do(op: Op) returns (ok: bool)
      requires Valid() == true
      modifies this, kr
      ensures Valid() == true
      ensures Stepped(kr.lo, trampoline, old(kr.Now()), old(w), op, ok, kr.Now(), w) == true
    {
      AppliesTo(kr.Now(), w.ps, tasks, op);
      if !Applies(Images(kr.Now(), w.ps), op) {
        RefusedTold(kr.Now(), w.ps, op);
        SteppedSame(kr.lo, trampoline, kr.Now(), w, op, false);
      }
      ok := false;
      match op
      case Spawn(j) => if j !in tasks { ok := Spawn(j); }
      case Fork(i, j) => if i in tasks && j !in tasks { ok := Fork(i, j); }
      case Exit(i) =>
        if i in tasks {
          Exit(i);
          ok := true;
        }
      case Sbrk(i, n) =>
        if i in tasks {
          var now;
          ok, now := Sbrk(i, n);
        }
      case Store(i, va, src) =>
        if i in tasks {
          var all := Store(i, va, src);
          ok := true;
        }
    }
  }

  /**
   Any run of operations from boot. At every moment every page above the kernel is free or exactly one process's, the
   processes see exactly the outcome of the operations that succeeded, and none failed for another reason than want of
   pages.
   */
  method Run(lo: nat, pages: seq<Page>, trampoline: nat, ops: seq<Op>)
    returns (m: Machine, oks: seq<bool>, ghost ks: seq<Kst>, ghost ws: seq<World>)
    ensures m.kr.lo == lo && m.trampoline == trampoline && TasksOk(m.tasks, m.w.ps) == true
    ensures History(lo, |pages|, trampoline, ops, oks, ks, ws) == true
    ensures |oks| == |ops| && |ks| == |ws| == |ops| + 1 && ks[|ops|] == m.kr.Now() && ws[|ops|] == m.w
    ensures Images(m.kr.Now(), m.w.ps) == Outcome(ops, oks)
  {
    m := new Machine(lo, pages, trampoline);
    oks, ks, ws := [], [m.kr.Now()], [m.w];
    var i := 0;
    assert ops[..0] == [];
    while i < |ops|
      invariant i <= |ops| && m.Valid() == true && fresh(m) && fresh(m.kr)
      invariant m.kr.lo == lo && m.trampoline == trampoline
      invariant History(lo, |pages|, trampoline, ops[..i], oks, ks, ws) == true
      invariant |oks| == i && |ks| == |ws| == i + 1 && ks[i] == m.kr.Now() && ws[i] == m.w
    {
      var ok := m.Do(ops[i]);
      HistoryNext(lo, |pages|, trampoline, ops, oks, ks, ws, i, ok, m.kr.Now(), m.w);
      oks, ks, ws := oks + [ok], ks + [m.kr.Now()], ws + [m.w];
      i := i + 1;
    }
    assert ops[..i] == ops;
    HistoryOutcome(lo, |pages|, trampoline, ops, oks, ks, ws, |ops|);
    assert oks[..|ops|] == oks;
  }
}

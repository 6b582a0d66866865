/**
 The memory of a process: proc_pagetable, proc_freepagetable, and what allocproc, freeproc and fork do with pages,
 on their success and failure paths.
 A predicate that a method only hands on is written `P == true`, so that it is handed on unopened.
 */
module ProcMemory {
  import opened Basics
  import opened PageTable
  import opened Vm

  const RX := Perm(false, true, false, true, false, 0)
  const RW := Perm(false, true, true, false, false, 0)

  /**
   The pages that were free in state k0 are now the free pages, the pages of space s and the held pages, with no page
   counted twice; no other page has changed.
   */
  ghost predicate Parts(k0: Kst, k: Kst, s: Space, held: set<nat>) {
    && |k.pages| == |k0.pages|
    && (forall p :: p in k0.free <==> Pool(k, s, p) || p in held)
    && (forall p :: p in held ==> !Pool(k, s, p))
    && (forall p :: 0 <= p < |k0.pages| && p !in k0.free ==> k.pages[p] == k0.pages[p])
  }

  lemma PartsStart(k0: Kst, top: nat)
    ensures Parts(k0, k0, Empty(top), {}) == true
  {}

  lemma PartsMove(k0: Kst, k: Kst, s: Space, held: set<nat>, l: Kst, t: Space)
    requires Parts(k0, k, s, held) == true && Moves(k, s, l, t) == true
    ensures Parts(k0, l, t, held) == true
  {
    forall p ensures p in k0.free <==> Pool(l, t, p) || p in held { assert Pool(l, t, p) <==> Pool(k, s, p); }
    forall p | p in held ensures !Pool(l, t, p) { assert Pool(l, t, p) <==> Pool(k, s, p); }
    forall p | 0 <= p < |k0.pages| && p !in k0.free ensures l.pages[p] == k0.pages[p] { assert !Pool(k, s, p); }
  }

  /** kalloc */
  lemma PartsTake(lo: nat, k0: Kst, k: Kst, top: nat, held: set<nat>)
    requires Parts(k0, k, Empty(top), held) == true && FreeOk(lo, k) == true && k.free != []
    ensures k.free[0] < |k.pages| && k.pages[k.free[0]].Free?
    ensures FreeOk(lo, Popped(k)) == true && Parts(k0, Popped(k), Empty(top), held + {k.free[0]}) == true
  {
    PoppedOk(lo, k);
    FreeTail(k.free);
    forall p ensures p in k0.free <==> Pool(Popped(k), Empty(top), p) || p in held + {k.free[0]} {
      assert Pool(k, Empty(top), p) <==> p in k.free;
    }
    forall p | p in held + {k.free[0]} ensures !Pool(Popped(k), Empty(top), p) {
      assert p in held ==> !Pool(k, Empty(top), p);
    }
    assert Pool(k, Empty(top), k.free[0]);
  }

  /** kfree */
  lemma PartsGive(lo: nat, k0: Kst, k: Kst, s: Space, held: set<nat>, p: nat)
    requires Parts(k0, k, s, held) == true && p in held && FreeOk(lo, k) == true && lo <= p < |k.pages|
    ensures FreeOk(lo, Pushed(k, p)) == true && Parts(k0, Pushed(k, p), s, held - {p}) == true
  {
    assert !Pool(k, s, p);
    PushedOk(lo, k, p);
    forall q ensures Pool(Pushed(k, p), s, q) <==> Pool(k, s, q) || q == p {}
  }

  /** Another space is not concerned. */
  lemma PartsApart(lo: nat, k0: Kst, k: Kst, s: Space, held: set<nat>, o: Space)
    requires Parts(k0, k, s, held) == true && Good(lo, k0, o) == true && FreeOk(lo, k) == true
    ensures Good(lo, k, o) == true && Apart(k, s, o) == true && Untouched(k0, k, o) == true
  {
    forall p | p in o.own ensures !Pool(k, s, p) && p !in k.free {
      assert p in k0.free <==> Pool(k, s, p) || p in held;
    }
    SameSpace(k0.pages, k.pages, o);
  }

  /** A process: its memory is the first b virtual pages, above them only the trapframe and the trampoline. */
  ghost predicate Layout(k: Kst, s: Space, trampoline: nat, trapframe: nat, b: nat) {
    && s.top == TRAPFRAME && b <= TRAPFRAME
    && (forall w: nat :: w < b ==> Valid(Lookup(k.pages, s.tab, w)))
    && (forall w: nat :: w >= b ==> Lookup(k.pages, s.tab, w) == Above(trampoline, trapframe, w))
  }

  /** The entries above the memory of a process. */
  function Above(trampoline: nat, trapframe: nat, w: nat): Pte {
    if w == TRAMPOLINE then MakePte(trampoline, RX) else if w == TRAPFRAME then MakePte(trapframe, RW) else NOTHING
  }

  lemma MovesFrom(k: Kst, s: Space, l: Kst, t: Space, a: nat, b: nat, p: nat, perm: Perm, m: Kst, u: Space)
    requires Moves(k, s, l, t) == true && Ranged(l, t, m, u, a, b, p, perm) == true
    ensures Moves(k, s, m, u) == true && u.top == s.top && SameRoot(t, u)
  {
    MovesTwice(k, s, l, t, m, u);
  }

  lemma RangedNoLeaves(k: Kst, s: Space, l: Kst, t: Space, a: nat, p: nat, perm: Perm)
    requires NoLeaves(k, s) == true && Ranged(k, s, l, t, a, a, p, perm) == true
    ensures NoLeaves(l, t) == true
  {}

  /** The two mappings of proc_pagetable. */
  lemma LayoutFrom(k: Kst, s: Space, l: Kst, t: Space, m: Kst, u: Space, trampoline: nat, trapframe: nat)
    requires NoLeaves(k, s) == true && s.top == t.top == u.top == TRAPFRAME
    requires Ranged(k, s, l, t, TRAMPOLINE, TRAMPOLINE + 1, trampoline, RX) == true
    requires Ranged(l, t, m, u, TRAPFRAME, TRAPFRAME + 1, trapframe, RW) == true
    ensures Layout(m, u, trampoline, trapframe, 0) == true
  {}

  /** Unmapping what proc_pagetable mapped first. */
  lemma UndoneNoLeaves(k: Kst, s: Space, l: Kst, t: Space, m: Kst, u: Space, v: Kst, w: Space, trampoline: nat,
                       trapframe: nat)
    requires NoLeaves(k, s) == true && Ranged(k, s, l, t, TRAMPOLINE, TRAMPOLINE + 1, trampoline, RX) == true
    requires Ranged(l, t, m, u, TRAPFRAME, TRAPFRAME, trapframe, RW) == true
    requires Cleared(m, u, v, w, TRAMPOLINE, TRAMPOLINE + 1) == true
    ensures NoLeaves(v, w) == true
  {}

  lemma TrampolineMapped(k: Kst, s: Space, l: Kst, t: Space, m: Kst, u: Space, trampoline: nat, trapframe: nat)
    requires Ranged(k, s, l, t, TRAMPOLINE, TRAMPOLINE + 1, trampoline, RX) == true
    requires Ranged(l, t, m, u, TRAPFRAME, TRAPFRAME, trapframe, RW) == true
    ensures AllMapped(m.pages, u.tab, TRAMPOLINE, TRAMPOLINE + 1) == true
  {
    forall v | TRAMPOLINE <= v < TRAMPOLINE + 1 ensures Valid(Lookup(m.pages, u.tab, v)) {
      assert Lookup(m.pages, u.tab, v) == Lookup(l.pages, t.tab, v);
    }
  }

  lemma NothingMapped(k: Kst, s: Space)
    requires NoLeaves(k, s) == true
    ensures AllMapped(k.pages, s.tab, 0, 0) && (forall v: nat :: v >= 0 ==> Lookup(k.pages, s.tab, v) == NOTHING)
  {}

  lemma ClearedThen(k: Kst, s: Space, l: Kst, t: Space, a: nat, b: nat)
    requires Cleared(k, s, l, t, a, b) == true
    ensures Moves(k, s, l, t) == true && SameRoot(s, t) && t.top == s.top
  {}

  /** uvmfree of a space in which nothing is mapped. */
  method FreeUnmapped(kr: Kernel, root: nat, ghost s: Space)
    requires Good(kr.lo, kr.Now(), s) == true && NoLeaves(kr.Now(), s) == true && ROOT in s.tab
    requires s.tab[ROOT] == root && s.top == TRAPFRAME
    modifies kr
    ensures FreeOk(kr.lo, kr.Now()) == true && Moves(old(kr.Now()), s, kr.Now(), Empty(TRAPFRAME)) == true
  {
    NothingMapped(kr.Now(), s);
    var ok := kr.Uvmfree(root, 0, 0, s);
  }

  /** proc_pagetable: a table with the trampoline and the trapframe, or None with every page back on the free list. */
  method ProcPagetable(kr: Kernel, trampoline: nat, trapframe: nat) returns (r: Option<nat>, ghost s: Space)
    requires FreeOk(kr.lo, kr.Now()) == true
    modifies kr
    ensures r.None? ==>
      FreeOk(kr.lo, kr.Now()) == true && Moves(old(kr.Now()), Empty(TRAPFRAME), kr.Now(), Empty(TRAPFRAME)) == true
    ensures r.Some? ==> Good(kr.lo, kr.Now(), s) == true && Moves(old(kr.Now()), Empty(TRAPFRAME), kr.Now(), s) == true
    ensures r.Some? ==> Layout(kr.Now(), s, trampoline, trapframe, 0) == true && ROOT in s.tab && s.tab[ROOT] == r.value
    ensures if r.None? then |old(kr.free)| < 5 else |old(kr.free)| <= |kr.free| + 5
  {
    ghost var k0 := kr.Now();
    r, s := kr.Uvmcreate(TRAPFRAME);
    if r.None? { return; }
    ghost var k1, s1 := kr.Now(), s;
    var m;
    ghost var end;
    m, end, s := kr.MapPages(r.value, TRAMPOLINE, TRAMPOLINE, trampoline, RX, s1);
    ghost var k2, s2 := kr.Now(), s;
    MovesFrom(k0, Empty(TRAPFRAME), k1, s1, TRAMPOLINE, end, trampoline, RX, k2, s2);
    if m.NoMemory? {
      RangedNoLeaves(k1, s1, k2, s2, TRAMPOLINE, trampoline, RX);
      FreeUnmapped(kr, r.value, s2);
      MovesTwice(k0, Empty(TRAPFRAME), k2, s2, kr.Now(), Empty(TRAPFRAME));
      return None, s;
    }
    m, end, s := kr.MapPages(r.value, TRAPFRAME, TRAPFRAME, trapframe, RW, s2);
    ghost var k3, s3 := kr.Now(), s;
    MovesFrom(k0, Empty(TRAPFRAME), k2, s2, TRAPFRAME, end, trapframe, RW, k3, s3);
    if m.NoMemory? {
      TrampolineMapped(k1, s1, k2, s2, k3, s3, trampoline, trapframe);
      var ok;
      ok, s := kr.Uvmunmap(r.value, TRAMPOLINE, TRAMPOLINE + 1, false, s3);
      ghost var k4 := kr.Now();
      ClearedThen(k3, s3, k4, s, TRAMPOLINE, TRAMPOLINE + 1);
      UndoneNoLeaves(k1, s1, k2, s2, k3, s3, k4, s, trampoline, trapframe);
      MovesTwice(k0, Empty(TRAPFRAME), k3, s3, k4, s);
      FreeUnmapped(kr, r.value, s);
      MovesTwice(k0, Empty(TRAPFRAME), k4, s, kr.Now(), Empty(TRAPFRAME));
      return None, s;
    }
    LayoutFrom(k1, s1, k2, s2, k3, s3, trampoline, trapframe);
  }

  lemma LayoutTrampoline(k: Kst, s: Space, trampoline: nat, trapframe: nat, b: nat)
    requires Layout(k, s, trampoline, trapframe, b) == true
    ensures AllMapped(k.pages, s.tab, TRAMPOLINE, TRAMPOLINE + 1) == true
  {}

  lemma LayoutTrapframe(k: Kst, s: Space, l: Kst, t: Space, trampoline: nat, trapframe: nat, b: nat)
    requires Layout(k, s, trampoline, trapframe, b) == true && Cleared(k, s, l, t, TRAMPOLINE, TRAMPOLINE + 1) == true
    ensures AllMapped(l.pages, t.tab, TRAPFRAME, TRAPFRAME + 1) == true
  {
    forall v | TRAPFRAME <= v < TRAPFRAME + 1 ensures Valid(Lookup(l.pages, t.tab, v)) {
      assert Lookup(l.pages, t.tab, v) == Lookup(k.pages, s.tab, v);
    }
  }

  /** What proc_freepagetable leaves for uvmfree. */
  lemma LayoutMemory(k: Kst, s: Space, l: Kst, t: Space, m: Kst, u: Space, trampoline: nat, trapframe: nat, b: nat)
    requires Layout(k, s, trampoline, trapframe, b) == true && Cleared(k, s, l, t, TRAMPOLINE, TRAMPOLINE + 1) == true
    requires Cleared(l, t, m, u, TRAPFRAME, TRAPFRAME + 1) == true
    ensures AllMapped(m.pages, u.tab, 0, b) && (forall v: nat :: v >= b ==> Lookup(m.pages, u.tab, v) == NOTHING)
  {
    forall v: nat ensures v < b ==> Valid(Lookup(m.pages, u.tab, v)) {
      assert v < b ==> Lookup(m.pages, u.tab, v) == Lookup(l.pages, t.tab, v) == Lookup(k.pages, s.tab, v);
    }
    forall v: nat | v >= b ensures Lookup(m.pages, u.tab, v) == NOTHING {
      assert Lookup(k.pages, s.tab, v) == Above(trampoline, trapframe, v);
    }
  }

  /** proc_freepagetable: every page of the space is free again; the trapframe and the trampoline are not touched. */
  method ProcFreepagetable(kr: Kernel, root: nat, sz: nat, ghost b: nat, ghost trampoline: nat, ghost trapframe: nat,
                           ghost s: Space)
    requires Good(kr.lo, kr.Now(), s) == true && ROOT in s.tab && s.tab[ROOT] == root && b == Up(sz)
    requires s.top == TRAPFRAME && b <= TRAPFRAME && Layout(kr.Now(), s, trampoline, trapframe, b) == true
    modifies kr
    ensures FreeOk(kr.lo, kr.Now()) == true && Moves(old(kr.Now()), s, kr.Now(), Empty(TRAPFRAME)) == true
  {
    ghost var k0 := kr.Now();
    ghost var t, u;
    LayoutTrampoline(k0, s, trampoline, trapframe, b);
    var ok;
    ok, t := kr.Uvmunmap(root, TRAMPOLINE, TRAMPOLINE + 1, false, s);
    ghost var k1 := kr.Now();
    ClearedThen(k0, s, k1, t, TRAMPOLINE, TRAMPOLINE + 1);
    LayoutTrapframe(k0, s, k1, t, trampoline, trapframe, b);
    ok, u := kr.Uvmunmap(root, TRAPFRAME, TRAPFRAME + 1, false, t);
    ghost var k2 := kr.Now();
    ClearedThen(k1, t, k2, u, TRAPFRAME, TRAPFRAME + 1);
    LayoutMemory(k0, s, k1, t, k2, u, trampoline, trapframe, b);
    MovesTwice(k0, s, k1, t, k2, u);
    ok := kr.Uvmfree(root, sz, b, u);
    MovesTwice(k0, s, k2, u, kr.Now(), Empty(TRAPFRAME));
  }

  /** A process's pages: a trapframe and an address space. */
  datatype Pages = Pages(trapframe: nat, root: nat)

  lemma HeldRange(k0: Kst, lo: nat, k: Kst, s: Space, p: nat)
    requires FreeOk(lo, k0) == true && Parts(k0, k, s, {p}) == true
    ensures lo <= p < |k.pages| && !Pool(k, s, p)
  {
    assert p in k0.free;
  }

  /** allocproc's pages: a trapframe and a page table; None leaves the free list with the pages it had. */
  method AllocMemory(kr: Kernel, trampoline: nat) returns (r: Option<Pages>, ghost s: Space)
    requires FreeOk(kr.lo, kr.Now()) == true
    modifies kr
    ensures r.None? ==> FreeOk(kr.lo, kr.Now()) == true && Parts(old(kr.Now()), kr.Now(), Empty(TRAPFRAME), {}) == true
    ensures r.Some? ==>
      Good(kr.lo, kr.Now(), s) == true && Parts(old(kr.Now()), kr.Now(), s, {r.value.trapframe}) == true
    ensures r.Some? ==>
      Layout(kr.Now(), s, trampoline, r.value.trapframe, 0) == true && ROOT in s.tab && s.tab[ROOT] == r.value.root
    ensures if r.None? then |old(kr.free)| < 6 else |old(kr.free)| <= |kr.free| + 6
  {
    ghost var k0 := kr.Now();
    s := Empty(TRAPFRAME);
    PartsStart(k0, TRAPFRAME);
    if kr.free != [] { PartsTake(kr.lo, k0, k0, TRAPFRAME, {}); }
    var tf := kr.Kalloc();
    if tf.None? { return None, s; }
    ghost var k1 := kr.Now();
    assert {} + {tf.value} == {tf.value};
    var root;
    root, s := ProcPagetable(kr, trampoline, tf.value);
    PartsMove(k0, k1, Empty(TRAPFRAME), {tf.value}, kr.Now(), if root.None? then Empty(TRAPFRAME) else s);
    if root.None? {
      HeldRange(k0, kr.lo, kr.Now(), Empty(TRAPFRAME), tf.value);
      PartsGive(kr.lo, k0, kr.Now(), Empty(TRAPFRAME), {tf.value}, tf.value);
      assert {tf.value} - {tf.value} == {};
      var freed := kr.Kfree(tf.value);
      return None, s;
    }
    return Some(Pages(tf.value, root.value)), s;
  }

  lemma GivenGood(lo: nat, k: Kst, s: Space, p: nat)
    requires Good(lo, k, s) == true && !Pool(k, s, p) && lo <= p < |k.pages|
    ensures Good(lo, Pushed(k, p), s) == true && SameMap(k, s, Pushed(k, p), s) == true
  {
    PushedOk(lo, k, p);
    SameSpace(k.pages, Pushed(k, p).pages, s);
  }

  lemma LayoutSame(k: Kst, s: Space, l: Kst, t: Space, trampoline: nat, trapframe: nat, b: nat)
    requires Layout(k, s, trampoline, trapframe, b) == true && SameMap(k, s, l, t) == true && t.top == s.top
    ensures Layout(l, t, trampoline, trapframe, b) == true
  {}

  /** The free pages are now those that were, the pages of space s and page p; no other page has changed. */
  ghost predicate Reclaimed(k: Kst, s: Space, p: nat, l: Kst) {
    && |l.pages| == |k.pages| && (forall q :: q in l.free <==> Pool(k, s, q) || q == p)
    && (forall q :: 0 <= q < |k.pages| && !Pool(k, s, q) && q != p ==> l.pages[q] == k.pages[q])
  }

  lemma ReclaimedFrom(k: Kst, s: Space, p: nat, l: Kst)
    requires p < |k.pages| && Moves(Pushed(k, p), s, l, Empty(s.top)) == true
    ensures Reclaimed(k, s, p, l) == true
  {
    forall q ensures q in l.free <==> Pool(k, s, q) || q == p {
      assert Pool(l, Empty(s.top), q) <==> Pool(Pushed(k, p), s, q);
    }
    forall q | 0 <= q < |k.pages| && !Pool(k, s, q) && q != p ensures l.pages[q] == k.pages[q] {
      assert !Pool(Pushed(k, p), s, q);
    }
  }

  lemma PartsReclaimed(k0: Kst, k: Kst, s: Space, p: nat, l: Kst, top: nat)
    requires Parts(k0, k, s, {p}) == true && Reclaimed(k, s, p, l) == true
    ensures Parts(k0, l, Empty(top), {}) == true
  {
    forall q ensures q in k0.free <==> Pool(l, Empty(top), q) || q in {} {
      assert q in l.free <==> Pool(k, s, q) || q == p;
    }
  }

  /** freeproc's pages: all of them are free again. */
  method FreeMemory(kr: Kernel, np: Pages, sz: nat, ghost b: nat, ghost trampoline: nat, ghost s: Space)
    requires Good(kr.lo, kr.Now(), s) == true && !Pool(kr.Now(), s, np.trapframe) && kr.lo <= np.trapframe < |kr.pages|
    requires ROOT in s.tab && s.tab[ROOT] == np.root && b == Up(sz) && s.top == TRAPFRAME && b <= TRAPFRAME
    requires Layout(kr.Now(), s, trampoline, np.trapframe, b) == true
    modifies kr
    ensures FreeOk(kr.lo, kr.Now()) == true && Reclaimed(old(kr.Now()), s, np.trapframe, kr.Now()) == true
  {
    ghost var k := kr.Now();
    GivenGood(kr.lo, k, s, np.trapframe);
    LayoutSame(k, s, Pushed(k, np.trapframe), s, trampoline, np.trapframe, b);
    var freed := kr.Kfree(np.trapframe);
    ProcFreepagetable(kr, np.root, sz, b, trampoline, np.trapframe, s);
    ReclaimedFrom(k, s, np.trapframe, kr.Now());
  }

  /** The child's first b virtual pages hold what the parent's held, with the same permissions. */
  ghost predicate Copied(k0: Kst, o: Space, k: Kst, s: Space, b: nat) {
    forall w: nat :: w < b ==> Has(k, s.tab, w, WantOf(k0, o, w))
  }

  lemma ParentMapped(lo: nat, k0: Kst, k: Kst, o: Space, trampoline: nat, trapframe: nat, b: nat)
    requires Good(lo, k0, o) == true && Layout(k0, o, trampoline, trapframe, b) == true && Untouched(k0, k, o) == true
    ensures AllMapped(k.pages, o.tab, 0, b) == true
  {
    forall v | 0 <= v < b ensures Valid(Lookup(k.pages, o.tab, v)) { SameWant(lo, k0, k, o, v); }
  }

  lemma ChildFree(k: Kst, s: Space, trampoline: nat, trapframe: nat, b: nat)
    requires Layout(k, s, trampoline, trapframe, 0) == true && b <= TRAPFRAME
    ensures AllFree(k.pages, s.tab, 0, b) == true
  {
    forall v | 0 <= v < b ensures !Valid(Lookup(k.pages, s.tab, v)) {
      assert Lookup(k.pages, s.tab, v) == Above(trampoline, trapframe, v);
    }
  }

  lemma ChildLayout(k: Kst, s: Space, l: Kst, t: Space, o: Space, trampoline: nat, trapframe: nat, b: nat)
    requires Layout(k, s, trampoline, trapframe, 0) == true && b <= TRAPFRAME
    requires Filling(k, s, l, t, 0, Copies(k, o, b)) == true
    ensures Layout(l, t, trampoline, trapframe, b) == true
  {
    forall w: nat ensures w < b ==> Valid(Lookup(l.pages, t.tab, w)) {
      assert FillOk(k, s, l, t, 0, Copies(k, o, b), w);
    }
    forall w: nat | w >= b ensures Lookup(l.pages, t.tab, w) == Above(trampoline, trapframe, w) {
      assert FillOk(k, s, l, t, 0, Copies(k, o, b), w) && Lookup(k.pages, s.tab, w) == Above(trampoline, trapframe, w);
    }
  }

  lemma ChildCopied(lo: nat, k0: Kst, k: Kst, s: Space, l: Kst, t: Space, o: Space, trampoline: nat, trapframe: nat,
                    b: nat)
    requires Good(lo, k0, o) == true && Layout(k0, o, trampoline, trapframe, b) == true && Untouched(k0, k, o) == true
    requires Filling(k, s, l, t, 0, Copies(k, o, b)) == true
    ensures Copied(k0, o, l, t, b) == true
  {
    forall w: nat | w < b ensures Has(l, t.tab, w, WantOf(k0, o, w)) {
      SameWant(lo, k0, k, o, w);
      assert FillOk(k, s, l, t, 0, Copies(k, o, b), w);
    }
  }

  /**
   fork's pages. The child gets a copy of the parent's memory; when memory runs out anywhere on the way, None, and the
   free list has exactly the pages it had. Six free pages and three for each page of the parent are enough. The parent
   is untouched either way.
   */
  method ForkMemory(kr: Kernel, trampoline: nat, oroot: nat, sz: nat, ghost otf: nat, ghost b: nat, ghost o: Space)
    returns (r: Option<Pages>, ghost s: Space)
    requires Good(kr.lo, kr.Now(), o) == true && ROOT in o.tab && o.tab[ROOT] == oroot && b == Up(sz)
    requires o.top == TRAPFRAME && b <= TRAPFRAME && Layout(kr.Now(), o, trampoline, otf, b) == true
    modifies kr
    ensures Good(kr.lo, kr.Now(), o) == true && Untouched(old(kr.Now()), kr.Now(), o) == true
    ensures r.None? ==> Parts(old(kr.Now()), kr.Now(), Empty(TRAPFRAME), {}) == true && |old(kr.free)| < 6 + 3 * b
    ensures r.Some? ==>
      Good(kr.lo, kr.Now(), s) == true && Parts(old(kr.Now()), kr.Now(), s, {r.value.trapframe}) == true
    ensures r.Some? ==>
      ROOT in s.tab && s.tab[ROOT] == r.value.root && Layout(kr.Now(), s, trampoline, r.value.trapframe, b) == true
    ensures r.Some? ==> Copied(old(kr.Now()), o, kr.Now(), s, b) == true
  {
    ghost var k0 := kr.Now();
    r, s := AllocMemory(kr, trampoline);
    if r.None? {
      PartsApart(kr.lo, k0, kr.Now(), Empty(TRAPFRAME), {}, o);
      return;
    }
    ghost var k, t := kr.Now(), s;
    PartsApart(kr.lo, k0, k, s, {r.value.trapframe}, o);
    ParentMapped(kr.lo, k0, k, o, trampoline, otf, b);
    ChildFree(k, s, trampoline, r.value.trapframe, b);
    var ok, panic;
    ok, panic, t := kr.Uvmcopy(oroot, r.value.root, sz, b, o, s);
    if ok {
      ForkDone(kr.lo, k0, k, s, kr.Now(), t, o, trampoline, otf, r.value.trapframe, b);
      s := t;
    } else {
      ForkFailed(k0, k, s, kr.Now(), t, trampoline, r.value.trapframe);
      ghost var l := kr.Now();
      HeldRange(k0, kr.lo, l, t, r.value.trapframe);
      FreeMemory(kr, r.value, 0, 0, trampoline, t);
      PartsReclaimed(k0, l, t, r.value.trapframe, kr.Now(), TRAPFRAME);
      PartsApart(kr.lo, k0, kr.Now(), Empty(TRAPFRAME), {}, o);
      return None, s;
    }
  }

  lemma ForkDone(lo: nat, k0: Kst, k: Kst, s: Space, l: Kst, t: Space, o: Space, trampoline: nat, otf: nat, tf: nat,
                 b: nat)
    requires Good(lo, k0, o) == true && Layout(k0, o, trampoline, otf, b) == true
    requires Untouched(k0, k, o) == true && Untouched(k, l, o) == true
    requires Parts(k0, k, s, {tf}) == true && Layout(k, s, trampoline, tf, 0) == true && b <= TRAPFRAME
    requires Filling(k, s, l, t, 0, Copies(k, o, b)) == true
    ensures Parts(k0, l, t, {tf}) == true && Layout(l, t, trampoline, tf, b) == true && Copied(k0, o, l, t, b) == true
    ensures Untouched(k0, l, o) == true && SameRoot(s, t)
  {
    PartsMove(k0, k, s, {tf}, l, t);
    ChildLayout(k, s, l, t, o, trampoline, tf, b);
    ChildCopied(lo, k0, k, s, l, t, o, trampoline, otf, b);
    UntouchedTwice(k0, k, l, o);
  }

  lemma ForkFailed(k0: Kst, k: Kst, s: Space, l: Kst, t: Space, trampoline: nat, tf: nat)
    requires Parts(k0, k, s, {tf}) == true && Layout(k, s, trampoline, tf, 0) == true && Same(k, s, l, t) == true
    ensures Parts(k0, l, t, {tf}) == true && Layout(l, t, trampoline, tf, 0) == true
    ensures SameRoot(s, t) && t.top == TRAPFRAME
  {
    PartsMove(k0, k, s, {tf}, l, t);
    LayoutSame(k, s, l, t, trampoline, tf, 0);
  }
}

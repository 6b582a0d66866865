/**
 kalloc.c and vm.c over pages: the free list, walk, mappages, uvmunmap, growing, copying and freeing address
 spaces, and the copies between kernel and user memory. Addresses of pages are page numbers.
 A predicate that a method only hands on is written `P == true`, so that it is handed on unopened.
 */
module Vm {
  import opened Basics
  import opened Bytes
  import opened PageTable

  /** MAXVA / PGSIZE; TRAMPOLINE and TRAPFRAME are the two pages below it. */
  const MAXVPN := 0x400_0000
  const TRAMPOLINE := MAXVPN - 1
  const TRAPFRAME := MAXVPN - 2

  /** Physical memory and kmem.freelist, with the list as a sequence. */
  datatype Kst = Kst(pages: seq<Page>, head: Option<nat>, free: seq<nat>)

  /** The run of pages that hang from head. */
  ghost predicate Chain(pages: seq<Page>, head: Option<nat>, free: seq<nat>)
    decreases |free|
  {
    if free == [] then head.None?
    else
      && head == Some(free[0]) && free[0] < |pages| && pages[free[0]].Free? && free[0] !in free[1..]
      && Chain(pages, pages[free[0]].next, free[1..])
  }

  /** All free pages lie between the end of the kernel and PHYSTOP. */
  ghost predicate FreeOk(lo: nat, k: Kst) {
    Chain(k.pages, k.head, k.free) && forall p :: p in k.free ==> lo <= p < |k.pages|
  }

  lemma {:induction false} SameChain(pages: seq<Page>, after: seq<Page>, head: Option<nat>, free: seq<nat>)
    requires Chain(pages, head, free) && |after| == |pages|
    requires forall p :: p in free && p < |pages| ==> after[p] == pages[p]
    ensures Chain(after, head, free)
    decreases |free|
  {
    if free != [] {
      SameChain(pages, after, pages[free[0]].next, free[1..]);
    }
  }

  function Filled(b: Byte): Page { Plain(Data(seq(PGSIZE, _ => b))) }

  /** kalloc takes the head of the list and fills the page with fives. */
  function Popped(k: Kst): Kst
    requires k.free != [] && k.free[0] < |k.pages| && k.pages[k.free[0]].Free?
  {
    Kst(k.pages[k.free[0] := Filled(5)], k.pages[k.free[0]].next, k.free[1..])
  }

  /** kfree links the page in at the head. */
  function Pushed(k: Kst, p: nat): Kst
    requires p < |k.pages|
  {
    Kst(k.pages[p := Free(k.head)], Some(p), [p] + k.free)
  }

  lemma PoppedOk(lo: nat, k: Kst)
    requires FreeOk(lo, k) == true && k.free != []
    ensures k.free[0] < |k.pages| && k.pages[k.free[0]].Free? && FreeOk(lo, Popped(k)) == true
    ensures k.free[0] !in Popped(k).free
  {
    FreeTail(k.free);
    SameChain(k.pages, Popped(k).pages, k.pages[k.free[0]].next, k.free[1..]);
  }

  lemma FreeTail(free: seq<nat>)
    requires free != []
    ensures forall q :: q in free <==> q == free[0] || q in free[1..]
  {}

  lemma PushedOk(lo: nat, k: Kst, p: nat)
    requires FreeOk(lo, k) == true && lo <= p < |k.pages| && p !in k.free
    ensures FreeOk(lo, Pushed(k, p)) == true
  {
    SameChain(k.pages, Pushed(k, p).pages, k.head, k.free);
    assert ([p] + k.free)[1..] == k.free;
  }

  /** A well-formed free list and a well-formed space that share no page. */
  ghost predicate Good(lo: nat, k: Kst, s: Space) {
    && FreeOk(lo, k) && SpaceOk(k.pages, s)
    && (forall p :: p in k.free ==> p !in s.own) && (forall p :: p in s.own ==> lo <= p)
  }

  /** The page is free or belongs to the space. */
  predicate Pool(k: Kst, s: Space, p: nat) { p in k.free || p in s.own }

  /** From one state to another no page leaves the free list and the space together, and no other page changes. */
  ghost predicate Moves(k: Kst, s: Space, l: Kst, t: Space) {
    && |l.pages| == |k.pages| && t.top == s.top
    && (forall p :: Pool(l, t, p) <==> Pool(k, s, p))
    && (forall p :: 0 <= p < |k.pages| && !Pool(k, s, p) ==> l.pages[p] == k.pages[p])
  }

  /** No virtual page changes its entry. */
  ghost predicate SameMap(k: Kst, s: Space, l: Kst, t: Space) {
    forall v: nat :: Lookup(l.pages, t.tab, v) == Lookup(k.pages, s.tab, v)
  }

  /** The space may have gained tables and nothing else has happened to it. */
  ghost predicate Extends(s: Space, t: Space) {
    && (forall n :: n in s.tab ==> n in t.tab && t.tab[n] == s.tab[n])
    && (forall p :: p in s.own ==> p in t.own && t.own[p] == s.own[p])
    && (forall p :: p in t.own && t.own[p].Mem? ==> p in s.own)
  }

  /** The memory of the space is untouched. */
  ghost predicate SameMem(k: Kst, s: Space, l: Kst) {
    forall p :: p in s.own && s.own[p].Mem? && p < |k.pages| == |l.pages| ==> l.pages[p] == k.pages[p]
  }

  ghost predicate Grew(k: Kst, s: Space, l: Kst, t: Space) {
    Moves(k, s, l, t) && SameMap(k, s, l, t) && Extends(s, t) && SameMem(k, s, l)
  }

  lemma GrewStart(k: Kst, s: Space)
    ensures Grew(k, s, k, s) == true
  {}

  lemma GrewTwice(k: Kst, s: Space, l: Kst, t: Space, m: Kst, u: Space)
    requires Grew(k, s, l, t) == true && Grew(l, t, m, u) == true
    ensures Grew(k, s, m, u) == true
  {}

  /* walk */

  function Shift(v: nat, l: nat): nat { if l == 0 then v else Shift(v, l - 1) / ENTRIES }

  /** PX */
  function Px(l: nat, v: nat): (i: nat)
    ensures i < ENTRIES
  {
    Shift(v, l) % ENTRIES
  }

  /** The tables for virtual page v, from the lowest level to the root. */
  function Path(v: nat): seq<Node> { [Node(0, Shift(v, 1)), Node(1, Shift(v, 2)), Node(2, Shift(v, 3))] }

  lemma PathEnds(v: nat)
    requires v < MAXVPN
    ensures |Path(v)| == 3 && Path(v)[0] == Node(0, v / ENTRIES) && Path(v)[2] == ROOT
  {
    assert Shift(v, 0) == v && Shift(v, 1) == v / ENTRIES;
    ThreeLevels(v);
  }

  lemma ThreeLevels(v: nat)
    requires v < MAXVPN
    ensures v / ENTRIES / ENTRIES / ENTRIES == 0
  {}

  lemma PathStep(v: nat, level: nat)
    requires 0 < level <= 2
    ensures |Path(v)| == 3 && Path(v)[level - 1].level == level - 1
    ensures Parent(Path(v)[level - 1]) == Path(v)[level] && Px(level, v) == Path(v)[level - 1].k % ENTRIES
  {}

  /** What walk reads on its way to node n. */
  lemma WalkEntry(lo: nat, k: Kst, s: Space, n: Node)
    requires Good(lo, k, s) == true && n.level < 2 && Parent(n) in s.tab
    ensures IsTable(k.pages, s.tab[Parent(n)])
    ensures k.pages[s.tab[Parent(n)]].pte[n.k % ENTRIES] == if n in s.tab then Pointer(s.tab[n]) else NOTHING
  {
    assert NodeOk(k.pages, s, Parent(n)) && LinkOk(k.pages, s.tab, n);
  }

  /** What the hardware makes of virtual page v: three nine-bit indices, from the root down. */
  function Mmu(pages: seq<Page>, root: nat, v: nat): Pte {
    var e := PteAt(pages, root, v / 0x4_0000 % 512);
    if !Valid(e) || Maps(e) then NOTHING
    else
      var f := PteAt(pages, e.ppn, v / 512 % 512);
      if !Valid(f) || Maps(f) then NOTHING else PteAt(pages, f.ppn, v % 512)
  }

  function PteAt(pages: seq<Page>, p: nat, i: nat): Pte {
    if IsTable(pages, p) && i < 512 then pages[p].pte[i] else NOTHING
  }

  lemma Indices(v: nat)
    requires v < MAXVPN
    ensures Parent(Node(0, v / 512)) == Node(1, v / 0x4_0000) && Parent(Node(1, v / 0x4_0000)) == ROOT
  {}

  /** The hardware finds by the tables what Lookup says. */
  lemma MmuLookup(lo: nat, k: Kst, s: Space, v: nat)
    requires Good(lo, k, s) == true && v < MAXVPN
    ensures ROOT in s.tab && Mmu(k.pages, s.tab[ROOT], v) == Lookup(k.pages, s.tab, v)
  {
    var n, m := Node(0, v / 512), Node(1, v / 0x4_0000);
    Indices(v);
    RootThere(lo, k, s, n);
    WalkEntry(lo, k, s, m);
    if m in s.tab {
      WalkEntry(lo, k, s, n);
      if n in s.tab { LookupAt(lo, k, s, v); }
    }
  }

  lemma RootThere(lo: nat, k: Kst, s: Space, n: Node)
    requires Good(lo, k, s) == true && n.level == 0
    ensures ROOT in s.tab && (n in s.tab ==> Parent(n) in s.tab)
  {
    if n in s.tab { assert NodeOk(k.pages, s, n); }
  }

  /** Where there is a table, there are the tables above it. */
  lemma PathUp(lo: nat, k: Kst, s: Space, v: nat, level: nat)
    requires Good(lo, k, s) == true && 0 < level <= 2 && |Path(v)| == 3 && Path(v)[0] in s.tab
    ensures Path(v)[level - 1] in s.tab
  {
    PathStep(v, 1);
    assert NodeOk(k.pages, s, Path(v)[0]);
  }

  /** Taking a page from the free list leaves the space alone. */
  lemma PoppedGood(lo: nat, k: Kst, s: Space)
    requires Good(lo, k, s) == true && k.free != []
    ensures k.free[0] < |k.pages| && k.pages[k.free[0]].Free? && k.free[0] !in s.own
    ensures Good(lo, Popped(k), s) == true && SameMap(k, s, Popped(k), s) == true && Held(lo, Popped(k), s, k.free[0])
  {
    FreeTail(k.free);
    PoppedOk(lo, k);
    SameSpace(k.pages, Popped(k).pages, s);
  }

  /** Page p has been taken from the free list and given to no space yet. */
  predicate Held(lo: nat, k: Kst, s: Space, p: nat) {
    lo <= p < |k.pages| && p !in k.free && p !in s.own && k.pages[p].Plain? && |k.pages[p].data.bytes| == PGSIZE
  }

  /** The state when a held page has become the table of node n. */
  function Tabled(k: Kst, s: Space, n: Node, p: nat): Kst
    requires n.level < 2 && Parent(n) in s.tab && IsTable(k.pages, s.tab[Parent(n)])
    requires p < |k.pages| && p != s.tab[Parent(n)]
  {
    k.(pages := AddPages(k.pages, s, n, p))
  }

  lemma TabledGood(lo: nat, k: Kst, s: Space, n: Node, p: nat)
    requires Good(lo, k, s) == true && Held(lo, k, s, p) && n.level < 2 && Parent(n) in s.tab && n !in s.tab
    ensures IsTable(k.pages, s.tab[Parent(n)]) && p != s.tab[Parent(n)]
    ensures Good(lo, Tabled(k, s, n, p), AddTable(s, n, p)) == true
  {
    assert NodeOk(k.pages, s, Parent(n));
    AddTableKeeps(k.pages, s, n, p);
    TabledFree(lo, k, s, n, p);
  }

  lemma TabledFree(lo: nat, k: Kst, s: Space, n: Node, p: nat)
    requires FreeOk(lo, k) == true && p < |k.pages| && p !in k.free && n.level < 2 && Parent(n) in s.tab
    requires IsTable(k.pages, s.tab[Parent(n)]) && p != s.tab[Parent(n)] && s.tab[Parent(n)] !in k.free
    ensures FreeOk(lo, Tabled(k, s, n, p)) == true
  {
    SameChain(k.pages, Tabled(k, s, n, p).pages, k.head, k.free);
  }

  lemma TabledMap(lo: nat, k: Kst, s: Space, n: Node, p: nat)
    requires Good(lo, k, s) == true && Held(lo, k, s, p) && n.level < 2 && Parent(n) in s.tab && n !in s.tab
    requires IsTable(k.pages, s.tab[Parent(n)]) && p != s.tab[Parent(n)]
    ensures SameMap(k, s, Tabled(k, s, n, p), AddTable(s, n, p)) == true
  {
    forall v: nat ensures Lookup(Tabled(k, s, n, p).pages, AddTable(s, n, p).tab, v) == Lookup(k.pages, s.tab, v) {
      AddTableLookup(k.pages, s, n, p, v);
    }
  }

  /** kalloc followed by the new table. */
  lemma TabledGrew(lo: nat, k: Kst, s: Space, n: Node, p: nat)
    requires Good(lo, k, s) == true && k.free != [] && p == k.free[0] && n.level < 2
    requires Parent(n) in s.tab && n !in s.tab
    requires p < |k.pages| && k.pages[p].Free? && p !in s.own && IsTable(Popped(k).pages, s.tab[Parent(n)])
    requires p != s.tab[Parent(n)]
    requires SameMap(k, s, Popped(k), s) == true
    requires SameMap(Popped(k), s, Tabled(Popped(k), s, n, p), AddTable(s, n, p)) == true
    ensures Grew(k, s, Tabled(Popped(k), s, n, p), AddTable(s, n, p)) == true
  {
    FreeTail(k.free);
    assert NodeOk(k.pages, s, Parent(n));
  }

  lemma NewTableStep(lo: nat, k: Kst, s: Space, n: Node, p: nat)
    requires Good(lo, k, s) == true && k.free != [] && p == k.free[0] && n.level < 2
    requires Parent(n) in s.tab && n !in s.tab
    ensures p < |k.pages| && k.pages[p].Free? && IsTable(Popped(k).pages, s.tab[Parent(n)]) && p != s.tab[Parent(n)]
    ensures Good(lo, Tabled(Popped(k), s, n, p), AddTable(s, n, p)) == true
    ensures Grew(k, s, Tabled(Popped(k), s, n, p), AddTable(s, n, p)) == true
  {
    PoppedGood(lo, k, s);
    TabledGood(lo, Popped(k), s, n, p);
    TabledMap(lo, Popped(k), s, n, p);
    TabledGrew(lo, k, s, n, p);
  }

  /* Mapping one page. */

  predicate SameRoot(s: Space, t: Space) {
    ROOT in s.tab && ROOT in t.tab && t.tab[ROOT] == s.tab[ROOT]
  }

  /** Nothing has happened but that tables may have been made. */
  ghost predicate Same(k: Kst, s: Space, l: Kst, t: Space) {
    Moves(k, s, l, t) && SameMap(k, s, l, t) && SameMem(k, s, l) && SameRoot(s, t)
  }

  lemma GrewSame(lo: nat, k: Kst, s: Space, l: Kst, t: Space)
    requires Good(lo, k, s) == true && Grew(k, s, l, t) == true
    ensures Same(k, s, l, t) == true
  {}

  function Bound(k: Kst, tab: map<Node, nat>, v: nat, e: Pte): Kst
    requires Node(0, v / ENTRIES) in tab && IsTable(k.pages, tab[Node(0, v / ENTRIES)])
  {
    k.(pages := SetPages(k.pages, tab, v, e))
  }

  /** Exactly virtual page v changes its entry, to e. */
  ghost predicate Binds(k: Kst, s: Space, l: Kst, t: Space, v: nat, e: Pte) {
    forall w: nat :: Lookup(l.pages, t.tab, w) == if w == v then e else Lookup(k.pages, s.tab, w)
  }

  /** The held page p is mapped at v by e. */
  ghost predicate Mapping(k: Kst, s: Space, l: Kst, t: Space, v: nat, p: nat, e: Pte) {
    PoolPlus(k, s, l, t, p) && SameRoot(s, t) && Binds(k, s, l, t, v, e) && SameMem(k, s, l)
  }

  /** Page p joins the pages of the free list and the space, and no page beyond these changes. */
  ghost predicate PoolPlus(k: Kst, s: Space, l: Kst, t: Space, p: nat) {
    && |l.pages| == |k.pages| && t.top == s.top
    && (forall q :: Pool(l, t, q) <==> Pool(k, s, q) || q == p)
    && (forall q :: 0 <= q < |k.pages| && !Pool(k, s, q) ==> l.pages[q] == k.pages[q])
  }

  lemma HeldStays(lo: nat, k: Kst, s: Space, l: Kst, t: Space, p: nat)
    requires Moves(k, s, l, t) == true && Held(lo, k, s, p)
    ensures Held(lo, l, t, p) && l.pages[p] == k.pages[p]
  {
    assert Pool(l, t, p) <==> Pool(k, s, p);
  }

  lemma BoundGood(lo: nat, k: Kst, s: Space, v: nat, p: nat, perm: Perm)
    requires Good(lo, k, s) == true && Maps(MakePte(p, perm)) && v < s.top && Node(0, v / ENTRIES) in s.tab
    requires Lookup(k.pages, s.tab, v) == NOTHING && Held(lo, k, s, p)
    ensures IsTable(k.pages, s.tab[Node(0, v / ENTRIES)])
    ensures Good(lo, Bound(k, s.tab, v, MakePte(p, perm)), s.(own := s.own[p := Mem(v)])) == true
  {
    assert NodeOk(k.pages, s, Node(0, v / ENTRIES));
    MapMem(k.pages, s, v, p, perm);
    SameChain(k.pages, SetPages(k.pages, s.tab, v, MakePte(p, perm)), k.head, k.free);
  }

  lemma BoundBinds(lo: nat, k: Kst, s: Space, v: nat, e: Pte, own: map<nat, Role>)
    requires Good(lo, k, s) == true && (e == NOTHING || Maps(e)) && Node(0, v / ENTRIES) in s.tab
    ensures IsTable(k.pages, s.tab[Node(0, v / ENTRIES)])
    ensures Binds(k, s, Bound(k, s.tab, v, e), s.(own := own), v, e) == true
    ensures SameMem(k, s, Bound(k, s.tab, v, e)) == true
  {
    assert NodeOk(k.pages, s, Node(0, v / ENTRIES));
    forall w: nat
      ensures Lookup(SetPages(k.pages, s.tab, v, e), s.tab, w) == if w == v then e else Lookup(k.pages, s.tab, w)
    {
      SetLookup(k.pages, s, v, e, w);
    }
  }

  /** walk, then the store: pages and pools. */
  lemma MappingPool(k: Kst, s: Space, l: Kst, t: Space, m: Kst, u: Space, a: nat, p: nat)
    requires Moves(k, s, l, t) == true && a in t.own && a < |l.pages| == |m.pages| && m.free == l.free && u.top == t.top
    requires forall q :: 0 <= q < |l.pages| && q != a ==> m.pages[q] == l.pages[q]
    requires forall q :: q in u.own <==> q in t.own || q == p
    ensures PoolPlus(k, s, m, u, p) == true
  {
    forall q ensures Pool(m, u, q) <==> Pool(k, s, q) || q == p {
      assert Pool(l, t, q) <==> Pool(k, s, q);
    }
    assert Pool(l, t, a);
  }

  lemma BindsAfter(k: Kst, s: Space, l: Kst, t: Space, m: Kst, u: Space, v: nat, e: Pte)
    requires SameMap(k, s, l, t) == true && Binds(l, t, m, u, v, e) == true
    ensures Binds(k, s, m, u, v, e) == true
  {}

  lemma SameMemAfter(k: Kst, s: Space, l: Kst, t: Space, m: Kst)
    requires Grew(k, s, l, t) == true && SameMem(l, t, m) == true && |m.pages| == |l.pages|
    ensures SameMem(k, s, m) == true
  {}

  /** Mapping a held page where walk has arrived. */
  lemma MapAfterWalk(lo: nat, k: Kst, s: Space, l: Kst, t: Space, v: nat, p: nat, perm: Perm)
    requires Good(lo, k, s) == true && Good(lo, l, t) == true && Grew(k, s, l, t) == true && Held(lo, k, s, p)
    requires Node(0, v / ENTRIES) in t.tab && IsTable(l.pages, t.tab[Node(0, v / ENTRIES)]) && v < s.top
    requires Maps(MakePte(p, perm)) && Lookup(l.pages, t.tab, v) == NOTHING
    ensures var m, u := Bound(l, t.tab, v, MakePte(p, perm)), t.(own := t.own[p := Mem(v)]);
            Good(lo, m, u) == true && Mapping(k, s, m, u, v, p, MakePte(p, perm)) == true
  {
    var e := MakePte(p, perm);
    var m, u := Bound(l, t.tab, v, e), t.(own := t.own[p := Mem(v)]);
    HeldStays(lo, k, s, l, t, p);
    BoundGood(lo, l, t, v, p, perm);
    MappingFrom(lo, k, s, l, t, v, p, e);
  }

  lemma GrewLookup(k: Kst, s: Space, l: Kst, t: Space, v: nat)
    requires Grew(k, s, l, t) == true
    ensures Lookup(l.pages, t.tab, v) == Lookup(k.pages, s.tab, v)
  {}

  lemma GrewMoves(k: Kst, s: Space, l: Kst, t: Space)
    requires Grew(k, s, l, t) == true
    ensures Moves(k, s, l, t) == true && SameMap(k, s, l, t) == true
  {}

  /** The store at v happens in a page of the space. */
  lemma BoundPool(lo: nat, k: Kst, s: Space, l: Kst, t: Space, v: nat, p: nat, e: Pte)
    requires Good(lo, l, t) == true && Moves(k, s, l, t) == true && Node(0, v / ENTRIES) in t.tab
    requires IsTable(l.pages, t.tab[Node(0, v / ENTRIES)])
    ensures PoolPlus(k, s, Bound(l, t.tab, v, e), t.(own := t.own[p := Mem(v)]), p) == true
  {
    assert NodeOk(l.pages, t, Node(0, v / ENTRIES));
    MappingPool(k, s, l, t, Bound(l, t.tab, v, e), t.(own := t.own[p := Mem(v)]), t.tab[Node(0, v / ENTRIES)], p);
  }

  lemma MappingFrom(lo: nat, k: Kst, s: Space, l: Kst, t: Space, v: nat, p: nat, e: Pte)
    requires Good(lo, k, s) == true && Good(lo, l, t) == true && Grew(k, s, l, t) == true && p < |l.pages|
    requires Node(0, v / ENTRIES) in t.tab && IsTable(l.pages, t.tab[Node(0, v / ENTRIES)]) && Maps(e)
    ensures Mapping(k, s, Bound(l, t.tab, v, e), t.(own := t.own[p := Mem(v)]), v, p, e) == true
  {
    var m, u := Bound(l, t.tab, v, e), t.(own := t.own[p := Mem(v)]);
    GrewMoves(k, s, l, t);
    GrewRoot(lo, k, s, l, t);
    BoundPool(lo, k, s, l, t, v, p, e);
    BoundBinds(lo, l, t, v, e, u.own);
    BindsAfter(k, s, l, t, m, u, v, e);
    SameMemAfter(k, s, l, t, m);
  }

  lemma GrewRoot(lo: nat, k: Kst, s: Space, l: Kst, t: Space)
    requires Good(lo, k, s) == true && Grew(k, s, l, t) == true
    ensures SameRoot(s, t)
  {}

  lemma ForeignGood(lo: nat, k: Kst, s: Space, v: nat, e: Pte)
    requires Good(lo, k, s) == true && (e == NOTHING || Maps(e)) && v >= s.top && Node(0, v / ENTRIES) in s.tab
    ensures IsTable(k.pages, s.tab[Node(0, v / ENTRIES)])
    ensures Good(lo, Bound(k, s.tab, v, e), s) == true && Moves(k, s, Bound(k, s.tab, v, e), s) == true
  {
    assert NodeOk(k.pages, s, Node(0, v / ENTRIES));
    MapForeign(k.pages, s, v, e);
    SameChain(k.pages, SetPages(k.pages, s.tab, v, e), k.head, k.free);
  }

  /** What Lookup reads through walk's result. */
  lemma LookupAt(lo: nat, k: Kst, s: Space, v: nat)
    requires Good(lo, k, s) == true && Node(0, v / ENTRIES) in s.tab
    ensures var t := s.tab[Node(0, v / ENTRIES)];
            IsTable(k.pages, t) && k.pages[t].pte[v % ENTRIES] == Lookup(k.pages, s.tab, v)
  {
    assert NodeOk(k.pages, s, Node(0, v / ENTRIES));
  }

  lemma LeafForm(lo: nat, k: Kst, s: Space, v: nat)
    requires Good(lo, k, s) == true
    ensures var e := Lookup(k.pages, s.tab, v); e == NOTHING || Maps(e)
    ensures var e := Lookup(k.pages, s.tab, v); v < s.top && Valid(e) ==> e.ppn in s.own && s.own[e.ppn] == Mem(v)
    ensures var e := Lookup(k.pages, s.tab, v); v < s.top && Valid(e) ==>
              && lo <= e.ppn < |k.pages| && k.pages[e.ppn].Plain? && |k.pages[e.ppn].data.bytes| == PGSIZE
              && e.ppn !in k.free
  {
    assert MemOk(k.pages, s, v);
  }

  /* kalloc, fill and mappages, as uvmalloc and uvmcopy do. */

  type PageData = d: Data | |d.bytes| == PGSIZE witness Data(seq(PGSIZE, _ => 0))

  /** The head of the free list taken and filled. */
  function Taken(k: Kst, fill: PageData): Kst
    requires k.free != [] && k.free[0] < |k.pages| && k.pages[k.free[0]].Free?
  {
    Popped(k).(pages := Popped(k).pages[k.free[0] := Plain(fill)])
  }

  lemma TakenGood(lo: nat, k: Kst, s: Space, fill: PageData)
    requires Good(lo, k, s) == true && k.free != []
    ensures k.free[0] < |k.pages| && k.pages[k.free[0]].Free? && k.free[0] !in s.own
    ensures Good(lo, Taken(k, fill), s) == true && SameMap(k, s, Taken(k, fill), s) == true
    ensures Held(lo, Taken(k, fill), s, k.free[0])
  {
    PoppedGood(lo, k, s);
    SameSpace(k.pages, Taken(k, fill).pages, s);
    SameChain(Popped(k).pages, Taken(k, fill).pages, Popped(k).head, Popped(k).free);
  }

  /** A page from the free list, holding fill, is mapped at v. */
  ghost predicate Fresh(k: Kst, s: Space, l: Kst, t: Space, v: nat, p: nat, perm: Perm, fill: PageData) {
    && Moves(k, s, l, t) && Binds(k, s, l, t, v, MakePte(p, perm)) && SameMem(k, s, l) && SameRoot(s, t)
    && p < |l.pages| && l.pages[p] == Plain(fill)
  }

  lemma FreshFrom(lo: nat, k: Kst, s: Space, l: Kst, t: Space, v: nat, p: nat, perm: Perm, fill: PageData)
    requires k.free != [] && p == k.free[0] && p < |k.pages| && k.pages[p].Free? && p !in s.own
    requires SameMap(k, s, Taken(k, fill), s) == true && Held(lo, Taken(k, fill), s, p)
    requires Mapping(Taken(k, fill), s, l, t, v, p, MakePte(p, perm)) == true
    ensures Fresh(k, s, l, t, v, p, perm, fill) == true
  {
    FreeTail(k.free);
    forall q ensures Pool(l, t, q) <==> Pool(k, s, q) {
      assert Pool(l, t, q) <==> Pool(Taken(k, fill), s, q) || q == p;
    }
    forall q | 0 <= q < |k.pages| && !Pool(k, s, q) ensures l.pages[q] == k.pages[q] {
      assert !Pool(Taken(k, fill), s, q) && q != p;
    }
    assert !Pool(Taken(k, fill), s, p);
  }

  /** The page could not be mapped and goes back. */
  lemma ReturnedGood(lo: nat, l: Kst, t: Space, p: nat)
    requires Good(lo, l, t) == true && Held(lo, l, t, p)
    ensures Good(lo, Pushed(l, p), t) == true && SameMap(l, t, Pushed(l, p), t) == true
  {
    PushedOk(lo, l, p);
    SameSpace(l.pages, Pushed(l, p).pages, t);
  }

  lemma ReturnedSame(lo: nat, k: Kst, s: Space, l: Kst, t: Space, p: nat, fill: PageData)
    requires k.free != [] && p == k.free[0] && p < |k.pages| && k.pages[p].Free? && p !in s.own
    requires SameMap(k, s, Taken(k, fill), s) == true && Same(Taken(k, fill), s, l, t) == true
    requires p < |l.pages| && SameMap(l, t, Pushed(l, p), t) == true
    ensures Same(k, s, Pushed(l, p), t) == true
  {
    FreeTail(k.free);
    forall q ensures Pool(Pushed(l, p), t, q) <==> Pool(k, s, q) {
      assert Pool(l, t, q) <==> Pool(Taken(k, fill), s, q);
    }
    forall q | 0 <= q < |k.pages| && !Pool(k, s, q) ensures Pushed(l, p).pages[q] == k.pages[q] {
      assert !Pool(Taken(k, fill), s, q) && q != p;
    }
  }

  /* Unmapping one page. */

  /** The page mapped at v goes back to the free list and its entry is zeroed. */
  function Unbound(k: Kst, tab: map<Node, nat>, v: nat, p: nat): Kst
    requires Node(0, v / ENTRIES) in tab && IsTable(k.pages, tab[Node(0, v / ENTRIES)]) && p < |k.pages|
    requires p != tab[Node(0, v / ENTRIES)]
  {
    Pushed(k, p).(pages := SetPages(Pushed(k, p).pages, tab, v, NOTHING))
  }

  lemma UnboundAt(k: Kst, tab: map<Node, nat>, v: nat, p: nat, q: nat)
    requires Node(0, v / ENTRIES) in tab && IsTable(k.pages, tab[Node(0, v / ENTRIES)]) && p < |k.pages|
    requires p != tab[Node(0, v / ENTRIES)] && q < |k.pages| && q != p
    ensures |Unbound(k, tab, v, p).pages| == |k.pages| == |SetPages(k.pages, tab, v, NOTHING)|
    ensures Unbound(k, tab, v, p).pages[q] == SetPages(k.pages, tab, v, NOTHING)[q]
  {}

  lemma UnboundSpace(k: Kst, s: Space, v: nat, p: nat)
    requires SpaceOk(k.pages, s) == true && v < s.top && Valid(Lookup(k.pages, s.tab, v))
    requires p == Lookup(k.pages, s.tab, v).ppn
    requires var a := Node(0, v / ENTRIES); a in s.tab && IsTable(k.pages, s.tab[a]) && p < |k.pages| && p != s.tab[a]
    ensures SpaceOk(Unbound(k, s.tab, v, p).pages, s.(own := s.own - {p})) == true
  {
    var before, after := SetPages(k.pages, s.tab, v, NOTHING), Unbound(k, s.tab, v, p).pages;
    UnmapMem(k.pages, s, v);
    forall q | q < |k.pages| && q >= 0 && q != p ensures after[q] == before[q] {
      UnboundAt(k, s.tab, v, p, q);
    }
    SameSpace(before, after, s.(own := s.own - {p}));
  }

  lemma UnboundFree(lo: nat, k: Kst, s: Space, v: nat, p: nat)
    requires FreeOk(lo, k) == true && lo <= p < |k.pages| && p !in k.free
    requires var a := Node(0, v / ENTRIES);
             a in s.tab && IsTable(k.pages, s.tab[a]) && p != s.tab[a] && s.tab[a] !in k.free
    ensures FreeOk(lo, Unbound(k, s.tab, v, p)) == true
  {
    PushedOk(lo, k, p);
    SameChain(Pushed(k, p).pages, Unbound(k, s.tab, v, p).pages, Some(p), [p] + k.free);
  }

  lemma UnboundGood(lo: nat, k: Kst, s: Space, v: nat)
    requires Good(lo, k, s) == true && v < s.top && Valid(Lookup(k.pages, s.tab, v))
    ensures var p, a := Lookup(k.pages, s.tab, v).ppn, Node(0, v / ENTRIES);
            && a in s.tab && IsTable(k.pages, s.tab[a]) && lo <= p < |k.pages|
            && p != s.tab[a] && p in s.own && s.own[p] == Mem(v)
            && Good(lo, Unbound(k, s.tab, v, p), s.(own := s.own - {p})) == true
  {
    var p, a := Lookup(k.pages, s.tab, v).ppn, Node(0, v / ENTRIES);
    LeafForm(lo, k, s, v);
    assert NodeOk(k.pages, s, a);
    UnboundSpace(k, s, v, p);
    UnboundFree(lo, k, s, v, p);
  }

  /** Exactly virtual page v loses its page. */
  ghost predicate Unmapping(k: Kst, s: Space, l: Kst, t: Space, v: nat) {
    && Moves(k, s, l, t) && Binds(k, s, l, t, v, NOTHING) && SameRoot(s, t)
    && (forall p :: p in t.own && t.own[p].Mem? ==> p in s.own && s.own[p] == t.own[p])
    && (forall p :: p in t.own && t.own[p].Mem? && p < |k.pages| == |l.pages| ==> l.pages[p] == k.pages[p])
  }

  lemma UnboundBinds(lo: nat, k: Kst, s: Space, v: nat, p: nat)
    requires Good(lo, k, s) == true && v < s.top && Valid(Lookup(k.pages, s.tab, v))
    requires p == Lookup(k.pages, s.tab, v).ppn
    requires var a := Node(0, v / ENTRIES); a in s.tab && IsTable(k.pages, s.tab[a]) && p < |k.pages| && p != s.tab[a]
    requires p in s.own && s.own[p] == Mem(v)
    ensures Binds(k, s, Unbound(k, s.tab, v, p), s.(own := s.own - {p}), v, NOTHING) == true
  {
    var l := Unbound(k, s.tab, v, p);
    forall w: nat ensures Lookup(l.pages, s.tab, w) == if w == v then NOTHING else Lookup(k.pages, s.tab, w) {
      SetLookup(k.pages, s, v, NOTHING, w);
      var m := Node(0, w / ENTRIES);
      if m in s.tab { assert NodeOk(k.pages, s, m); }
    }
  }

  /** Page p goes from the space to the free list; besides it only page a of the space is written. */
  lemma FreedMoves(k: Kst, s: Space, l: Kst, t: Space, p: nat, a: nat)
    requires p in s.own && a in s.own && t.own == s.own - {p} && t.top == s.top
    requires l.free == [p] + k.free && |l.pages| == |k.pages|
    requires forall q :: 0 <= q < |k.pages| && q != p && q != a ==> l.pages[q] == k.pages[q]
    ensures Moves(k, s, l, t) == true
  {
    forall q ensures Pool(l, t, q) <==> Pool(k, s, q) {}
    assert Pool(k, s, p) && Pool(k, s, a);
  }

  lemma UnboundMoves(lo: nat, k: Kst, s: Space, v: nat, p: nat)
    requires Good(lo, k, s) == true && Node(0, v / ENTRIES) in s.tab && IsTable(k.pages, s.tab[Node(0, v / ENTRIES)])
    requires p < |k.pages| && p != s.tab[Node(0, v / ENTRIES)] && p in s.own && s.own[p] == Mem(v)
    requires Binds(k, s, Unbound(k, s.tab, v, p), s.(own := s.own - {p}), v, NOTHING) == true
    ensures Unmapping(k, s, Unbound(k, s.tab, v, p), s.(own := s.own - {p}), v) == true
  {
    assert NodeOk(k.pages, s, Node(0, v / ENTRIES));
    FreedMoves(k, s, Unbound(k, s.tab, v, p), s.(own := s.own - {p}), p, s.tab[Node(0, v / ENTRIES)]);
  }

  lemma ForeignUnmaps(lo: nat, k: Kst, s: Space, v: nat)
    requires Good(lo, k, s) == true && v >= s.top && Node(0, v / ENTRIES) in s.tab
    ensures IsTable(k.pages, s.tab[Node(0, v / ENTRIES)])
    ensures Good(lo, Bound(k, s.tab, v, NOTHING), s) == true
    ensures Unmapping(k, s, Bound(k, s.tab, v, NOTHING), s, v) == true
  {
    ForeignGood(lo, k, s, v, NOTHING);
    BoundBinds(lo, k, s, v, NOTHING, s.own);
    assert s.(own := s.own) == s;
  }

  /** The virtual pages from a up to b have lost their entries, and nothing else has happened. */
  ghost predicate Cleared(k: Kst, s: Space, l: Kst, t: Space, a: nat, b: nat) {
    && Moves(k, s, l, t) && SameRoot(s, t)
    && (forall w: nat :: Lookup(l.pages, t.tab, w) == if a <= w < b then NOTHING else Lookup(k.pages, s.tab, w))
    && (forall p :: p in t.own && t.own[p].Mem? ==> p in s.own && s.own[p] == t.own[p])
    && (forall p :: p in t.own && t.own[p].Mem? && p < |k.pages| == |l.pages| ==> l.pages[p] == k.pages[p])
  }

  lemma ClearedStart(lo: nat, k: Kst, s: Space, a: nat)
    requires Good(lo, k, s) == true
    ensures Cleared(k, s, k, s, a, a) == true
  {}

  lemma ClearedNext(k: Kst, s: Space, l: Kst, t: Space, m: Kst, u: Space, a: nat, v: nat, b: nat)
    requires a <= v && b == v + 1 && Cleared(k, s, l, t, a, v) == true && Unmapping(l, t, m, u, v) == true
    ensures Cleared(k, s, m, u, a, b) == true
  {}

  ghost predicate AllMapped(pages: seq<Page>, tab: map<Node, nat>, a: nat, b: nat) {
    forall v :: a <= v < b ==> Valid(Lookup(pages, tab, v))
  }

  lemma AllMappedNext(pages: seq<Page>, tab: map<Node, nat>, a: nat, v: nat, b: nat)
    requires a <= v && b == v + 1 && AllMapped(pages, tab, a, v) == true
    requires Valid(Lookup(pages, tab, v))
    ensures AllMapped(pages, tab, a, b) == true
  {}

  lemma AllMappedFails(pages: seq<Page>, tab: map<Node, nat>, a: nat, v: nat, b: nat)
    requires a <= v < b && !Valid(Lookup(pages, tab, v))
    ensures AllMapped(pages, tab, a, b) == false
  {}

  /** Entries that are still to be cleared are as they were. */
  lemma ClearedAhead(k: Kst, s: Space, l: Kst, t: Space, a: nat, b: nat, v: nat)
    requires Cleared(k, s, l, t, a, b) == true && b <= v
    ensures Lookup(l.pages, t.tab, v) == Lookup(k.pages, s.tab, v)
  {}

  /* Filling a range of virtual pages. */

  /** The permissions and the bytes a virtual page is to have. */
  datatype Want = Want(perm: Perm, data: PageData)

  /** Virtual page w is mapped with the permissions and bytes x asks for. */
  predicate Has(l: Kst, tab: map<Node, nat>, w: nat, x: Want) {
    var e := Lookup(l.pages, tab, w);
    e.perm == x.perm.(v := true) && e.ppn < |l.pages| && l.pages[e.ppn] == Plain(x.data)
  }

  predicate FillOk(k: Kst, s: Space, l: Kst, t: Space, a: nat, want: seq<Want>, w: nat) {
    if a <= w < a + |want| then Lookup(k.pages, s.tab, w) == NOTHING && Has(l, t.tab, w, want[w - a])
    else Lookup(l.pages, t.tab, w) == Lookup(k.pages, s.tab, w)
  }

  /** The virtual pages from a on, unmapped before, are as want says; nothing else has happened to the space. */
  ghost predicate Filling(k: Kst, s: Space, l: Kst, t: Space, a: nat, want: seq<Want>) {
    && Moves(k, s, l, t) && SameRoot(s, t) && SameMem(k, s, l)
    && (forall w: nat :: FillOk(k, s, l, t, a, want, w))
  }

  lemma FillingStart(lo: nat, k: Kst, s: Space, a: nat)
    requires Good(lo, k, s) == true
    ensures Filling(k, s, k, s, a, []) == true
  {}

  lemma MovesTwice(k: Kst, s: Space, l: Kst, t: Space, m: Kst, u: Space)
    requires Moves(k, s, l, t) == true && Moves(l, t, m, u) == true
    ensures Moves(k, s, m, u) == true
  {
    forall p ensures Pool(m, u, p) <==> Pool(k, s, p) { assert Pool(l, t, p) <==> Pool(k, s, p); }
  }

  /** A mapped page keeps its bytes while others are mapped. */
  lemma HasStays(lo: nat, l: Kst, t: Space, m: Kst, u: Space, v: nat, e: Pte, w: nat, x: Want)
    requires Good(lo, l, t) == true && Has(l, t.tab, w, x) && w < t.top && w != v && |l.pages| == |m.pages|
    requires Binds(l, t, m, u, v, e) == true && SameMem(l, t, m) == true
    ensures Has(m, u.tab, w, x)
  {
    LeafForm(lo, l, t, w);
  }

  /** The memory of s is still there when t maps it where s did. */
  lemma SameMemNext(lo: nat, k: Kst, s: Space, l: Kst, t: Space, m: Kst)
    requires Good(lo, k, s) == true && Good(lo, l, t) == true && |l.pages| == |k.pages| == |m.pages| && t.top == s.top
    requires SameMem(k, s, l) == true && SameMem(l, t, m) == true
    requires forall w: nat :: w < s.top && Valid(Lookup(k.pages, s.tab, w)) ==>
      Lookup(l.pages, t.tab, w) == Lookup(k.pages, s.tab, w)
    ensures SameMem(k, s, m) == true
  {
    forall p | p in s.own && s.own[p].Mem? && p < |k.pages| ensures m.pages[p] == k.pages[p] {
      assert RoleOk(k.pages, s, p);
      LeafForm(lo, l, t, s.own[p].v);
    }
  }

  lemma FillingSameMem(lo: nat, k: Kst, s: Space, l: Kst, t: Space, m: Kst, a: nat, want: seq<Want>)
    requires Good(lo, k, s) == true && Good(lo, l, t) == true && Filling(k, s, l, t, a, want) == true
    requires SameMem(l, t, m) == true && |l.pages| == |m.pages|
    ensures SameMem(k, s, m) == true
  {
    forall w: nat | w < s.top && Valid(Lookup(k.pages, s.tab, w))
      ensures Lookup(l.pages, t.tab, w) == Lookup(k.pages, s.tab, w)
    {
      assert FillOk(k, s, l, t, a, want, w);
    }
    SameMemNext(lo, k, s, l, t, m);
  }

  lemma FillingNext(lo: nat, k: Kst, s: Space, l: Kst, t: Space, m: Kst, u: Space, a: nat, want: seq<Want>, v: nat,
                    p: nat, x: Want)
    requires Good(lo, k, s) == true && Good(lo, l, t) == true && Filling(k, s, l, t, a, want) == true
    requires v == a + |want| && v < s.top && Fresh(l, t, m, u, v, p, x.perm, x.data) == true
    requires !Valid(Lookup(l.pages, t.tab, v))
    ensures Filling(k, s, m, u, a, want + [x]) == true
  {
    MovesTwice(k, s, l, t, m, u);
    LeafForm(lo, k, s, v);
    FillingSameMem(lo, k, s, l, t, m, a, want);
    forall w: nat ensures FillOk(k, s, m, u, a, want + [x], w) {
      assert FillOk(k, s, l, t, a, want, w);
      if a <= w < v { HasStays(lo, l, t, m, u, v, MakePte(p, x.perm), w, want[w - a]); }
    }
  }

  /** Undoing: the range is cleared again. */
  lemma FillingUndone(lo: nat, k: Kst, s: Space, l: Kst, t: Space, m: Kst, u: Space, a: nat, want: seq<Want>, b: nat)
    requires Good(lo, k, s) == true && Good(lo, l, t) == true && Good(lo, m, u) == true
    requires Filling(k, s, l, t, a, want) == true && b == a + |want| && Cleared(l, t, m, u, a, b) == true
    ensures Same(k, s, m, u) == true
  {
    MovesTwice(k, s, l, t, m, u);
    forall w: nat ensures Lookup(m.pages, u.tab, w) == Lookup(k.pages, s.tab, w) {
      assert FillOk(k, s, l, t, a, want, w);
    }
    forall p | p in s.own && s.own[p].Mem? && p < |k.pages| ensures m.pages[p] == k.pages[p] {
      assert RoleOk(k.pages, s, p);
      LeafForm(lo, l, t, s.own[p].v);
      LeafForm(lo, m, u, s.own[p].v);
    }
  }

  lemma FillingMapped(k: Kst, s: Space, l: Kst, t: Space, a: nat, want: seq<Want>, b: nat)
    requires Filling(k, s, l, t, a, want) == true && b == a + |want|
    ensures AllMapped(l.pages, t.tab, a, b) == true
  {
    forall v | a <= v < b ensures Valid(Lookup(l.pages, t.tab, v)) {
      assert FillOk(k, s, l, t, a, want, v);
    }
  }

  /** A failed step, then the undoing. */
  lemma SameFilling(k: Kst, s: Space, l: Kst, t: Space, m: Kst, u: Space, a: nat, want: seq<Want>, lo: nat)
    requires Good(lo, k, s) == true && Good(lo, l, t) == true && a + |want| <= s.top
    requires Filling(k, s, l, t, a, want) == true && Same(l, t, m, u) == true
    ensures Filling(k, s, m, u, a, want) == true
  {
    MovesTwice(k, s, l, t, m, u);
    FillingSameMem(lo, k, s, l, t, m, a, want);
    forall w: nat ensures FillOk(k, s, m, u, a, want, w) {
      assert FillOk(k, s, l, t, a, want, w);
      if w < t.top { LeafForm(lo, l, t, w); }
    }
  }

  /** PGROUNDUP in pages. */
  function Up(x: nat): nat { (x + PGSIZE - 1) / PGSIZE }

  /** So many pages hold x bytes, and fewer do not. */
  lemma UpLeast(x: nat)
    ensures x <= 4096 * Up(x) < x + 4096
  {}

  const RWXU := Perm(false, true, true, true, true, 0)

  function ZeroPage(): PageData { Data(seq(PGSIZE, _ => 0)) }

  function Zeroes(n: nat): (r: seq<Want>)
    ensures |r| == n
  {
    seq(n, _ => Want(RWXU, ZeroPage()))
  }

  lemma ZeroesNext(n: nat, m: nat)
    requires m == n + 1
    ensures Zeroes(n) + [Want(RWXU, ZeroPage())] == Zeroes(m)
  {}

  lemma UpAtLeast(v: nat, x: nat, b: nat)
    requires b == Up(x)
    ensures v * PGSIZE < x <==> v < b
  {}

  lemma UpMono(x: nat, y: nat)
    requires x <= y
    ensures Up(x) <= Up(y)
  {}

  lemma GrowNext(lo: nat, k: Kst, s: Space, l: Kst, t: Space, m: Kst, u: Space, a: nat, n: nat, n1: nat, v: nat, p: nat)
    requires Good(lo, k, s) == true && Good(lo, l, t) == true
    requires Filling(k, s, l, t, a, Zeroes(n)) == true && n1 == n + 1
    requires v == a + n && v < s.top && Fresh(l, t, m, u, v, p, RWXU, ZeroPage()) == true
    requires !Valid(Lookup(l.pages, t.tab, v))
    ensures Filling(k, s, m, u, a, Zeroes(n1)) == true && u.top == s.top && ROOT in u.tab && u.tab[ROOT] == t.tab[ROOT]
  {
    FillingNext(lo, k, s, l, t, m, u, a, Zeroes(n), v, p, Want(RWXU, ZeroPage()));
    ZeroesNext(n, n1);
  }

  /* Two spaces. */

  /** Space o has no page that is free or belongs to s. */
  ghost predicate Apart(k: Kst, s: Space, o: Space) {
    forall p :: p in o.own ==> !Pool(k, s, p)
  }

  ghost predicate Untouched(k: Kst, l: Kst, o: Space) {
    |l.pages| == |k.pages| && forall p :: p in o.own && p < |k.pages| ==> l.pages[p] == k.pages[p]
  }

  /** Work on s leaves o alone. */
  lemma OtherGood(lo: nat, k: Kst, s: Space, l: Kst, t: Space, o: Space)
    requires Good(lo, k, o) == true && FreeOk(lo, l) == true && Moves(k, s, l, t) == true && Apart(k, s, o) == true
    ensures Good(lo, l, o) == true && Apart(l, t, o) == true && Untouched(k, l, o) == true
    ensures SameMap(k, o, l, o) == true
  {
    forall p | p in o.own ensures !Pool(l, t, p) { assert Pool(l, t, p) <==> Pool(k, s, p); }
    SameSpace(k.pages, l.pages, o);
    forall p | p in l.free ensures p !in o.own { assert Pool(l, t, p); }
  }

  lemma UntouchedTwice(k: Kst, l: Kst, m: Kst, o: Space)
    requires Untouched(k, l, o) == true && Untouched(l, m, o) == true
    ensures Untouched(k, m, o) == true
  {}

  /** The bytes mapped at virtual page w. */
  function PageOf(pages: seq<Page>, tab: map<Node, nat>, w: nat): PageData {
    var p := Lookup(pages, tab, w).ppn;
    if p < |pages| && pages[p].Plain? && |pages[p].data.bytes| == PGSIZE then pages[p].data else ZeroPage()
  }

  function WantOf(k: Kst, o: Space, w: nat): Want { Want(Lookup(k.pages, o.tab, w).perm, PageOf(k.pages, o.tab, w)) }

  /** What a copy of the first n virtual pages of o is to hold. */
  function Copies(k: Kst, o: Space, n: nat): (r: seq<Want>)
    ensures |r| == n
  {
    seq(n, w requires 0 <= w < n => WantOf(k, o, w))
  }

  lemma CopiesNext(k: Kst, o: Space, n: nat, m: nat)
    requires m == n + 1
    ensures Copies(k, o, n) + [WantOf(k, o, n)] == Copies(k, o, m) && Copies(k, o, 0) == []
  {}

  /** Memory below top that is mapped and untouched holds what it held. */
  lemma SameWant(lo: nat, k: Kst, l: Kst, o: Space, w: nat)
    requires Good(lo, k, o) == true && Untouched(k, l, o) == true && w < o.top && Valid(Lookup(k.pages, o.tab, w))
    ensures Lookup(l.pages, o.tab, w) == Lookup(k.pages, o.tab, w) && WantOf(l, o, w) == WantOf(k, o, w)
    ensures Maps(MakePte(0, WantOf(k, o, w).perm))
  {
    LeafForm(lo, k, o, w);
    SameSpace(k.pages, l.pages, o);
  }

  ghost predicate AllFree(pages: seq<Page>, tab: map<Node, nat>, a: nat, b: nat) {
    forall v :: a <= v < b ==> !Valid(Lookup(pages, tab, v))
  }

  lemma AllFreeAt(pages: seq<Page>, tab: map<Node, nat>, a: nat, b: nat, v: nat)
    requires a <= v < b && Valid(Lookup(pages, tab, v))
    ensures AllFree(pages, tab, a, b) == false
  {}

  lemma FillingAhead(k: Kst, s: Space, l: Kst, t: Space, a: nat, want: seq<Want>, v: nat)
    requires Filling(k, s, l, t, a, want) == true && a + |want| <= v
    ensures Lookup(l.pages, t.tab, v) == Lookup(k.pages, s.tab, v)
  {
    assert FillOk(k, s, l, t, a, want, v);
  }

  lemma CopyFails(lo: nat, k: Kst, s: Space, l: Kst, t: Space, m: Kst, u: Space, o: Space, v: nat)
    requires Good(lo, k, s) == true && Good(lo, l, t) == true && v <= s.top
    requires Filling(k, s, l, t, 0, Copies(k, o, v)) == true && Same(l, t, m, u) == true
    ensures Filling(k, s, m, u, 0, Copies(k, o, v)) == true
  {
    SameFilling(k, s, l, t, m, u, 0, Copies(k, o, v), lo);
  }

  lemma CopyNext(lo: nat, k: Kst, s: Space, l: Kst, t: Space, m: Kst, u: Space, o: Space, v: nat, p: nat)
    requires Good(lo, k, s) == true && Good(lo, l, t) == true && Good(lo, m, u) == true && v < s.top
    requires Filling(k, s, l, t, 0, Copies(k, o, v)) == true && !Valid(Lookup(l.pages, t.tab, v))
    requires Fresh(l, t, m, u, v, p, WantOf(k, o, v).perm, WantOf(k, o, v).data) == true
    requires Good(lo, l, o) == true && Apart(l, t, o) == true && Untouched(k, l, o) == true
    ensures Filling(k, s, m, u, 0, Copies(k, o, v + 1)) == true
    ensures Good(lo, m, o) == true && Apart(m, u, o) == true && Untouched(k, m, o) == true
  {
    FillingNext(lo, k, s, l, t, m, u, 0, Copies(k, o, v), v, p, WantOf(k, o, v));
    CopiesNext(k, o, v, v + 1);
    OtherGood(lo, l, t, m, u, o);
    UntouchedTwice(k, l, m, o);
  }

  /* freewalk */

  function Child(n: Node, i: nat): Node
    requires n.level > 0
  {
    Node(n.level - 1, n.k * ENTRIES + i)
  }

  lemma ChildOf(n: Node, i: nat)
    requires n.level > 0 && i < ENTRIES
    ensures Parent(Child(n, i)) == n && Child(n, i).k % ENTRIES == i
  {}

  /** The first i entries of the table of n are zero. */
  ghost predicate Emptied(k: Kst, s: Space, n: Node, i: nat) {
    && n in s.tab && IsTable(k.pages, s.tab[n]) && i <= ENTRIES
    && forall j :: 0 <= j < i ==> k.pages[s.tab[n]].pte[j] == NOTHING
  }

  /** Tables below level have been freed, and nothing that is mapped has changed. */
  ghost predicate Pruned(k: Kst, s: Space, l: Kst, t: Space, level: nat) {
    Moves(k, s, l, t) && SameMap(k, s, l, t) && SameMem(k, s, l) && KeepsFrom(s, t, level) && SameAbove(k, s, l, level)
  }

  /** No tables are gone from the level on, and no memory. */
  ghost predicate KeepsFrom(s: Space, t: Space, level: nat) {
    && (forall m :: m in t.tab ==> m in s.tab && t.tab[m] == s.tab[m])
    && (forall m :: m in s.tab && m.level >= level ==> m in t.tab)
    && (forall p :: p in s.own && s.own[p].Mem? ==> p in t.own && t.own[p] == s.own[p])
  }

  /** The tables above the level have not changed. */
  ghost predicate SameAbove(k: Kst, s: Space, l: Kst, level: nat) {
    forall m :: m in s.tab && m.level > level && s.tab[m] < |k.pages| == |l.pages| ==>
      l.pages[s.tab[m]] == k.pages[s.tab[m]]
  }

  lemma PrunedStart(k: Kst, s: Space, level: nat)
    ensures Pruned(k, s, k, s, level) == true
  {}

  lemma PrunedNext(k: Kst, s: Space, l: Kst, t: Space, m: Kst, u: Space, level: nat, deeper: nat)
    requires Pruned(k, s, l, t, level) == true && Pruned(l, t, m, u, deeper) == true && deeper <= level
    ensures Pruned(k, s, m, u, level) == true
  {
    MovesTwice(k, s, l, t, m, u);
  }

  /** kfree of the emptied table c, and the zeroed entry in its parent. */
  function Unlinked(k: Kst, s: Space, c: Node): Kst
    requires c in s.tab && s.tab[c] < |k.pages| && c.level < 2 && Parent(c) in s.tab
    requires IsTable(k.pages, s.tab[Parent(c)]) && s.tab[c] != s.tab[Parent(c)]
  {
    var l := Pushed(k, s.tab[c]);
    l.(pages := Linked(l.pages, s.tab[Parent(c)], c.k % ENTRIES, NOTHING))
  }

  lemma UnlinkedDrop(lo: nat, k: Kst, s: Space, c: Node)
    requires Good(lo, k, s) == true && c.level < 2 && Emptied(k, s, c, ENTRIES) == true
    ensures Parent(c) in s.tab && s.tab[c] < |k.pages| && IsTable(k.pages, s.tab[Parent(c)])
    ensures s.tab[c] != s.tab[Parent(c)]
    ensures CanDrop(k.pages, Unlinked(k, s, c).pages, s, c) == true
  {
    assert NodeOk(k.pages, s, c) && NodeOk(k.pages, s, Parent(c));
    forall m | m in s.tab && m.level < 2 ensures Parent(m) != c {
      assert LinkOk(k.pages, s.tab, m);
    }
    forall v: nat | v / ENTRIES == c.k && c.level == 0 ensures Lookup(k.pages, s.tab, v) == NOTHING {
      assert c == Node(0, v / ENTRIES);
    }
  }

  lemma UnlinkedFree(lo: nat, k: Kst, s: Space, c: Node)
    requires FreeOk(lo, k) == true && c in s.tab && lo <= s.tab[c] < |k.pages|
    requires s.tab[c] !in k.free && c.level < 2 && Parent(c) in s.tab
    requires IsTable(k.pages, s.tab[Parent(c)]) && s.tab[c] != s.tab[Parent(c)] && s.tab[Parent(c)] !in k.free
    ensures FreeOk(lo, Unlinked(k, s, c)) == true
  {
    PushedOk(lo, k, s.tab[c]);
    SameChain(Pushed(k, s.tab[c]).pages, Unlinked(k, s, c).pages, Some(s.tab[c]), [s.tab[c]] + k.free);
  }

  lemma UnlinkedGood(lo: nat, k: Kst, s: Space, c: Node)
    requires Good(lo, k, s) == true && c.level < 2 && Emptied(k, s, c, ENTRIES) == true
    ensures Parent(c) in s.tab && s.tab[c] < |k.pages| && IsTable(k.pages, s.tab[Parent(c)])
    ensures s.tab[c] != s.tab[Parent(c)]
    ensures Good(lo, Unlinked(k, s, c), DropTable(s, c)) == true
  {
    UnlinkedDrop(lo, k, s, c);
    assert NodeOk(k.pages, s, c) && NodeOk(k.pages, s, Parent(c));
    DropTableKeeps(k.pages, Unlinked(k, s, c).pages, s, c);
    UnlinkedFree(lo, k, s, c);
  }

  lemma UnlinkedMap(lo: nat, k: Kst, s: Space, c: Node)
    requires Good(lo, k, s) == true && c.level < 2 && Emptied(k, s, c, ENTRIES) == true && Parent(c) in s.tab
    requires s.tab[c] < |k.pages| && IsTable(k.pages, s.tab[Parent(c)]) && s.tab[c] != s.tab[Parent(c)]
    ensures SameMap(k, s, Unlinked(k, s, c), DropTable(s, c)) == true
  {
    UnlinkedDrop(lo, k, s, c);
    forall v: nat ensures Lookup(Unlinked(k, s, c).pages, DropTable(s, c).tab, v) == Lookup(k.pages, s.tab, v) {
      DropLookup(k.pages, Unlinked(k, s, c).pages, s, c, v);
    }
  }

  lemma UnlinkedPruned(k: Kst, s: Space, c: Node)
    requires SpaceOk(k.pages, s) == true && c.level < 2 && c in s.tab && Parent(c) in s.tab
    requires s.tab[c] < |k.pages| && IsTable(k.pages, s.tab[Parent(c)]) && s.tab[c] != s.tab[Parent(c)]
    requires SameMap(k, s, Unlinked(k, s, c), DropTable(s, c)) == true
    ensures Pruned(k, s, Unlinked(k, s, c), DropTable(s, c), c.level + 1) == true
  {
    UnlinkedMoves(k, s, c);
    DropKeeps(s, c);
    UnlinkedAbove(k, s, c);
  }

  lemma DropKeeps(s: Space, c: Node)
    requires c in s.tab && s.tab[c] in s.own && s.own[s.tab[c]] == Tab(c)
    ensures KeepsFrom(s, DropTable(s, c), c.level + 1) == true
  {}

  lemma UnlinkedAbove(k: Kst, s: Space, c: Node)
    requires SpaceOk(k.pages, s) == true && c.level < 2 && c in s.tab && Parent(c) in s.tab
    requires s.tab[c] < |k.pages| && IsTable(k.pages, s.tab[Parent(c)]) && s.tab[c] != s.tab[Parent(c)]
    ensures SameAbove(k, s, Unlinked(k, s, c), c.level + 1) == true
  {
    forall m | m in s.tab && m.level > c.level + 1 && s.tab[m] < |k.pages|
      ensures Unlinked(k, s, c).pages[s.tab[m]] == k.pages[s.tab[m]]
    {
      UnlinkedElsewhere(k, s, c, m);
    }
  }

  lemma UnlinkedMoves(k: Kst, s: Space, c: Node)
    requires SpaceOk(k.pages, s) == true && c.level < 2 && c in s.tab && Parent(c) in s.tab
    requires s.tab[c] < |k.pages| && IsTable(k.pages, s.tab[Parent(c)]) && s.tab[c] != s.tab[Parent(c)]
    ensures Moves(k, s, Unlinked(k, s, c), DropTable(s, c)) == true && SameMem(k, s, Unlinked(k, s, c)) == true
    ensures s.tab[c] in s.own && s.own[s.tab[c]] == Tab(c)
  {
    assert NodeOk(k.pages, s, c) && NodeOk(k.pages, s, Parent(c));
    FreedMoves(k, s, Unlinked(k, s, c), DropTable(s, c), s.tab[c], s.tab[Parent(c)]);
  }

  lemma UnlinkedElsewhere(k: Kst, s: Space, c: Node, m: Node)
    requires SpaceOk(k.pages, s) == true && c.level < 2 && c in s.tab && Parent(c) in s.tab
    requires m in s.tab && m.level > c.level + 1
    requires s.tab[c] < |k.pages| && IsTable(k.pages, s.tab[Parent(c)]) && s.tab[c] != s.tab[Parent(c)]
    ensures s.tab[m] < |k.pages| && Unlinked(k, s, c).pages[s.tab[m]] == k.pages[s.tab[m]]
  {
    assert NodeOk(k.pages, s, c) && NodeOk(k.pages, s, Parent(c)) && NodeOk(k.pages, s, m);
  }

  ghost predicate NoLeaves(k: Kst, s: Space) {
    forall v: nat :: Lookup(k.pages, s.tab, v) == NOTHING
  }

  lemma NoLeavesSame(k: Kst, s: Space, l: Kst, t: Space)
    requires SameMap(k, s, l, t) == true
    ensures NoLeaves(k, s) == NoLeaves(l, t)
  {}

  lemma SomeLeaf(k: Kst, s: Space, v: nat)
    requires Lookup(k.pages, s.tab, v) != NOTHING
    ensures NoLeaves(k, s) == false
  {}

  /** An entry that is not valid is zero. */
  lemma EmptiedNext(lo: nat, k: Kst, s: Space, n: Node, i: nat, i1: nat)
    requires Good(lo, k, s) == true && Emptied(k, s, n, i) == true && i < ENTRIES && i1 == i + 1 && n in s.tab
    requires IsTable(k.pages, s.tab[n]) && !Valid(k.pages[s.tab[n]].pte[i])
    ensures Emptied(k, s, n, i1) == true
  {
    EntryAt(lo, k, s, n, i);
  }

  lemma LeafSeen(lo: nat, k: Kst, s: Space, n: Node, i: nat)
    requires Good(lo, k, s) == true && n in s.tab && i < ENTRIES && IsTable(k.pages, s.tab[n])
    requires Maps(k.pages[s.tab[n]].pte[i])
    ensures NoLeaves(k, s) == false
  {
    EntryAt(lo, k, s, n, i);
    SomeLeaf(k, s, n.k * ENTRIES + i);
  }

  /** What freewalk knows of its table n when the subtree at c, entry i, is emptied. */
  lemma PruneHere(lo: nat, k: Kst, s: Space, l: Kst, t: Space, n: Node, c: Node, i: nat)
    requires Good(lo, k, s) == true && Emptied(k, s, n, i) == true && i < ENTRIES && n.level > 0 && c == Child(n, i)
    requires Good(lo, l, t) == true && Pruned(k, s, l, t, c.level) == true && Emptied(l, t, c, ENTRIES) == true
    ensures c in t.tab && t.tab[c] < |l.pages| && n in t.tab && t.tab[n] == s.tab[n]
    ensures Parent(c) == n && c.k % ENTRIES == i
    ensures c.level < 2 && IsTable(l.pages, t.tab[n]) && t.tab[c] != t.tab[n] && l.pages[t.tab[n]] == k.pages[s.tab[n]]
  {
    ChildOf(n, i);
    assert NodeOk(k.pages, s, n);
    assert NodeOk(l.pages, t, c) && NodeOk(l.pages, t, n);
  }

  lemma PruneEmpties(k: Kst, s: Space, l: Kst, t: Space, n: Node, c: Node, i: nat)
    requires Emptied(k, s, n, i) == true && i < ENTRIES && c in t.tab && t.tab[c] < |l.pages|
    requires n in t.tab && t.tab[n] == s.tab[n]
    requires Parent(c) == n && c != n && c.k % ENTRIES == i && c.level < 2
    requires IsTable(l.pages, t.tab[n]) && t.tab[c] != t.tab[n]
    requires l.pages[t.tab[n]] == k.pages[s.tab[n]]
    ensures Emptied(Unlinked(l, t, c), DropTable(t, c), n, i + 1) == true
  {}

  /** One entry of freewalk that leads to a table: the subtree is gone and the entry is zero. */
  lemma PruneStep(lo: nat, k: Kst, s: Space, l: Kst, t: Space, n: Node, c: Node, i: nat, i1: nat)
    requires i1 == i + 1
    requires Good(lo, k, s) == true && Emptied(k, s, n, i) == true && i < ENTRIES && n.level > 0 && c == Child(n, i)
    requires Good(lo, l, t) == true && Pruned(k, s, l, t, c.level) == true && Emptied(l, t, c, ENTRIES) == true
    ensures c in t.tab && t.tab[c] < |l.pages| && n in t.tab && t.tab[n] == s.tab[n]
    ensures Parent(c) == n && c.k % ENTRIES == i
    ensures c.level < 2 && IsTable(l.pages, t.tab[n]) && t.tab[c] != t.tab[n]
    ensures Good(lo, Unlinked(l, t, c), DropTable(t, c)) == true
    ensures Pruned(k, s, Unlinked(l, t, c), DropTable(t, c), n.level) == true
    ensures Emptied(Unlinked(l, t, c), DropTable(t, c), n, i1) == true
  {
    PruneHere(lo, k, s, l, t, n, c, i);
    PruneEmpties(k, s, l, t, n, c, i);
    UnlinkedGood(lo, l, t, c);
    UnlinkedMap(lo, l, t, c);
    UnlinkedPruned(l, t, c);
    PrunedUp(k, s, l, t, c.level, n.level);
    PrunedNext(k, s, l, t, Unlinked(l, t, c), DropTable(t, c), n.level, n.level);
  }

  lemma PrunedUp(k: Kst, s: Space, l: Kst, t: Space, level: nat, higher: nat)
    requires Pruned(k, s, l, t, level) == true && level <= higher
    ensures Pruned(k, s, l, t, higher) == true
  {}

  /** The entry freewalk reads at index i of the table of n. */
  lemma EntryAt(lo: nat, k: Kst, s: Space, n: Node, i: nat)
    requires Good(lo, k, s) == true && n in s.tab && i < ENTRIES
    ensures IsTable(k.pages, s.tab[n]) && n.level <= 2
    ensures n.level > 0 ==>
      k.pages[s.tab[n]].pte[i] == if Child(n, i) in s.tab then Pointer(s.tab[Child(n, i)]) else NOTHING
    ensures n.level == 0 ==> k.pages[s.tab[n]].pte[i] == Lookup(k.pages, s.tab, n.k * ENTRIES + i)
    ensures n.level == 0 ==> k.pages[s.tab[n]].pte[i] == NOTHING || Maps(k.pages[s.tab[n]].pte[i])
  {
    assert NodeOk(k.pages, s, n);
    if n.level > 0 {
      ChildOf(n, i);
      assert LinkOk(k.pages, s.tab, Child(n, i));
    } else {
      assert (n.k * ENTRIES + i) / ENTRIES == n.k && (n.k * ENTRIES + i) % ENTRIES == i;
      LeafForm(lo, k, s, n.k * ENTRIES + i);
    }
  }

  /* Mapping pages that the space does not own. */

  /** Virtual pages a to b map the pages from p on, and nothing else has happened. */
  ghost predicate Ranged(k: Kst, s: Space, l: Kst, t: Space, a: nat, b: nat, p: nat, perm: Perm) {
    && Moves(k, s, l, t) && SameMem(k, s, l) && SameRoot(s, t)
    && (forall w: nat :: Lookup(l.pages, t.tab, w) ==
          if a <= w < b then MakePte(p + (w - a), perm) else Lookup(k.pages, s.tab, w))
  }

  lemma RangedStart(lo: nat, k: Kst, s: Space, a: nat, p: nat, perm: Perm)
    requires Good(lo, k, s) == true
    ensures Ranged(k, s, k, s, a, a, p, perm) == true
  {}

  lemma RangedSame(k: Kst, s: Space, l: Kst, t: Space, m: Kst, u: Space, a: nat, b: nat, p: nat, perm: Perm, lo: nat)
    requires Good(lo, k, s) == true && Good(lo, l, t) == true && a >= s.top
    requires Ranged(k, s, l, t, a, b, p, perm) == true && Same(l, t, m, u) == true
    ensures Ranged(k, s, m, u, a, b, p, perm) == true
  {
    MovesTwice(k, s, l, t, m, u);
    SameMemNext(lo, k, s, l, t, m);
  }

  lemma RangedAhead(k: Kst, s: Space, l: Kst, t: Space, a: nat, b: nat, p: nat, perm: Perm, v: nat)
    requires Ranged(k, s, l, t, a, b, p, perm) == true && b <= v
    ensures Lookup(l.pages, t.tab, v) == Lookup(k.pages, s.tab, v)
  {}

  /** The store of a foreign entry where walk has arrived. */
  lemma ForeignAfterWalk(lo: nat, k: Kst, s: Space, l: Kst, t: Space, v: nat, e: Pte)
    requires Good(lo, k, s) == true && Good(lo, l, t) == true && Grew(k, s, l, t) == true
    requires v >= s.top && t.top == s.top
    requires Node(0, v / ENTRIES) in t.tab && Maps(e)
    ensures IsTable(l.pages, t.tab[Node(0, v / ENTRIES)]) && Good(lo, Bound(l, t.tab, v, e), t) == true
    ensures Ranged(k, s, Bound(l, t.tab, v, e), t, v, v + 1, e.ppn, e.perm) == true
  {
    ForeignGood(lo, l, t, v, e);
    var m := Bound(l, t.tab, v, e);
    BoundBinds(lo, l, t, v, e, t.own);
    assert t.(own := t.own) == t;
    GrewMoves(k, s, l, t);
    GrewRoot(lo, k, s, l, t);
    MovesTwice(k, s, l, t, m, t);
    BindsAfter(k, s, l, t, m, t, v, e);
    SameMemAfter(k, s, l, t, m);
    RangedOne(k, s, m, t, v, e);
  }

  lemma RangedOne(k: Kst, s: Space, l: Kst, t: Space, v: nat, e: Pte)
    requires Moves(k, s, l, t) == true && SameRoot(s, t) && Binds(k, s, l, t, v, e) == true
    requires SameMem(k, s, l) == true && Maps(e)
    ensures Ranged(k, s, l, t, v, v + 1, e.ppn, e.perm) == true
  {}

  lemma RangedNext(lo: nat, k: Kst, s: Space, l: Kst, t: Space, m: Kst, u: Space, a: nat, v: nat, b: nat, p: nat,
                   perm: Perm)
    requires Good(lo, k, s) == true && Good(lo, l, t) == true && s.top <= a <= v && b == v + 1
    requires Ranged(k, s, l, t, a, v, p, perm) == true
    requires Ranged(l, t, m, u, v, b, p + (v - a), perm.(v := true)) == true
    ensures Ranged(k, s, m, u, a, b, p, perm) == true
  {
    MovesTwice(k, s, l, t, m, u);
    SameMemNext(lo, k, s, l, t, m);
  }

  /* A whole space comes and goes. */

  function Empty(top: nat): Space { Space(map[], map[], top) }

  function NewSpace(p: nat, top: nat): Space { Space(map[ROOT := p], map[p := Tab(ROOT)], top) }

  /** uvmcreate: a table of zeros. */
  lemma NewSpaceGood(lo: nat, k: Kst, top: nat)
    requires FreeOk(lo, k) == true && k.free != []
    ensures k.free[0] < |k.pages| && k.pages[k.free[0]].Free?
    ensures var p := k.free[0]; var l, s := Popped(k).(pages := Popped(k).pages[p := ZeroTable()]), NewSpace(p, top);
            Good(lo, l, s) == true && NoLeaves(l, s) == true && Moves(k, Empty(top), l, s) == true
  {
    var p := k.free[0];
    PoppedOk(lo, k);
    FreeTail(k.free);
    var l, s := Popped(k).(pages := Popped(k).pages[p := ZeroTable()]), NewSpace(p, top);
    SameChain(Popped(k).pages, l.pages, l.head, l.free);
    forall v: nat ensures MemOk(l.pages, s, v) && Lookup(l.pages, s.tab, v) == NOTHING {}
    forall n: Node ensures LinkOk(l.pages, s.tab, n) {}
    assert NodeOk(l.pages, s, ROOT) && RoleOk(l.pages, s, p);
    forall q ensures Pool(l, s, q) <==> Pool(k, Empty(top), q) {}
  }

  lemma EmptiedChildless(lo: nat, k: Kst, s: Space, n: Node)
    requires Good(lo, k, s) == true && Emptied(k, s, n, ENTRIES) == true
    ensures Childless(s.tab, n) == true
  {
    forall m | m in s.tab && m.level < 2 ensures Parent(m) != n {
      assert LinkOk(k.pages, s.tab, m);
    }
  }

  /** Every table but the root lies under a child of the root. */
  lemma UnderRoot(lo: nat, k: Kst, s: Space, m: Node)
    requires Good(lo, k, s) == true
    ensures m in s.tab && m != ROOT ==>
              var c := if m.level == 0 then Parent(m) else m;
              c in s.tab && c.level == 1 && Parent(c) == ROOT
  {
    if m in s.tab {
      assert NodeOk(k.pages, s, m);
      if m.level == 0 { assert NodeOk(k.pages, s, Parent(m)); }
      var c := if m.level == 0 then Parent(m) else m;
      if c.level == 1 { assert NodeOk(k.pages, s, Parent(c)); }
    }
  }

  /** The table a page of the space is or hangs from. */
  function NodeFor(s: Space, p: nat): Node
    requires p in s.own
  {
    match s.own[p]
    case Tab(n) => n
    case Mem(v) => Node(0, v / ENTRIES)
  }

  lemma NodeForIn(lo: nat, k: Kst, s: Space, p: nat)
    requires Good(lo, k, s) == true && p in s.own
    ensures NodeFor(s, p) in s.tab && (s.own[p].Tab? ==> s.tab[NodeFor(s, p)] == p)
  {
    assert RoleOk(k.pages, s, p);
  }

  /** When the root is empty it is the only page left. */
  lemma LastTable(lo: nat, k: Kst, s: Space, p: nat)
    requires Good(lo, k, s) == true && Emptied(k, s, ROOT, ENTRIES) == true && p in s.own
    ensures p == s.tab[ROOT]
  {
    EmptiedChildless(lo, k, s, ROOT);
    NodeForIn(lo, k, s, p);
    UnderRoot(lo, k, s, NodeFor(s, p));
  }

  /** freewalk of the root: every page of the space is free. */
  lemma AllFreed(lo: nat, k: Kst, s: Space, l: Kst, u: Space)
    requires Good(lo, l, u) == true && Pruned(k, s, l, u, 2) == true && Emptied(l, u, ROOT, ENTRIES) == true
    requires ROOT in u.tab && u.tab[ROOT] < |l.pages|
    ensures FreeOk(lo, Pushed(l, u.tab[ROOT])) == true && Moves(k, s, Pushed(l, u.tab[ROOT]), Empty(s.top)) == true
  {
    var p := u.tab[ROOT];
    assert NodeOk(l.pages, u, ROOT);
    PushedOk(lo, l, p);
    forall q | q in u.own ensures q == p { LastTable(lo, l, u, q); }
    LastMoves(k, s, l, u, p);
  }

  lemma LastMoves(k: Kst, s: Space, l: Kst, u: Space, p: nat)
    requires Moves(k, s, l, u) == true && p in u.own && p < |l.pages| && forall q :: q in u.own ==> q == p
    ensures Moves(k, s, Pushed(l, p), Empty(s.top)) == true
  {
    forall q ensures Pool(Pushed(l, p), Empty(s.top), q) <==> Pool(k, s, q) {
      assert Pool(l, u, q) <==> Pool(k, s, q);
    }
    assert Pool(l, u, p);
  }

  lemma ClearedNoLeaves(k: Kst, s: Space, l: Kst, t: Space, b: nat)
    requires Cleared(k, s, l, t, 0, b) == true && (forall v: nat :: v >= b ==> Lookup(k.pages, s.tab, v) == NOTHING)
    ensures NoLeaves(l, t) == true
  {}

  lemma ClearedMoves(k: Kst, s: Space, l: Kst, t: Space, a: nat, b: nat, m: Kst, u: Space)
    requires Cleared(k, s, l, t, a, b) == true && Moves(l, t, m, u) == true
    ensures Moves(k, s, m, u) == true
  {
    MovesTwice(k, s, l, t, m, u);
  }

  /** mappages: done, no page for a table, or the panic for a page that is already mapped. */
  datatype Mapped = Ok | NoMemory | Panic

  class Kernel {
    const lo: nat
    var pages: seq<Page>
    var head: Option<nat>
    ghost var free: seq<nat>

    ghost function Now(): Kst
      reads this
    {
      Kst(pages, head, free)
    }

    /** kinit: freerange gives every page from lo to the end of memory to the free list. */
    constructor Kinit(lo: nat, pages: seq<Page>)
      ensures this.lo == lo && |this.pages| == |pages| && FreeOk(lo, Now()) == true
      ensures forall p :: p in free <==> lo <= p < |pages|
    {
      this.lo, this.pages, head, free := lo, pages, None, [];
      new;
      var p := lo;
      while p < |this.pages|
        invariant lo <= p && |this.pages| == |pages| && FreeOk(lo, Now()) == true
        invariant forall q :: q in free <==> lo <= q < p && q < |pages|
      {
        PushedOk(lo, Now(), p);
        var ok := Kfree(p);
        p := p + 1;
      }
    }

    /** kalloc: a page from the free list, or None when it is empty. */
    method Kalloc() returns (r: Option<nat>)
      requires FreeOk(lo, Now()) == true
      modifies this
      ensures r.None? <==> old(free) == []
      ensures r.None? ==> Now() == old(Now())
      ensures r.Some? ==> old(free) != [] && r.value == old(free)[0] < |old(pages)| && old(pages)[r.value].Free?
      ensures r.Some? ==> Now() == Popped(old(Now()))
    {
      r := head;
      if r.Some? {
        PoppedOk(lo, Now());
        head := pages[r.value].next;
        pages := pages[r.value := Filled(5)];
        free := free[1..];
      }
    }

    /** kfree: the page goes back; false is the panic for a page that is not kalloc's. */
    method Kfree(p: nat) returns (ok: bool)
      modifies this
      ensures ok <==> lo <= p < |old(pages)|
      ensures ok ==> Now() == Pushed(old(Now()), p)
    {
      if p < lo || p >= |pages| { return false; }
      pages := pages[p := Free(head)];
      head := Some(p);
      free := [p] + free;
      return true;
    }

    /** walk's allocation of a missing table: kalloc, memset and the store into the parent. */
    method NewTable(t: nat, i: nat, ghost s: Space, ghost n: Node) returns (r: Option<nat>)
      requires Good(lo, Now(), s) == true && n.level < 2 && Parent(n) in s.tab && n !in s.tab
      requires t == s.tab[Parent(n)] && i == n.k % ENTRIES
      modifies this
      ensures r.None? ==> old(free) == [] && Now() == old(Now())
      ensures r.Some? ==> Good(lo, Now(), AddTable(s, n, r.value)) == true
      ensures r.Some? ==> Grew(old(Now()), s, Now(), AddTable(s, n, r.value)) == true
      ensures r.Some? ==> |old(free)| == |free| + 1
    {
      ghost var k := Now();
      r := Kalloc();
      if r.Some? {
        NewTableStep(lo, k, s, n, r.value);
        var zeroed := pages[r.value := ZeroTable()];
        pages := zeroed[t := Table(zeroed[t].pte[i := Pointer(r.value)])];
        assert Now() == Tabled(Popped(k), s, n, r.value);
      }
    }

    /** One iteration of walk: from a table to the one that its entry i leads to. */
    method Descend(table: nat, i: nat, alloc: bool, ghost s: Space, ghost n: Node)
      returns (r: Option<nat>, ghost t: Space)
      requires Good(lo, Now(), s) == true && n.level < 2 && Parent(n) in s.tab
      requires table == s.tab[Parent(n)] && i == n.k % ENTRIES
      modifies this
      ensures Good(lo, Now(), t) == true && Grew(old(Now()), s, Now(), t) == true
      ensures r.Some? ==> n in t.tab && r.value == t.tab[n]
      ensures !alloc ==> t == s && Now() == old(Now()) && (r.Some? <==> n in s.tab)
      ensures alloc && r.None? ==> free == old(free) == []
      ensures |old(free)| <= |free| + 1
    {
      t := s;
      GrewStart(Now(), s);
      WalkEntry(lo, Now(), s, n);
      var pte := pages[table].pte[i];
      if Valid(pte) { return Some(pte.ppn), s; }
      if !alloc { return None, s; }
      r := NewTable(table, i, s, n);
      if r.Some? { t := AddTable(s, n, r.value); }
    }

    /**
     walk: the level-0 table that holds the entry of virtual page v. With alloc, missing tables are made on the way,
     and None means that memory ran out; without it, None means that there is no such table.
     */
    method Walk(root: nat, v: nat, alloc: bool, ghost s: Space) returns (r: Option<nat>, ghost t: Space)
      requires Good(lo, Now(), s) == true && ROOT in s.tab && s.tab[ROOT] == root && v < MAXVPN
      modifies this
      ensures Good(lo, Now(), t) == true && Grew(old(Now()), s, Now(), t) == true
      ensures r.Some? ==> Node(0, v / ENTRIES) in t.tab && r.value == t.tab[Node(0, v / ENTRIES)]
      ensures !alloc ==> t == s && Now() == old(Now()) && (r.Some? <==> Node(0, v / ENTRIES) in s.tab)
      ensures alloc && r.None? ==> free == [] && |old(free)| < 2
      ensures |old(free)| <= |free| + 2
    {
      t, r := s, Some(root);
      ghost var path := Path(v);
      PathEnds(v);
      GrewStart(Now(), s);
      var level := 2;
      while level > 0
        invariant 0 <= level <= 2 && Good(lo, Now(), t) == true && Grew(old(Now()), s, Now(), t) == true
        invariant r.Some? && path[level] in t.tab && r.value == t.tab[path[level]]
        invariant !alloc ==> t == s && Now() == old(Now())
        invariant |old(free)| <= |free| + (2 - level)
      {
        ghost var k, u := Now(), t;
        PathStep(v, level);
        if path[0] in u.tab { PathUp(lo, k, u, v, level); }
        r, t := Descend(r.value, Px(level, v), alloc, u, path[level - 1]);
        GrewTwice(old(Now()), s, k, u, Now(), t);
        if r.None? { return; }
        level := level - 1;
      }
    }

    /** The store of mappages in table q, where walk has arrived in state l with space t. */
    method StoreEntry(q: nat, v: nat, e: Pte, ghost t: Space)
      requires Node(0, v / ENTRIES) in t.tab && t.tab[Node(0, v / ENTRIES)] == q && IsTable(pages, q)
      modifies this`pages
      ensures Now() == Bound(old(Now()), t.tab, v, e)
    {
      pages := pages[q := Table(pages[q].pte[v % ENTRIES := e])];
    }

    /** mappages for one page that the space will own. A page already mapped there is the panic of a remap. */
    method MapMemory(root: nat, v: nat, p: nat, perm: Perm, ghost s: Space) returns (r: Mapped, ghost t: Space)
      requires Good(lo, Now(), s) == true && ROOT in s.tab && s.tab[ROOT] == root && v < s.top <= MAXVPN
      requires Held(lo, Now(), s, p) && Maps(MakePte(p, perm))
      modifies this
      ensures Valid(Lookup(old(pages), s.tab, v)) ==> !r.Ok?
      ensures r.Panic? ==> Valid(Lookup(old(pages), s.tab, v))
      ensures r.Ok? ==> Good(lo, Now(), t) == true && Mapping(old(Now()), s, Now(), t, v, p, MakePte(p, perm)) == true
      ensures r.NoMemory? ==> Good(lo, Now(), t) == true && Same(old(Now()), s, Now(), t) == true && free == []
      ensures (r.NoMemory? ==> |old(free)| < 2) && |old(free)| <= |free| + 2
    {
      ghost var k := Now();
      var q;
      q, t := Walk(root, v, true, s);
      if q.None? {
        GrewSame(lo, k, s, Now(), t);
        return NoMemory, t;
      }
      ghost var l := Now();
      LookupAt(lo, l, t, v);
      LeafForm(lo, l, t, v);
      GrewLookup(k, s, l, t, v);
      if Valid(pages[q.value].pte[v % ENTRIES]) { return Panic, t; }
      MapAfterWalk(lo, k, s, l, t, v, p, perm);
      StoreEntry(q.value, v, MakePte(p, perm), t);
      return Ok, t.(own := t.own[p := Mem(v)]);
    }

    /**
     kalloc, the fill, and mappages, with kfree when mappages fails. ok is false when memory ran out; panic is
     mappages' remap.
     */
    method MapFresh(root: nat, v: nat, fill: PageData, perm: Perm, ghost s: Space)
      returns (ok: bool, panic: bool, ghost p: nat, ghost t: Space)
      requires Good(lo, Now(), s) == true && ROOT in s.tab && s.tab[ROOT] == root && v < s.top <= MAXVPN
      requires Maps(MakePte(0, perm))
      modifies this
      ensures panic ==> Valid(Lookup(old(pages), s.tab, v))
      ensures !panic ==> Good(lo, Now(), t) == true
      ensures !panic && ok ==>
        Fresh(old(Now()), s, Now(), t, v, p, perm, fill) == true && !Valid(Lookup(old(pages), s.tab, v))
      ensures !panic && !ok ==> Same(old(Now()), s, Now(), t) == true && |old(free)| < 3
      ensures !panic && ok ==> |old(free)| <= |free| + 3
    {
      ghost var k := Now();
      ok, panic, p, t := false, false, 0, s;
      var q := Kalloc();
      if q.None? {
        GrewStart(k, s);
        GrewSame(lo, k, s, k, s);
        return;
      }
      p := q.value;
      TakenGood(lo, k, s, fill);
      pages := pages[q.value := Plain(fill)];
      assert Now() == Taken(k, fill);
      var r;
      r, t := MapMemory(root, v, q.value, perm, s);
      match r
      case Ok =>
        FreshFrom(lo, k, s, Now(), t, v, p, perm, fill);
        ok := true;
      case NoMemory =>
        HeldStays(lo, Taken(k, fill), s, Now(), t, p);
        ReturnedGood(lo, Now(), t, p);
        ReturnedSame(lo, k, s, Now(), t, p, fill);
        var freed := Kfree(q.value);
      case Panic =>
        panic := true;
    }

    /** One iteration of uvmunmap. ok is false for its panics: no entry, or a page that is not mapped. */
    method UnmapPage(root: nat, v: nat, doFree: bool, ghost s: Space) returns (ok: bool, ghost t: Space)
      requires Good(lo, Now(), s) == true && ROOT in s.tab && s.tab[ROOT] == root
      requires v < MAXVPN && (doFree <==> v < s.top)
      modifies this
      ensures ok <==> Valid(Lookup(old(pages), s.tab, v))
      ensures ok ==> Good(lo, Now(), t) == true && Unmapping(old(Now()), s, Now(), t, v) == true
    {
      ghost var k, u;
      var q;
      q, u := Walk(root, v, false, s);
      t, k := s, Now();
      if q.None? { return false, t; }
      LookupAt(lo, k, s, v);
      LeafForm(lo, k, s, v);
      var pte := pages[q.value].pte[v % ENTRIES];
      if !Valid(pte) { return false, t; }
      if doFree {
        UnboundGood(lo, k, s, v);
        UnboundBinds(lo, k, s, v, pte.ppn);
        UnboundMoves(lo, k, s, v, pte.ppn);
        var freed := Kfree(pte.ppn);
        t := s.(own := s.own - {pte.ppn});
        pages := pages[q.value := Table(pages[q.value].pte[v % ENTRIES := NOTHING])];
        assert Now() == Unbound(k, s.tab, v, pte.ppn);
      } else {
        ForeignUnmaps(lo, k, s, v);
        pages := pages[q.value := Table(pages[q.value].pte[v % ENTRIES := NOTHING])];
        assert Now() == Bound(k, s.tab, v, NOTHING);
      }
      return true, t;
    }

    /** uvmunmap of the virtual pages from a up to b. */
    method Uvmunmap(root: nat, a: nat, b: nat, doFree: bool, ghost s: Space) returns (ok: bool, ghost t: Space)
      requires Good(lo, Now(), s) == true && ROOT in s.tab && s.tab[ROOT] == root
      requires a <= b <= MAXVPN && (if doFree then b <= s.top else a >= s.top)
      modifies this
      ensures AllMapped(old(pages), s.tab, a, b) == ok
      ensures ok ==> Good(lo, Now(), t) == true && Cleared(old(Now()), s, Now(), t, a, b) == true
    {
      ghost var k := Now();
      ClearedStart(lo, k, s, a);
      t := s;
      var v := a;
      while v < b
        invariant a <= v <= b && Good(lo, Now(), t) == true && Cleared(k, s, Now(), t, a, v) == true
        invariant t.top == s.top && ROOT in t.tab && t.tab[ROOT] == root
        invariant AllMapped(k.pages, s.tab, a, v) == true
      {
        ghost var l, u := Now(), t;
        ClearedAhead(k, s, l, t, a, v, v);
        ok, t := UnmapPage(root, v, doFree, t);
        if !ok {
          AllMappedFails(k.pages, s.tab, a, v, b);
          return;
        }
        ghost var was := v;
        v := v + 1;
        AllMappedNext(k.pages, s.tab, a, was, v);
        ClearedNext(k, s, l, u, Now(), t, a, was, v);
      }
      ok := true;
    }

    /** uvmdealloc, from oldsz bytes down to newsz. */
    method Uvmdealloc(root: nat, oldsz: nat, newsz: nat, ghost s: Space) returns (r: nat, ok: bool, ghost t: Space)
      requires Good(lo, Now(), s) == true && ROOT in s.tab && s.tab[ROOT] == root && Up(oldsz) <= s.top <= MAXVPN
      modifies this
      ensures r == if newsz >= oldsz then oldsz else newsz
      ensures ok == (newsz >= oldsz || AllMapped(old(pages), s.tab, Up(newsz), Up(oldsz)))
      ensures ok ==> Good(lo, Now(), t) == true
      ensures ok ==>
        Cleared(old(Now()), s, Now(), t, Up(newsz), if newsz >= oldsz then Up(newsz) else Up(oldsz)) == true
    {
      ClearedStart(lo, Now(), s, Up(newsz));
      r, ok, t := oldsz, true, s;
      if newsz >= oldsz { return; }
      UpMono(newsz, oldsz);
      r := newsz;
      if Up(newsz) < Up(oldsz) {
        ok, t := Uvmunmap(root, Up(newsz), Up(oldsz), true, s);
      }
    }

    /** uvmalloc's loop body failed: everything it mapped goes back. */
    method Undo(root: nat, a: nat, v: nat, ghost want: seq<Want>, ghost k: Kst, ghost s: Space, ghost t: Space)
      returns (ghost u: Space)
      requires Good(lo, k, s) == true && Good(lo, Now(), t) == true && Filling(k, s, Now(), t, a, want) == true
      requires v == a + |want| && v <= s.top <= MAXVPN && t.top == s.top && ROOT in t.tab && t.tab[ROOT] == root
      modifies this
      ensures Good(lo, Now(), u) == true && Same(k, s, Now(), u) == true
    {
      ghost var l := Now();
      FillingMapped(k, s, l, t, a, want, v);
      var ok;
      ok, u := Uvmunmap(root, a, v, true, t);
      FillingUndone(lo, k, s, l, t, Now(), u, a, want, v);
    }

    /** One iteration of uvmalloc's loop, after done pages. When memory runs out, all of them go back. */
    method GrowOne(root: nat, a: nat, v: nat, ghost done: nat, ghost k: Kst, ghost s: Space, ghost u: Space)
      returns (ok: bool, panic: bool, ghost t: Space)
      requires Good(lo, k, s) == true && Good(lo, Now(), u) == true && Filling(k, s, Now(), u, a, Zeroes(done)) == true
      requires v == a + done < s.top <= MAXVPN && u.top == s.top && ROOT in u.tab && u.tab[ROOT] == root
      modifies this
      ensures panic ==> Valid(Lookup(k.pages, s.tab, v))
      ensures !panic ==> Good(lo, Now(), t) == true
      ensures !panic && ok ==> Filling(k, s, Now(), t, a, Zeroes(done + 1)) == true
      ensures !panic && ok ==> t.top == s.top && ROOT in t.tab && t.tab[ROOT] == root
      ensures !panic && !ok ==> Same(k, s, Now(), t) == true && |old(free)| < 3
      ensures !panic && ok ==> |old(free)| <= |free| + 3
    {
      ghost var l, p := Now(), 0;
      FillingAhead(k, s, l, u, a, Zeroes(done), v);
      ok, panic, p, t := MapFresh(root, v, ZeroPage(), RWXU, u);
      if panic { return; }
      if ok {
        GrowNext(lo, k, s, l, u, Now(), t, a, done, done + 1, v, p);
      } else {
        SameFilling(k, s, l, u, Now(), t, a, Zeroes(done), lo);
        t := Undo(root, a, v, Zeroes(done), k, s, t);
      }
    }

    /** uvmalloc's loop: zeroed pages from virtual page a on, until newsz bytes are covered. */
    method GrowPages(root: nat, a: nat, newsz: nat, ghost b: nat, ghost s: Space)
      returns (ok: bool, panic: bool, ghost t: Space)
      requires Good(lo, Now(), s) == true && ROOT in s.tab && s.tab[ROOT] == root
      requires a <= b <= s.top <= MAXVPN && b == Up(newsz)
      modifies this
      ensures panic ==> AllFree(old(pages), s.tab, a, b) == false
      ensures !panic ==> Good(lo, Now(), t) == true
      ensures !panic && ok ==> Filling(old(Now()), s, Now(), t, a, Zeroes(b - a)) == true
      ensures !panic && !ok ==> Same(old(Now()), s, Now(), t) == true && |old(free)| < 3 * (b - a)
    {
      ghost var k := Now();
      t, panic := s, false;
      FillingStart(lo, k, s, a);
      ghost var done := 0;
      assert Zeroes(0) == [];
      var v := a;
      while v * PGSIZE < newsz
        invariant v == a + done <= b && Good(lo, Now(), t) == true && Filling(k, s, Now(), t, a, Zeroes(done)) == true
        invariant t.top == s.top && ROOT in t.tab && t.tab[ROOT] == root && |old(free)| <= |free| + 3 * done
        decreases b - v
      {
        UpAtLeast(v, newsz, b);
        ok, panic, t := GrowOne(root, a, v, done, k, s, t);
        if panic {
          AllFreeAt(k.pages, s.tab, a, b, v);
          return;
        }
        if !ok { return; }
        done := done + 1;
        v := v + 1;
      }
      UpAtLeast(v, newsz, b);
      assert done == b - a;
      ok := true;
    }

    /**
     uvmalloc: the process grows from oldsz to newsz bytes with zeroed pages. When memory runs out, ok is false, 0 is
     returned and no virtual page has changed. With three free pages for each new one, that does not happen: each takes
     at most itself and two tables. panic is mappages' remap.
     */
    method Uvmalloc(root: nat, oldsz: nat, newsz: nat, ghost a: nat, ghost b: nat, ghost s: Space)
      returns (r: nat, ok: bool, panic: bool, ghost t: Space)
      requires Good(lo, Now(), s) == true && ROOT in s.tab && s.tab[ROOT] == root
      requires a == Up(oldsz) && b == Up(newsz) && b <= s.top <= MAXVPN
      modifies this
      ensures newsz < oldsz ==> ok && !panic && r == oldsz && Now() == old(Now()) && t == s
      ensures panic ==> newsz >= oldsz && AllFree(old(pages), s.tab, a, b) == false
      ensures newsz >= oldsz && !panic ==> r == (if ok then newsz else 0) && Good(lo, Now(), t) == true
      ensures newsz >= oldsz && !panic && ok ==> a <= b && Filling(old(Now()), s, Now(), t, a, Zeroes(b - a)) == true
      ensures newsz >= oldsz && !panic && !ok ==> Same(old(Now()), s, Now(), t) == true && |old(free)| < 3 * (b - a)
    {
      if newsz < oldsz { return oldsz, true, false, s; }
      UpMono(oldsz, newsz);
      ok, panic, t := GrowPages(root, Up(oldsz), newsz, b, s);
      r := if ok then newsz else 0;
    }

    /** The entry uvmcopy reads for virtual page v of the old space; None is its panic. */
    method ReadOld(root: nat, v: nat, ghost o: Space) returns (r: Option<Want>)
      requires Good(lo, Now(), o) == true && ROOT in o.tab && o.tab[ROOT] == root && v < o.top <= MAXVPN
      modifies this
      ensures Now() == old(Now())
      ensures r.None? <==> !Valid(Lookup(pages, o.tab, v))
      ensures r.Some? ==> r.value == WantOf(Now(), o, v)
    {
      var q;
      ghost var u;
      q, u := Walk(root, v, false, o);
      if q.None? { return None; }
      LookupAt(lo, Now(), o, v);
      LeafForm(lo, Now(), o, v);
      var pte := pages[q.value].pte[v % ENTRIES];
      if !Valid(pte) { return None; }
      return Some(Want(pte.perm, pages[pte.ppn].data));
    }

    /**
     uvmcopy of sz bytes from space o into space s. When memory runs out ok is false and no virtual page of s has
     changed; with three free pages for each page copied that does not happen. panic is a page of o that is not mapped,
     or one of s that is.
     */
    method Uvmcopy(oroot: nat, root: nat, sz: nat, ghost b: nat, ghost o: Space, ghost s: Space)
      returns (ok: bool, panic: bool, ghost t: Space)
      requires Good(lo, Now(), s) == true && ROOT in s.tab && s.tab[ROOT] == root
      requires b == Up(sz) && b <= s.top == o.top <= MAXVPN
      requires Good(lo, Now(), o) == true && ROOT in o.tab && o.tab[ROOT] == oroot && Apart(Now(), s, o) == true
      modifies this
      ensures panic ==> !(AllMapped(old(pages), o.tab, 0, b) && AllFree(old(pages), s.tab, 0, b))
      ensures !panic ==>
        Good(lo, Now(), t) == true && Good(lo, Now(), o) == true && Untouched(old(Now()), Now(), o) == true
      ensures !panic && ok ==> Filling(old(Now()), s, Now(), t, 0, Copies(old(Now()), o, b)) == true
      ensures !panic && !ok ==> Same(old(Now()), s, Now(), t) == true && |old(free)| < 3 * b
    {
      ghost var k := Now();
      t, panic := s, false;
      FillingStart(lo, k, s, 0);
      CopiesNext(k, o, 0, 1);
      var v := 0;
      while v * PGSIZE < sz
        invariant v <= b && Good(lo, Now(), t) == true && Filling(k, s, Now(), t, 0, Copies(k, o, v)) == true
        invariant t.top == s.top && ROOT in t.tab && t.tab[ROOT] == root
        invariant Good(lo, Now(), o) == true && Apart(Now(), t, o) == true && Untouched(k, Now(), o) == true
        invariant |old(free)| <= |free| + 3 * v
        decreases b - v
      {
        UpAtLeast(v, sz, b);
        ghost var l, u, p := Now(), t, 0;
        var w := ReadOld(oroot, v, o);
        if w.None? {
          if Valid(Lookup(k.pages, o.tab, v)) { SameWant(lo, k, l, o, v); }
          AllMappedFails(k.pages, o.tab, 0, v, b);
          return false, true, t;
        }
        SameSpace(k.pages, l.pages, o);
        SameWant(lo, k, l, o, v);
        FillingAhead(k, s, l, u, 0, Copies(k, o, v), v);
        ok, panic, p, t := MapFresh(root, v, w.value.data, w.value.perm, u);
        if panic {
          AllFreeAt(k.pages, s.tab, 0, b, v);
          return;
        }
        if !ok {
          CopyFails(lo, k, s, l, u, Now(), t, o, v);
          t := Undo(root, 0, v, Copies(k, o, v), k, s, t);
          OtherGood(lo, k, s, Now(), t, o);
          return;
        }
        CopyNext(lo, k, s, l, u, Now(), t, o, v, p);
        v := v + 1;
      }
      UpAtLeast(v, sz, b);
      ok := true;
    }

    /**
     freewalk of the table t of node n. On return the table is empty in state l and freed after it; ok is false for
     the panic at a leaf.
     */
    method Freewalk(t: nat, ghost s: Space, ghost n: Node) returns (ok: bool, ghost l: Kst, ghost u: Space)
      requires Good(lo, Now(), s) == true && n in s.tab && s.tab[n] == t
      modifies this
      ensures NoLeaves(old(Now()), s) ==> ok
      ensures ok ==>
        Good(lo, l, u) == true && Pruned(old(Now()), s, l, u, n.level) == true && Emptied(l, u, n, ENTRIES) == true
      ensures ok ==> n in u.tab && u.tab[n] == t < |l.pages| && Now() == Pushed(l, t)
      decreases n.level, 1
    {
      ghost var k := Now();
      u, l := s, k;
      PrunedStart(k, s, n.level);
      EntryAt(lo, k, s, n, 0);
      var i := 0;
      while i < ENTRIES
        invariant Good(lo, Now(), u) == true && Pruned(k, s, Now(), u, n.level) == true
        invariant Emptied(Now(), u, n, i) == true
        invariant n in u.tab && u.tab[n] == t
      {
        ghost var m := Now();
        var at := i;
        EntryAt(lo, m, u, n, i);
        var pte := pages[t].pte[at];
        i := i + 1;
        if Valid(pte) && !Maps(pte) {
          ghost var v := u;
          NoLeavesSame(k, s, m, u);
          ok, u := FreeChild(t, at, pte.ppn, v, n, i);
          if !ok { return; }
          PrunedNext(k, s, m, v, Now(), u, n.level, n.level);
        } else if Valid(pte) {
          NoLeavesSame(k, s, m, u);
          LeafSeen(lo, m, u, n, at);
          return false, l, u;
        } else {
          EmptiedNext(lo, m, u, n, at, i);
        }
      }
      l, ok := Now(), true;
      var freed := Kfree(t);
    }

    /** freewalk at entry i of table t, which leads to the table child. */
    method FreeChild(t: nat, i: nat, child: nat, ghost s: Space, ghost n: Node, ghost i1: nat)
      returns (ok: bool, ghost u: Space)
      requires Good(lo, Now(), s) == true && Emptied(Now(), s, n, i) == true && i < ENTRIES && i1 == i + 1
      requires n in s.tab && s.tab[n] == t && n.level > 0 && Child(n, i) in s.tab && s.tab[Child(n, i)] == child
      modifies this
      ensures NoLeaves(old(Now()), s) ==> ok
      ensures ok ==>
        Good(lo, Now(), u) == true && Pruned(old(Now()), s, Now(), u, n.level) == true &&
        Emptied(Now(), u, n, i1) == true
      ensures ok ==> n in u.tab && u.tab[n] == t
      decreases n.level, 0
    {
      ghost var k, l, c := Now(), Now(), Child(n, i);
      ok, l, u := Freewalk(child, s, c);
      if !ok { return; }
      PruneStep(lo, k, s, l, u, n, c, i, i1);
      pages := pages[t := Table(pages[t].pte[i := NOTHING])];
      assert Now() == Unlinked(l, u, c);
      u := DropTable(u, c);
    }

    /** mappages for pages the space does not own: virtual pages a to last map the pages from p on. */
    method MapPages(root: nat, a: nat, last: nat, p: nat, perm: Perm, ghost s: Space)
      returns (r: Mapped, ghost end: nat, ghost t: Space)
      requires Good(lo, Now(), s) == true && ROOT in s.tab && s.tab[ROOT] == root
      requires s.top <= a <= last < MAXVPN && Maps(MakePte(0, perm))
      modifies this
      ensures r.Panic? ==> a <= end <= last && Valid(Lookup(old(pages), s.tab, end))
      ensures !r.Panic? ==> Good(lo, Now(), t) == true && Ranged(old(Now()), s, Now(), t, a, end, p, perm) == true
      ensures r.Ok? ==> end == last + 1
      ensures r.NoMemory? ==> a <= end <= last && free == [] && |old(free)| < 2 * (last - a + 1)
      ensures r.Ok? ==> |old(free)| <= |free| + 2 * (last - a + 1)
    {
      ghost var k := Now();
      RangedStart(lo, k, s, a, p, perm);
      t, end := s, a;
      var v := a;
      while true
        invariant a <= v == end <= last && Good(lo, Now(), t) == true && Ranged(k, s, Now(), t, a, v, p, perm) == true
        invariant t.top == s.top && ROOT in t.tab && t.tab[ROOT] == root && |old(free)| <= |free| + 2 * (v - a)
        decreases last - v
      {
        ghost var l, u := Now(), t;
        RangedAhead(k, s, l, u, a, v, p, perm, v);
        r, t := MapOther(root, v, p + (v - a), perm, u);
        if r.Panic? { return; }
        if r.NoMemory? {
          RangedSame(k, s, l, u, Now(), t, a, v, p, perm, lo);
          return;
        }
        end := v + 1;
        RangedNext(lo, k, s, l, u, Now(), t, a, v, end, p, perm);
        if v == last { return; }
        v := v + 1;
      }
    }

    /** One iteration of mappages for a page the space does not own. */
    method MapOther(root: nat, v: nat, p: nat, perm: Perm, ghost s: Space) returns (r: Mapped, ghost t: Space)
      requires Good(lo, Now(), s) == true && ROOT in s.tab && s.tab[ROOT] == root
      requires s.top <= v < MAXVPN && Maps(MakePte(0, perm))
      modifies this
      ensures r.Panic? ==> Valid(Lookup(old(pages), s.tab, v))
      ensures !r.Panic? ==> Good(lo, Now(), t) == true
      ensures r.Ok? ==> Ranged(old(Now()), s, Now(), t, v, v + 1, p, perm.(v := true)) == true
      ensures r.NoMemory? ==> Same(old(Now()), s, Now(), t) == true && free == [] && |old(free)| < 2
      ensures |old(free)| <= |free| + 2
    {
      ghost var k := Now();
      var q;
      q, t := Walk(root, v, true, s);
      if q.None? {
        GrewSame(lo, k, s, Now(), t);
        return NoMemory, t;
      }
      ghost var l := Now();
      LookupAt(lo, l, t, v);
      if Valid(pages[q.value].pte[v % ENTRIES]) { return Panic, t; }
      GrewLookup(k, s, l, t, v);
      ForeignAfterWalk(lo, k, s, l, t, v, MakePte(p, perm));
      StoreEntry(q.value, v, MakePte(p, perm), t);
      return Ok, t;
    }

    /** uvmcreate */
    method Uvmcreate(ghost top: nat) returns (r: Option<nat>, ghost s: Space)
      requires FreeOk(lo, Now()) == true
      modifies this
      ensures r.None? <==> old(free) == []
      ensures r.None? ==> Now() == old(Now())
      ensures r.Some? ==>
        Good(lo, Now(), s) == true && NoLeaves(Now(), s) == true && Moves(old(Now()), Empty(top), Now(), s) == true
      ensures r.Some? ==> ROOT in s.tab && s.tab[ROOT] == r.value && s.top == top && |old(free)| == |free| + 1
    {
      s := Empty(top);
      if free != [] { NewSpaceGood(lo, Now(), top); }
      r := Kalloc();
      if r.Some? {
        pages := pages[r.value := ZeroTable()];
        s := NewSpace(r.value, top);
      }
    }

    /** uvmfree of a space whose memory is exactly the first sz bytes: all its pages become free. */
    method Uvmfree(root: nat, sz: nat, ghost b: nat, ghost s: Space) returns (ok: bool)
      requires Good(lo, Now(), s) == true && ROOT in s.tab && s.tab[ROOT] == root && b == Up(sz) && b <= s.top <= MAXVPN
      modifies this
      ensures
        AllMapped(old(pages), s.tab, 0, b) && (forall v: nat :: v >= b ==> Lookup(old(pages), s.tab, v) == NOTHING)
        ==> ok
      ensures ok ==> FreeOk(lo, Now()) == true && Moves(old(Now()), s, Now(), Empty(s.top)) == true
    {
      ghost var k, t := Now(), s;
      ClearedStart(lo, k, s, 0);
      ok := true;
      if sz > 0 { ok, t := Uvmunmap(root, 0, Up(sz), true, s); }
      if !ok { return; }
      ghost var l, m, u := Now(), Now(), t;
      if forall v: nat :: v >= b ==> Lookup(k.pages, s.tab, v) == NOTHING { ClearedNoLeaves(k, s, l, t, b); }
      ok, m, u := Freewalk(root, t, ROOT);
      if ok {
        AllFreed(lo, l, t, m, u);
        ClearedMoves(k, s, l, t, 0, b, Now(), Empty(s.top));
      }
    }
  }
}

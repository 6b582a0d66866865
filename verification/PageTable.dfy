/**
 Physical pages, the kalloc free list, and a three-level page table as a tree of pages, with what the tree
 means: a flat map from virtual page numbers to page-table entries.
 A predicate that a lemma only hands on is written `P == true`, so that it is handed on unopened.
 */
module PageTable {
  import opened Basics
  import opened Bytes

  const PGSIZE := 4096
  const ENTRIES := 512

  /* Page-table entries. */

  /** PTE_V, PTE_R, PTE_W, PTE_X, PTE_U and the five bits above them. */
  datatype Perm = Perm(v: bool, r: bool, w: bool, x: bool, u: bool, other: nat)

  datatype Pte = Pte(ppn: nat, perm: Perm)

  const NOTHING := Pte(0, Perm(false, false, false, false, false, 0))

  /** What a page was last written as: kfree's list link, page-table entries, or plain bytes. */
  datatype Page = Free(next: Option<nat>) | Table(pte: seq<Pte>) | Plain(data: Data)

  /** `PA2PTE(pa) | perm | PTE_V` */
  function MakePte(p: nat, perm: Perm): Pte { Pte(p, perm.(v := true)) }

  /** The entry for a lower table: valid, with no other bit. */
  function Pointer(p: nat): Pte { Pte(p, NOTHING.perm.(v := true)) }

  predicate Valid(e: Pte) { e.perm.v }

  predicate Maps(e: Pte) { e.perm.v && (e.perm.r || e.perm.w || e.perm.x) }

  /* The tree. */

  /** Level 2 is the root; Node(l, k) covers the virtual pages v with v / 512^(l+1) == k. */
  datatype Node = Node(level: nat, k: nat)

  function Parent(n: Node): Node { Node(n.level + 1, n.k / ENTRIES) }

  const ROOT := Node(2, 0)

  /** What a page of an address space is for. */
  datatype Role = Tab(n: Node) | Mem(v: nat)

  /**
   An address space: the pages of its tables, and what each of its pages is for. Below virtual page top the space
   owns the pages it maps.
   */
  datatype Space = Space(tab: map<Node, nat>, own: map<nat, Role>, top: nat)

  predicate IsTable(pages: seq<Page>, p: nat) {
    p < |pages| && pages[p].Table? && |pages[p].pte| == ENTRIES
  }

  /** The flat map: the level-0 entry for virtual page v, zero when there is no table for it. */
  function Lookup(pages: seq<Page>, tab: map<Node, nat>, v: nat): Pte {
    var n := Node(0, v / ENTRIES);
    if n in tab && IsTable(pages, tab[n]) then pages[tab[n]].pte[v % ENTRIES] else NOTHING
  }

  predicate NodeOk(pages: seq<Page>, s: Space, n: Node)
    requires n in s.tab
  {
    && n.level <= 2 && (n.level == 2 ==> n == ROOT) && (n.level < 2 ==> Parent(n) in s.tab)
    && IsTable(pages, s.tab[n]) && s.tab[n] in s.own && s.own[s.tab[n]] == Tab(n)
  }

  ghost predicate NodesOk(pages: seq<Page>, s: Space) {
    ROOT in s.tab && forall n :: n in s.tab ==> NodeOk(pages, s, n)
  }

  /** An interior entry points at the table there is, and is zero when there is none. */
  predicate LinkOk(pages: seq<Page>, tab: map<Node, nat>, n: Node) {
    n.level < 2 && Parent(n) in tab && IsTable(pages, tab[Parent(n)]) ==>
      pages[tab[Parent(n)]].pte[n.k % ENTRIES] == if n in tab then Pointer(tab[n]) else NOTHING
  }

  ghost predicate LinksOk(pages: seq<Page>, tab: map<Node, nat>) {
    forall n: Node :: LinkOk(pages, tab, n)
  }

  /** A mapped page below top is a page of bytes that belongs to the space. */
  ghost predicate MemOk(pages: seq<Page>, s: Space, v: nat) {
    var e := Lookup(pages, s.tab, v);
    && (e == NOTHING || Maps(e))
    && (v < s.top && Valid(e) ==>
          && e.ppn in s.own && s.own[e.ppn] == Mem(v)
          && e.ppn < |pages| && pages[e.ppn].Plain? && |pages[e.ppn].data.bytes| == PGSIZE)
  }

  ghost predicate LeavesOk(pages: seq<Page>, s: Space) {
    forall v: nat :: MemOk(pages, s, v)
  }

  ghost predicate RoleOk(pages: seq<Page>, s: Space, p: nat)
    requires p in s.own
  {
    p < |pages| &&
    match s.own[p]
    case Tab(n) => n in s.tab && s.tab[n] == p
    case Mem(v) => v < s.top && Valid(Lookup(pages, s.tab, v)) && Lookup(pages, s.tab, v).ppn == p
  }

  ghost predicate RolesOk(pages: seq<Page>, s: Space) {
    forall p :: p in s.own ==> RoleOk(pages, s, p)
  }

  ghost predicate SpaceOk(pages: seq<Page>, s: Space) {
    NodesOk(pages, s) && LinksOk(pages, s.tab) && LeavesOk(pages, s) && RolesOk(pages, s)
  }

  /* A space depends only on its own pages. */

  lemma SameSpace(pages: seq<Page>, after: seq<Page>, s: Space)
    requires SpaceOk(pages, s) == true && |after| == |pages|
    requires forall p :: p in s.own && p < |pages| ==> after[p] == pages[p]
    ensures SpaceOk(after, s) == true && forall v: nat :: Lookup(after, s.tab, v) == Lookup(pages, s.tab, v)
  {
    forall v: nat ensures Lookup(after, s.tab, v) == Lookup(pages, s.tab, v) {}
    forall v: nat ensures MemOk(after, s, v) { assert MemOk(pages, s, v); }
    forall p | p in s.own ensures RoleOk(after, s, p) { assert RoleOk(pages, s, p); }
    forall n | n in s.tab ensures NodeOk(after, s, n) { assert NodeOk(pages, s, n); }
    forall n: Node ensures LinkOk(after, s.tab, n) {
      assert LinkOk(pages, s.tab, n);
      if n.level < 2 && Parent(n) in s.tab { assert NodeOk(pages, s, Parent(n)); }
    }
  }

  /** A change to the bytes of a page of memory leaves the structure alone. */
  lemma StoreMem(pages: seq<Page>, s: Space, p: nat, d: Data)
    requires SpaceOk(pages, s) == true && p in s.own && s.own[p].Mem? && p < |pages| && |d.bytes| == PGSIZE
    ensures SpaceOk(pages[p := Plain(d)], s) == true
    ensures forall v: nat :: Lookup(pages[p := Plain(d)], s.tab, v) == Lookup(pages, s.tab, v)
  {
    var after := pages[p := Plain(d)];
    forall v: nat ensures Lookup(after, s.tab, v) == Lookup(pages, s.tab, v) {
      var n := Node(0, v / ENTRIES);
      if n in s.tab { assert NodeOk(pages, s, n); }
    }
    forall v: nat ensures MemOk(after, s, v) { assert MemOk(pages, s, v); }
    forall q | q in s.own ensures RoleOk(after, s, q) { assert RoleOk(pages, s, q); }
    forall n | n in s.tab ensures NodeOk(after, s, n) { assert NodeOk(pages, s, n); }
    forall n: Node ensures LinkOk(after, s.tab, n) {
      assert LinkOk(pages, s.tab, n);
      if n.level < 2 && Parent(n) in s.tab { assert NodeOk(pages, s, Parent(n)); }
    }
  }

  /* A new table. */

  function ZeroTable(): Page { Table(seq(ENTRIES, _ => NOTHING)) }

  function Linked(pages: seq<Page>, t: nat, j: nat, e: Pte): (r: seq<Page>)
    requires IsTable(pages, t) && j < ENTRIES
    ensures |r| == |pages|
  {
    pages[t := Table(pages[t].pte[j := e])]
  }

  /** walk's memset and store: page p becomes the table of node n. */
  function AddPages(pages: seq<Page>, s: Space, n: Node, p: nat): (r: seq<Page>)
    requires n.level < 2 && Parent(n) in s.tab && IsTable(pages, s.tab[Parent(n)])
    requires p < |pages| && p != s.tab[Parent(n)]
    ensures |r| == |pages|
  {
    Linked(pages[p := ZeroTable()], s.tab[Parent(n)], n.k % ENTRIES, Pointer(p))
  }

  function AddTable(s: Space, n: Node, p: nat): Space {
    s.(tab := s.tab[n := p], own := s.own[p := Tab(n)])
  }

  /** Children of one table are told apart by their index in it. */
  lemma Siblings(n: Node, m: Node)
    requires n.level == m.level && n.k / ENTRIES == m.k / ENTRIES && n.k % ENTRIES == m.k % ENTRIES
    ensures n == m
  {}

  ghost predicate CanAdd(pages: seq<Page>, s: Space, n: Node, p: nat) {
    SpaceOk(pages, s) && n.level < 2 && Parent(n) in s.tab && n !in s.tab && p !in s.own && p < |pages|
  }

  lemma AddTableLookup(pages: seq<Page>, s: Space, n: Node, p: nat, v: nat)
    requires CanAdd(pages, s, n, p) == true
    ensures Lookup(AddPages(pages, s, n, p), AddTable(s, n, p).tab, v) == Lookup(pages, s.tab, v)
  {
    var m := Node(0, v / ENTRIES);
    assert NodeOk(pages, s, Parent(n));
    if m in s.tab { assert NodeOk(pages, s, m); }
  }

  lemma AddTableNodes(pages: seq<Page>, s: Space, n: Node, p: nat)
    requires CanAdd(pages, s, n, p) == true
    ensures NodesOk(AddPages(pages, s, n, p), AddTable(s, n, p))
  {
    var after, t := AddPages(pages, s, n, p), AddTable(s, n, p);
    assert NodeOk(pages, s, Parent(n));
    forall m | m in t.tab ensures NodeOk(after, t, m) {
      if m != n { assert NodeOk(pages, s, m); }
    }
  }

  lemma AddTableLinks(pages: seq<Page>, s: Space, n: Node, p: nat)
    requires CanAdd(pages, s, n, p) == true
    ensures LinksOk(AddPages(pages, s, n, p), AddTable(s, n, p).tab)
  {
    var after, t := AddPages(pages, s, n, p), AddTable(s, n, p);
    assert NodeOk(pages, s, Parent(n));
    forall m: Node ensures LinkOk(after, t.tab, m) {
      assert LinkOk(pages, s.tab, m);
      if m.level < 2 && Parent(m) in s.tab { assert NodeOk(pages, s, Parent(m)); }
      if m in s.tab { assert NodeOk(pages, s, m); }
      if Parent(m) == Parent(n) && m.k % ENTRIES == n.k % ENTRIES { Siblings(m, n); }
    }
  }

  lemma AddTableLeaves(pages: seq<Page>, s: Space, n: Node, p: nat)
    requires CanAdd(pages, s, n, p) == true
    ensures LeavesOk(AddPages(pages, s, n, p), AddTable(s, n, p))
  {
    var after, t := AddPages(pages, s, n, p), AddTable(s, n, p);
    assert NodeOk(pages, s, Parent(n));
    forall v: nat ensures MemOk(after, t, v) {
      AddTableLookup(pages, s, n, p, v);
      assert MemOk(pages, s, v);
    }
  }

  lemma AddTableRoles(pages: seq<Page>, s: Space, n: Node, p: nat)
    requires CanAdd(pages, s, n, p) == true
    ensures RolesOk(AddPages(pages, s, n, p), AddTable(s, n, p))
  {
    var after, t := AddPages(pages, s, n, p), AddTable(s, n, p);
    forall q | q in t.own ensures RoleOk(after, t, q) {
      if q != p {
        assert RoleOk(pages, s, q);
        if s.own[q].Mem? { AddTableLookup(pages, s, n, p, s.own[q].v); }
      }
    }
  }

  lemma AddTableKeeps(pages: seq<Page>, s: Space, n: Node, p: nat)
    requires CanAdd(pages, s, n, p) == true
    ensures SpaceOk(AddPages(pages, s, n, p), AddTable(s, n, p)) == true
  {
    AddTableNodes(pages, s, n, p);
    AddTableLinks(pages, s, n, p);
    AddTableLeaves(pages, s, n, p);
    AddTableRoles(pages, s, n, p);
  }

  /* A leaf entry. */

  /** The store `*pte = e` through the pointer walk returned for v. */
  function SetPages(pages: seq<Page>, tab: map<Node, nat>, v: nat, e: Pte): (r: seq<Page>)
    requires Node(0, v / ENTRIES) in tab && IsTable(pages, tab[Node(0, v / ENTRIES)])
    ensures |r| == |pages|
  {
    Linked(pages, tab[Node(0, v / ENTRIES)], v % ENTRIES, e)
  }

  ghost predicate CanSet(pages: seq<Page>, s: Space, v: nat, e: Pte) {
    SpaceOk(pages, s) && Node(0, v / ENTRIES) in s.tab && (e == NOTHING || Maps(e))
  }

  /** Exactly the entry of v changes. */
  lemma SetLookup(pages: seq<Page>, s: Space, v: nat, e: Pte, w: nat)
    requires CanSet(pages, s, v, e) == true
    ensures Lookup(SetPages(pages, s.tab, v, e), s.tab, w) == if w == v then e else Lookup(pages, s.tab, w)
  {
    var n, m := Node(0, v / ENTRIES), Node(0, w / ENTRIES);
    assert NodeOk(pages, s, n);
    if m in s.tab {
      assert NodeOk(pages, s, m);
      if m == n && w % ENTRIES == v % ENTRIES { assert w == v; }
    }
  }

  lemma SetTables(pages: seq<Page>, s: Space, v: nat, e: Pte, own: map<nat, Role>)
    requires CanSet(pages, s, v, e) == true
    requires forall n :: n in s.tab ==> s.tab[n] in own && own[s.tab[n]] == Tab(n)
    ensures var after := SetPages(pages, s.tab, v, e); NodesOk(after, s.(own := own)) && LinksOk(after, s.tab)
  {
    var after, l := SetPages(pages, s.tab, v, e), Node(0, v / ENTRIES);
    assert NodeOk(pages, s, l);
    forall n | n in s.tab ensures NodeOk(after, s.(own := own), n) { assert NodeOk(pages, s, n); }
    forall n: Node ensures LinkOk(after, s.tab, n) {
      assert LinkOk(pages, s.tab, n);
      if n.level < 2 && Parent(n) in s.tab { assert NodeOk(pages, s, Parent(n)); }
    }
  }

  /** A page of memory p is mapped at v and becomes the space's own. */
  lemma MapMem(pages: seq<Page>, s: Space, v: nat, p: nat, perm: Perm)
    requires CanSet(pages, s, v, MakePte(p, perm)) == true && v < s.top && Lookup(pages, s.tab, v) == NOTHING
    requires p !in s.own && p < |pages| && pages[p].Plain? && |pages[p].data.bytes| == PGSIZE
    ensures SpaceOk(SetPages(pages, s.tab, v, MakePte(p, perm)), s.(own := s.own[p := Mem(v)])) == true
  {
    var e, t := MakePte(p, perm), s.(own := s.own[p := Mem(v)]);
    var after := SetPages(pages, s.tab, v, e);
    SetTables(pages, s, v, e, t.own);
    assert NodeOk(pages, s, Node(0, v / ENTRIES));
    forall w: nat ensures MemOk(after, t, w) {
      SetLookup(pages, s, v, e, w);
      assert MemOk(pages, s, w);
    }
    forall q | q in t.own ensures RoleOk(after, t, q) {
      if q != p { assert RoleOk(pages, s, q); }
      if t.own[q].Mem? { SetLookup(pages, s, v, e, t.own[q].v); }
    }
  }

  /** Above top the space does not own what it maps. */
  lemma MapForeign(pages: seq<Page>, s: Space, v: nat, e: Pte)
    requires CanSet(pages, s, v, e) == true && v >= s.top
    ensures SpaceOk(SetPages(pages, s.tab, v, e), s) == true
  {
    var after := SetPages(pages, s.tab, v, e);
    assert s.(own := s.own) == s;
    SetTables(pages, s, v, e, s.own);
    assert NodeOk(pages, s, Node(0, v / ENTRIES));
    forall w: nat ensures MemOk(after, s, w) {
      SetLookup(pages, s, v, e, w);
      assert MemOk(pages, s, w);
    }
    forall q | q in s.own ensures RoleOk(after, s, q) {
      assert RoleOk(pages, s, q);
      if s.own[q].Mem? { SetLookup(pages, s, v, e, s.own[q].v); }
    }
  }

  /** A page of memory is unmapped and leaves the space. */
  lemma UnmapMem(pages: seq<Page>, s: Space, v: nat)
    requires CanSet(pages, s, v, NOTHING) == true && v < s.top && Valid(Lookup(pages, s.tab, v))
    ensures SpaceOk(SetPages(pages, s.tab, v, NOTHING), s.(own := s.own - {Lookup(pages, s.tab, v).ppn})) == true
  {
    var p := Lookup(pages, s.tab, v).ppn;
    var after, t := SetPages(pages, s.tab, v, NOTHING), s.(own := s.own - {p});
    assert MemOk(pages, s, v);
    SetTables(pages, s, v, NOTHING, t.own);
    assert NodeOk(pages, s, Node(0, v / ENTRIES));
    forall w: nat ensures MemOk(after, t, w) {
      SetLookup(pages, s, v, NOTHING, w);
      assert MemOk(pages, s, w);
    }
    forall q | q in t.own ensures RoleOk(after, t, q) {
      assert RoleOk(pages, s, q);
      if s.own[q].Mem? { SetLookup(pages, s, v, NOTHING, s.own[q].v); }
    }
  }

  /* Dropping a table that has no entries left. */

  ghost predicate Childless(tab: map<Node, nat>, n: Node) {
    forall m :: m in tab && m.level < 2 ==> Parent(m) != n
  }

  function DropTable(s: Space, n: Node): Space
    requires n in s.tab
  {
    s.(tab := s.tab - {n}, own := s.own - {s.tab[n]})
  }

  /** The parent's entry is zeroed; what became of the page itself does not matter. */
  ghost predicate CanDrop(pages: seq<Page>, after: seq<Page>, s: Space, n: Node) {
    && SpaceOk(pages, s) && n in s.tab && n.level < 2 && Childless(s.tab, n)
    && (forall v: nat :: v / ENTRIES == n.k && n.level == 0 ==> Lookup(pages, s.tab, v) == NOTHING)
    && |after| == |pages|
    && (forall p :: p in s.own && p != s.tab[n] && p < |pages| ==>
      after[p] == Linked(pages, s.tab[Parent(n)], n.k % ENTRIES, NOTHING)[p])
  }

  lemma DropLookup(pages: seq<Page>, after: seq<Page>, s: Space, n: Node, v: nat)
    requires CanDrop(pages, after, s, n) == true
    ensures Lookup(after, DropTable(s, n).tab, v) == Lookup(pages, s.tab, v)
  {
    var m := Node(0, v / ENTRIES);
    assert NodeOk(pages, s, Parent(n)) && NodeOk(pages, s, n);
    if m in s.tab { assert NodeOk(pages, s, m); }
  }

  lemma DropTableKeeps(pages: seq<Page>, after: seq<Page>, s: Space, n: Node)
    requires CanDrop(pages, after, s, n) == true
    ensures SpaceOk(after, DropTable(s, n)) == true
  {
    var t := DropTable(s, n);
    DropTables(pages, after, s, n);
    assert NodeOk(pages, s, Parent(n)) && NodeOk(pages, s, n);
    forall v: nat ensures MemOk(after, t, v) {
      DropLookup(pages, after, s, n, v);
      assert MemOk(pages, s, v);
    }
    forall q | q in t.own ensures RoleOk(after, t, q) {
      assert RoleOk(pages, s, q);
      if s.own[q].Mem? { DropLookup(pages, after, s, n, s.own[q].v); }
    }
  }

  lemma DropTables(pages: seq<Page>, after: seq<Page>, s: Space, n: Node)
    requires CanDrop(pages, after, s, n) == true
    ensures NodesOk(after, DropTable(s, n)) && LinksOk(after, DropTable(s, n).tab)
  {
    var t := DropTable(s, n);
    assert NodeOk(pages, s, Parent(n)) && NodeOk(pages, s, n);
    forall m | m in t.tab ensures NodeOk(after, t, m) {
      assert NodeOk(pages, s, m);
    }
    forall m: Node ensures LinkOk(after, t.tab, m) {
      assert LinkOk(pages, s.tab, m);
      if m.level < 2 && Parent(m) in s.tab { assert NodeOk(pages, s, Parent(m)); }
      if Parent(m) == Parent(n) && m.k % ENTRIES == n.k % ENTRIES { Siblings(m, n); }
    }
  }
}

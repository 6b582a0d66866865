/**
 malloc and free, after Kernighan and Ritchie: a circular list of free blocks in address order. Addresses and sizes
 are counted in headers; address 0 stands for the static header base, which lies below all memory from sbrk.
 A predicate that a method only hands on is written `P == true`, so that it is handed on unopened.
 */
module Umalloc {
  import opened Basics
  import opened Growproc

  datatype Block = Block(at: nat, n: nat)

  function End(b: Block): nat { b.at + b.n }

  predicate Holds(b: Block, u: nat) { b.at <= u < End(b) }

  predicate Clear(a: Block, b: Block) { End(a) <= b.at || End(b) <= a.at }

  /** What is free, in address order; what is handed out; and all the memory obtained from sbrk. */
  datatype Book = Book(free: seq<Block>, alloc: map<nat, nat>, memory: set<nat>)

  /** The list is in address order, with a gap after every block: no two neighbours could be one block. */
  predicate Sorted(free: seq<Block>) {
    && |free| > 0 && free[0] == Block(0, 0)
    && (forall i :: 0 < i < |free| ==> free[i].n > 0)
    && (forall i, j :: 0 <= i < j < |free| ==> End(free[i]) < free[j].at)
  }

  predicate Apart(free: seq<Block>, alloc: map<nat, nat>) {
    && (forall a :: a in alloc ==> a > 0 && alloc[a] > 0)
    && (forall a, b :: a in alloc && b in alloc && a != b ==> Clear(Block(a, alloc[a]), Block(b, alloc[b])))
    && (forall a, i :: a in alloc && 0 <= i < |free| ==> Clear(Block(a, alloc[a]), free[i]))
  }

  ghost predicate InFree(free: seq<Block>, u: nat) { exists i :: 0 <= i < |free| && Holds(free[i], u) }

  ghost predicate InAlloc(alloc: map<nat, nat>, u: nat) { exists a :: a in alloc && Holds(Block(a, alloc[a]), u) }

  /** Free and allocated blocks make up the memory from sbrk. */
  ghost predicate Tiles(k: Book) {
    forall u: nat :: u in k.memory <==> InFree(k.free, u) || InAlloc(k.alloc, u)
  }

  ghost predicate BookOk(k: Book) { Sorted(k.free) && Apart(k.free, k.alloc) && Tiles(k) }

  /* The list with blocks i to j replaced by one. */

  function Replace(free: seq<Block>, i: nat, j: nat, b: Block): seq<Block>
    requires i <= j <= |free|
  {
    free[..i] + [b] + free[j..]
  }

  lemma ReplaceSorted(free: seq<Block>, i: nat, j: nat, b: Block)
    requires Sorted(free) && 0 < i <= j <= |free| && b.n > 0
    requires End(free[i - 1]) < b.at && (j < |free| ==> End(b) < free[j].at)
    ensures Sorted(Replace(free, i, j, b))
  {
    var t := Replace(free, i, j, b);
    forall x, y | 0 <= x < y < |t|
      ensures End(t[x]) < t[y].at
    {
      if x < i { assert x < i - 1 ==> End(free[x]) < free[i - 1].at; }
      if y > i { assert t[y] == free[y - i - 1 + j]; assert y - i - 1 > 0 ==> End(free[j]) < t[y].at; }
    }
  }

  lemma InConcat(a: seq<Block>, b: seq<Block>, u: nat)
    ensures InFree(a + b, u) <==> InFree(a, u) || InFree(b, u)
  {
    if InFree(a, u) { var i :| 0 <= i < |a| && Holds(a[i], u); assert Holds((a + b)[i], u); }
    if InFree(b, u) { var i :| 0 <= i < |b| && Holds(b[i], u); assert Holds((a + b)[|a| + i], u); }
  }

  lemma InReplace(free: seq<Block>, i: nat, j: nat, b: Block, u: nat)
    requires i <= j <= |free|
    ensures InFree(free, u) <==> InFree(free[..i], u) || InFree(free[i..j], u) || InFree(free[j..], u)
    ensures InFree(Replace(free, i, j, b), u) <==> InFree(free[..i], u) || Holds(b, u) || InFree(free[j..], u)
  {
    assert free == free[..i] + free[i..j] + free[j..];
    InConcat(free[..i] + free[i..j], free[j..], u);
    InConcat(free[..i], free[i..j], u);
    InConcat(free[..i] + [b], free[j..], u);
    InConcat(free[..i], [b], u);
    assert Holds([b][0], u) <==> Holds(b, u);
  }

  /* free */

  /** Block k is the one after which a block at bp belongs. */
  predicate Before(free: seq<Block>, k: nat, bp: nat) {
    k < |free| && free[k].at < bp && (k + 1 < |free| ==> bp < free[k + 1].at)
  }

  predicate Up(free: seq<Block>, k: nat, b: Block) {
    k + 1 < |free| && End(b) == free[k + 1].at
  }

  predicate Down(free: seq<Block>, k: nat, b: Block)
    requires k < |free|
  {
    End(free[k]) == b.at
  }

  /** Where the list is cut, and the block that closes the cut: b joined to the neighbours it touches. */
  function Low(free: seq<Block>, k: nat, b: Block): nat
    requires k < |free|
  {
    if Down(free, k, b) then k else k + 1
  }

  function High(free: seq<Block>, k: nat, b: Block): nat { if Up(free, k, b) then k + 2 else k + 1 }

  function Joined(free: seq<Block>, k: nat, b: Block): Block
    requires k < |free|
  {
    var lower := if Down(free, k, b) then free[k].n else 0;
    Block(b.at - lower, lower + b.n + if Up(free, k, b) then free[k + 1].n else 0)
  }

  function FreedList(free: seq<Block>, k: nat, b: Block): seq<Block>
    requires k < |free|
  {
    Replace(free, Low(free, k, b), High(free, k, b), Joined(free, k, b))
  }

  function Freed(m: Book, k: nat, bp: nat): Book
    requires bp in m.alloc && k < |m.free|
  {
    Book(FreedList(m.free, k, Block(bp, m.alloc[bp])), m.alloc - {bp}, m.memory)
  }

  lemma FreedSorted(m: Book, k: nat, bp: nat)
    requires BookOk(m) && bp in m.alloc && Before(m.free, k, bp)
    ensures Sorted(Freed(m, k, bp).free)
  {
    var b := Block(bp, m.alloc[bp]);
    assert Clear(b, m.free[k]) && (k + 1 < |m.free| ==> Clear(b, m.free[k + 1]));
    ReplaceSorted(m.free, Low(m.free, k, b), High(m.free, k, b), Joined(m.free, k, b));
  }

  lemma FreedApart(m: Book, k: nat, bp: nat)
    requires BookOk(m) && bp in m.alloc && Before(m.free, k, bp)
    ensures Apart(Freed(m, k, bp).free, m.alloc - {bp})
  {
    var b := Block(bp, m.alloc[bp]);
    var c := Joined(m.free, k, b);
    var t := Freed(m, k, bp);
    forall a | a in t.alloc
      ensures Clear(Block(a, t.alloc[a]), c)
    {
      assert Clear(Block(a, m.alloc[a]), b) && Clear(Block(a, m.alloc[a]), m.free[k]);
      assert k + 1 < |m.free| ==> Clear(Block(a, m.alloc[a]), m.free[k + 1]);
    }
    forall a, i | a in t.alloc && 0 <= i < |t.free|
      ensures Clear(Block(a, t.alloc[a]), t.free[i])
    {
      assert t.free[i] == c || t.free[i] in m.free;
    }
  }

  /** The joined block holds what b held and what the blocks it replaces held. */
  lemma JoinedHolds(m: Book, k: nat, bp: nat, u: nat)
    requires BookOk(m) && bp in m.alloc && Before(m.free, k, bp)
    ensures var b := Block(bp, m.alloc[bp]); Holds(Joined(m.free, k, b), u) <==>
              Holds(b, u) || InFree(m.free[Low(m.free, k, b)..High(m.free, k, b)], u)
  {
    var b := Block(bp, m.alloc[bp]);
    var mid := m.free[Low(m.free, k, b)..High(m.free, k, b)];
    if Down(m.free, k, b) { assert mid[0] == m.free[k]; }
    if Up(m.free, k, b) { assert mid[|mid| - 1] == m.free[k + 1]; }
  }

  lemma FreedTiles(m: Book, k: nat, bp: nat)
    requires BookOk(m) && bp in m.alloc && Before(m.free, k, bp)
    ensures Tiles(Freed(m, k, bp))
  {
    var b := Block(bp, m.alloc[bp]);
    var t := Freed(m, k, bp);
    forall u: nat
      ensures u in t.memory <==> InFree(t.free, u) || InAlloc(t.alloc, u)
    {
      JoinedHolds(m, k, bp, u);
      InReplace(m.free, Low(m.free, k, b), High(m.free, k, b), Joined(m.free, k, b), u);
      InRest(m.alloc, bp, u);
    }
  }

  lemma InRest(alloc: map<nat, nat>, bp: nat, u: nat)
    requires bp in alloc
    ensures InAlloc(alloc, u) <==> Holds(Block(bp, alloc[bp]), u) || InAlloc(alloc - {bp}, u)
  {
    if InAlloc(alloc, u) {
      var a :| a in alloc && Holds(Block(a, alloc[a]), u);
      assert a != bp ==> a in alloc - {bp};
    }
  }

  lemma FreedKeeps(m: Book, k: nat, bp: nat)
    requires BookOk(m) && bp in m.alloc && Before(m.free, k, bp)
    ensures BookOk(Freed(m, k, bp))
  {
    FreedSorted(m, k, bp);
    FreedApart(m, k, bp);
    FreedTiles(m, k, bp);
  }

  /* malloc */

  /** Free block j with its last n units handed out, or gone from the list when it has no more than n. */
  function Taken(m: Book, j: nat, n: nat): Book
    requires j < |m.free| && n <= m.free[j].n
  {
    var b := m.free[j];
    Book(if b.n == n then m.free[..j] + m.free[j + 1..] else m.free[j := Block(b.at, b.n - n)],
         m.alloc[End(b) - n := n], m.memory)
  }

  lemma TakenSorted(m: Book, j: nat, n: nat)
    requires Sorted(m.free) && 0 < j < |m.free| && 0 < n <= m.free[j].n
    ensures Sorted(Taken(m, j, n).free)
  {
    var t := Taken(m, j, n);
    forall x, y | 0 <= x < y < |t.free|
      ensures End(t.free[x]) < t.free[y].at
    {
      var d := if m.free[j].n == n then 1 else 0;
      assert t.free[x].at == m.free[if x < j then x else x + d].at &&
        End(t.free[x]) <= End(m.free[if x < j then x else x + d]);
      assert t.free[y].at == m.free[if y < j then y else y + d].at;
    }
  }

  lemma TakenApart(m: Book, j: nat, n: nat)
    requires Apart(m.free, m.alloc) && Sorted(m.free) && 0 < j < |m.free| && 0 < n <= m.free[j].n
    ensures End(m.free[j]) - n !in m.alloc
    ensures Apart(Taken(m, j, n).free, Taken(m, j, n).alloc)
  {
    var t := Taken(m, j, n);
    var b := m.free[j];
    var a := Block(End(b) - n, n);
    forall x | x in m.alloc
      ensures Clear(Block(x, m.alloc[x]), a) && x != a.at
    {
      assert Clear(Block(x, m.alloc[x]), b);
    }
    forall i | 0 <= i < |t.free|
      ensures Clear(a, t.free[i]) && (forall x :: x in m.alloc ==> Clear(Block(x, m.alloc[x]), t.free[i]))
    {
      var w := if b.n == n && i >= j then i + 1 else i;
      assert t.free[i] == m.free[w] || (w == j && t.free[i] == Block(b.at, b.n - n));
      assert forall x :: x in m.alloc ==> Clear(Block(x, m.alloc[x]), m.free[w]);
    }
  }

  lemma TakenIn(m: Book, j: nat, n: nat, u: nat)
    requires j < |m.free| && 0 < n <= m.free[j].n
    ensures InFree(m.free, u) <==> InFree(Taken(m, j, n).free, u) || Holds(Block(End(m.free[j]) - n, n), u)
  {
    var t := Taken(m, j, n);
    var b := m.free[j];
    var c := Block(b.at, b.n - n);
    assert m.free[j..j + 1] == [b];
    assert Holds([b][0], u) <==> Holds(b, u);
    InReplace(m.free, j, j + 1, c, u);
    if b.n == n {
      InConcat(m.free[..j], m.free[j + 1..], u);
    } else {
      assert t.free == Replace(m.free, j, j + 1, c);
    }
  }

  lemma TakenTiles(m: Book, j: nat, n: nat)
    requires j < |m.free| && 0 < n <= m.free[j].n && Tiles(m) && End(m.free[j]) - n !in m.alloc
    ensures Tiles(Taken(m, j, n))
  {
    var t := Taken(m, j, n);
    var a := End(m.free[j]) - n;
    assert t.alloc - {a} == m.alloc;
    forall u: nat
      ensures u in t.memory <==> InFree(t.free, u) || InAlloc(t.alloc, u)
    {
      TakenIn(m, j, n, u);
      InRest(t.alloc, a, u);
    }
  }

  lemma TakenKeeps(m: Book, j: nat, n: nat)
    requires BookOk(m) && 0 < j < |m.free| && 0 < n <= m.free[j].n
    ensures BookOk(Taken(m, j, n)) && End(m.free[j]) - n !in m.alloc
  {
    TakenSorted(m, j, n);
    TakenApart(m, j, n);
    TakenTiles(m, j, n);
  }

  /* morecore */

  function Units(b: Block): set<nat> { set u | b.at <= u < End(b) && Holds(b, u) }

  /** New memory above all the old, as a block about to be freed. */
  function Grown(m: Book, a: nat, n: nat): Book {
    Book(m.free, m.alloc[a := n], m.memory + Units(Block(a, n)))
  }

  predicate Above(m: Book, a: nat) { a > 0 && forall u :: u in m.memory ==> u < a }

  lemma BlocksBelow(m: Book, a: nat, b: Block)
    requires BookOk(m) && Above(m, a) && (b in m.free || (b.at in m.alloc && b.n == m.alloc[b.at]))
    ensures End(b) <= a
  {
    if b.n > 0 {
      assert Holds(b, End(b) - 1);
      if b in m.free { assert InFree(m.free, End(b) - 1); } else { assert InAlloc(m.alloc, End(b) - 1); }
      assert End(b) - 1 in m.memory;
    } else {
      assert b in m.free;
      var i :| 0 <= i < |m.free| && m.free[i] == b;
      assert i == 0;
    }
  }

  lemma GrownApart(m: Book, a: nat, n: nat)
    requires BookOk(m) && Above(m, a) && n > 0
    ensures a !in m.alloc && Apart(m.free, m.alloc[a := n]) && Before(m.free, |m.free| - 1, a)
  {
    forall x | x in m.alloc
      ensures End(Block(x, m.alloc[x])) <= a
    {
      BlocksBelow(m, a, Block(x, m.alloc[x]));
    }
    forall i | 0 <= i < |m.free|
      ensures End(m.free[i]) <= a
    {
      BlocksBelow(m, a, m.free[i]);
    }
  }

  lemma GrownTiles(m: Book, a: nat, n: nat)
    requires Tiles(m) && a !in m.alloc
    ensures Tiles(Grown(m, a, n))
  {
    var t := Grown(m, a, n);
    assert t.alloc - {a} == m.alloc;
    forall u: nat
      ensures u in t.memory <==> InFree(t.free, u) || InAlloc(t.alloc, u)
    {
      InRest(t.alloc, a, u);
    }
  }

  lemma GrownKeeps(m: Book, a: nat, n: nat)
    requires BookOk(m) && Above(m, a) && n > 0
    ensures a !in m.alloc && BookOk(Grown(m, a, n)) && Before(m.free, |m.free| - 1, a)
  {
    GrownApart(m, a, n);
    GrownTiles(m, a, n);
  }

  /* The headers in memory. */

  datatype Heads = Heads(next: map<nat, nat>, size: map<nat, nat>)

  function Succ(i: nat, n: nat): nat { if i + 1 == n then 0 else i + 1 }

  /** The header of free block i gives its size and the address of the block after it; the last leads to the first. */
  predicate LinkOk(h: Heads, free: seq<Block>, i: nat) {
    && i < |free| && free[i].at in h.next && free[i].at in h.size && h.size[free[i].at] == free[i].n
    && h.next[free[i].at] == free[Succ(i, |free|)].at
  }

  predicate Links(h: Heads, free: seq<Block>) { forall i :: 0 <= i < |free| ==> LinkOk(h, free, i) }

  predicate SizeOk(h: Heads, alloc: map<nat, nat>, a: nat) { a in alloc && a in h.size && h.size[a] == alloc[a] }

  predicate Sizes(h: Heads, alloc: map<nat, nat>) { forall a :: a in alloc ==> SizeOk(h, alloc, a) }

  ghost predicate HeapOk(h: Heads, m: Book) { BookOk(m) && Links(h, m.free) && Sizes(h, m.alloc) }

  /** What free writes, given the block p it has found for bp. */
  function FreedHeads(h: Heads, p: nat, bp: nat): Heads
    requires p in h.next && p in h.size && bp in h.size && h.next[p] in h.next && h.next[p] in h.size
  {
    var q := h.next[p];
    var g := if bp + h.size[bp] == q
             then Heads(h.next[bp := h.next[q]], h.size[bp := h.size[bp] + h.size[q]])
             else Heads(h.next[bp := q], h.size);
    if p + g.size[p] == bp
    then Heads(g.next[p := g.next[bp]], g.size[p := g.size[p] + g.size[bp]])
    else Heads(g.next[p := bp], g.size)
  }

  predicate Agree(h: Heads, g: Heads, a: nat) {
    && (a in h.next <==> a in g.next) && (a in h.next ==> h.next[a] == g.next[a])
    && (a in h.size <==> a in g.size) && (a in h.size ==> h.size[a] == g.size[a])
  }

  lemma LinkAt(h: Heads, free: seq<Block>, i: nat)
    requires Links(h, free) && i < |free|
    ensures LinkOk(h, free, i)
  {}

  /** The headers at a cut of the list: the block before it leads to b, and b to the block after it. */
  predicate CutOk(g: Heads, free: seq<Block>, i: nat, j: nat, b: Block) {
    && 0 < i <= j <= |free|
    && b.at in g.next && b.at in g.size && g.size[b.at] == b.n && g.next[b.at] == free[if j == |free| then 0 else j].at
    && free[i - 1].at in g.next && free[i - 1].at in g.size
    && g.size[free[i - 1].at] == free[i - 1].n && g.next[free[i - 1].at] == b.at
  }

  /** Replacing blocks i to j by one keeps the links when only the headers at the cut change. */
  lemma ReplaceLinks(h: Heads, free: seq<Block>, i: nat, j: nat, b: Block, g: Heads)
    requires Links(h, free) && CutOk(g, free, i, j, b)
    requires forall x :: 0 <= x < |free| && (x < i - 1 || j <= x) ==> Agree(h, g, free[x].at)
    ensures Links(g, Replace(free, i, j, b))
  {
    var t := Replace(free, i, j, b);
    forall x | 0 <= x < |t|
      ensures LinkOk(g, t, x)
    {
      if x != i {
        var w := if x < i then x else x - i - 1 + j;
        assert t[x] == free[w];
        assert LinkOk(h, free, w);
        assert x < i ==> t[x + 1] == if x + 1 < i then free[x + 1] else b;
      } else {
        assert t[i] == b;
      }
    }
  }

  /** The headers that free uses: those of the block before bp, of the one after, and of bp. */
  lemma FreedUses(h: Heads, m: Book, k: nat, bp: nat)
    requires HeapOk(h, m) && bp in m.alloc && Before(m.free, k, bp)
    ensures LinkOk(h, m.free, k) && LinkOk(h, m.free, Succ(k, |m.free|)) && SizeOk(h, m.alloc, bp)
  {}

  /** Away from the cut, free leaves the headers of the list alone. */
  lemma FreedAgree(h: Heads, m: Book, k: nat, bp: nat, x: nat)
    requires Sorted(m.free) && Before(m.free, k, bp) && x < |m.free| && x != k
    requires LinkOk(h, m.free, k) && LinkOk(h, m.free, Succ(k, |m.free|)) && bp in h.size
    ensures Agree(h, FreedHeads(h, m.free[k].at, bp), m.free[x].at)
  {
    assert x < k ==> End(m.free[x]) < m.free[k].at;
    assert x > k ==> End(m.free[k]) < m.free[x].at;
    assert x > k + 1 ==> End(m.free[k + 1]) < m.free[x].at;
  }

  lemma FreedCut(h: Heads, m: Book, k: nat, bp: nat)
    requires LinkOk(h, m.free, k) && LinkOk(h, m.free, Succ(k, |m.free|)) && SizeOk(h, m.alloc, bp)
    requires Before(m.free, k, bp) && m.free[0] == Block(0, 0)
    requires k > 0 ==> LinkOk(h, m.free, k - 1) && End(m.free[k - 1]) < m.free[k].at
    ensures var b := Block(bp, m.alloc[bp]);
      CutOk(FreedHeads(h, m.free[k].at, bp), m.free, Low(m.free, k, b), High(m.free, k, b), Joined(m.free, k, b))
  {}

  lemma FreedLinks(h: Heads, m: Book, k: nat, bp: nat)
    requires Sorted(m.free) && Links(h, m.free) && Before(m.free, k, bp) && SizeOk(h, m.alloc, bp)
    requires LinkOk(h, m.free, k) && LinkOk(h, m.free, Succ(k, |m.free|))
    ensures Links(FreedHeads(h, m.free[k].at, bp), Freed(m, k, bp).free)
  {
    var b := Block(bp, m.alloc[bp]);
    var g := FreedHeads(h, m.free[k].at, bp);
    if k > 0 { LinkAt(h, m.free, k - 1); }
    FreedCut(h, m, k, bp);
    forall x | 0 <= x < |m.free| && x != k
      ensures Agree(h, g, m.free[x].at)
    {
      FreedAgree(h, m, k, bp, x);
    }
    ReplaceLinks(h, m.free, Low(m.free, k, b), High(m.free, k, b), Joined(m.free, k, b), g);
  }

  lemma FreedSizes(h: Heads, m: Book, k: nat, bp: nat)
    requires HeapOk(h, m) && bp in m.alloc && Before(m.free, k, bp)
    requires LinkOk(h, m.free, k) && LinkOk(h, m.free, Succ(k, |m.free|)) && SizeOk(h, m.alloc, bp)
    ensures Sizes(FreedHeads(h, m.free[k].at, bp), m.alloc - {bp})
  {
    var g := FreedHeads(h, m.free[k].at, bp);
    forall a | a in m.alloc - {bp}
      ensures SizeOk(g, m.alloc - {bp}, a)
    {
      assert SizeOk(h, m.alloc, a);
      assert Clear(Block(a, m.alloc[a]), m.free[k]);
    }
  }

  lemma FreedHeap(h: Heads, m: Book, k: nat, bp: nat)
    requires HeapOk(h, m) && bp in m.alloc && Before(m.free, k, bp)
    ensures LinkOk(h, m.free, k) && LinkOk(h, m.free, Succ(k, |m.free|)) && SizeOk(h, m.alloc, bp)
    ensures HeapOk(FreedHeads(h, m.free[k].at, bp), Freed(m, k, bp))
  {
    FreedUses(h, m, k, bp);
    FreedLinks(h, m, k, bp);
    FreedSizes(h, m, k, bp);
    FreedKeeps(m, k, bp);
  }

  /** What malloc writes when it takes n units of the block p, which follows prev. */
  function TakenHeads(h: Heads, prev: nat, p: nat, n: nat): Heads
    requires p in h.next && p in h.size && h.size[p] >= n
  {
    if h.size[p] == n
    then Heads(h.next[prev := h.next[p]], h.size)
    else Heads(h.next, h.size[p := h.size[p] - n][p + h.size[p] - n := n])
  }

  lemma TakenWholeAt(h: Heads, m: Book, j: nat, n: nat, x: nat, w: nat)
    requires 0 < j < |m.free| && n == m.free[j].n && LinkOk(h, m.free, j) && LinkOk(h, m.free, w)
    requires w == (if x < j then x else x + 1) && (w != j - 1 ==> m.free[w].at != m.free[j - 1].at)
    ensures LinkOk(TakenHeads(h, m.free[j - 1].at, m.free[j].at, n), Taken(m, j, n).free, x)
  {
    var t := Taken(m, j, n).free;
    assert t[x] == m.free[w];
    assert t[Succ(x, |t|)] == m.free[if w == j - 1 then Succ(j, |m.free|) else Succ(w, |m.free|)];
  }

  lemma TakenWhole(h: Heads, m: Book, j: nat, n: nat)
    requires Sorted(m.free) && Links(h, m.free) && 0 < j < |m.free| && n == m.free[j].n && LinkOk(h, m.free, j)
    ensures Links(TakenHeads(h, m.free[j - 1].at, m.free[j].at, n), Taken(m, j, n).free)
  {
    var g := TakenHeads(h, m.free[j - 1].at, m.free[j].at, n);
    var t := Taken(m, j, n).free;
    forall x | 0 <= x < |t|
      ensures LinkOk(g, t, x)
    {
      var w := if x < j then x else x + 1;
      LinkAt(h, m.free, w);
      if w != j - 1 { Distinct(m.free, w, j - 1); }
      TakenWholeAt(h, m, j, n, x, w);
    }
  }

  lemma Distinct(free: seq<Block>, i: nat, j: nat)
    requires Sorted(free) && i < |free| && j < |free| && i != j
    ensures free[i].at != free[j].at
  {}

  lemma TakenPart(h: Heads, m: Book, j: nat, n: nat)
    requires Sorted(m.free) && Links(h, m.free) && 0 < j < |m.free| && 0 < n < m.free[j].n
    requires LinkOk(h, m.free, j) && LinkOk(h, m.free, j - 1)
    ensures Links(TakenHeads(h, m.free[j - 1].at, m.free[j].at, n), Taken(m, j, n).free)
  {
    var g := TakenHeads(h, m.free[j - 1].at, m.free[j].at, n);
    var c := Block(m.free[j].at, m.free[j].n - n);
    assert Taken(m, j, n).free == Replace(m.free, j, j + 1, c);
    forall x | 0 <= x < |m.free| && x != j
      ensures Agree(h, g, m.free[x].at)
    {
      assert x < j ==> End(m.free[x]) < m.free[j].at;
      assert x > j ==> End(m.free[j]) < m.free[x].at;
    }
    assert CutOk(g, m.free, j, j + 1, c);
    ReplaceLinks(h, m.free, j, j + 1, c, g);
  }

  lemma TakenSizes(h: Heads, m: Book, j: nat, n: nat)
    requires Apart(m.free, m.alloc) && Sizes(h, m.alloc) && 0 < j < |m.free| && 0 < n <= m.free[j].n
    requires LinkOk(h, m.free, j)
    ensures Sizes(TakenHeads(h, m.free[j - 1].at, m.free[j].at, n), Taken(m, j, n).alloc)
  {
    var g := TakenHeads(h, m.free[j - 1].at, m.free[j].at, n);
    var t := Taken(m, j, n).alloc;
    forall a | a in t
      ensures SizeOk(g, t, a)
    {
      if a != End(m.free[j]) - n {
        assert SizeOk(h, m.alloc, a);
        assert Clear(Block(a, m.alloc[a]), m.free[j]);
      }
    }
  }

  lemma TakenHeap(h: Heads, m: Book, j: nat, n: nat)
    requires HeapOk(h, m) && 0 < j < |m.free| && 0 < n <= m.free[j].n
    ensures LinkOk(h, m.free, j) && LinkOk(h, m.free, j - 1) && End(m.free[j]) - n !in m.alloc
    ensures HeapOk(TakenHeads(h, m.free[j - 1].at, m.free[j].at, n), Taken(m, j, n))
  {
    LinkAt(h, m.free, j);
    LinkAt(h, m.free, j - 1);
    if n == m.free[j].n { TakenWhole(h, m, j, n); } else { TakenPart(h, m, j, n); }
    TakenSizes(h, m, j, n);
    TakenKeeps(m, j, n);
  }

  lemma GrownHeap(h: Heads, m: Book, a: nat, n: nat)
    requires HeapOk(h, m) && Above(m, a) && n > 0
    ensures a !in m.alloc && Before(m.free, |m.free| - 1, a)
    ensures HeapOk(h.(size := h.size[a := n]), Grown(m, a, n))
  {
    GrownKeeps(m, a, n);
    var g := h.(size := h.size[a := n]);
    forall i | 0 <= i < |m.free|
      ensures LinkOk(g, m.free, i)
    {
      assert LinkOk(h, m.free, i);
      assert i < |m.free| - 1 ==> End(m.free[i]) < m.free[|m.free| - 1].at;
    }
    var alloc := m.alloc[a := n];
    forall x | x in alloc
      ensures SizeOk(g, alloc, x)
    {
      assert x != a ==> SizeOk(h, m.alloc, x);
    }
  }

  /* Walking the ring. */

  /** Steps along the ring from i to j. */
  function Dist(i: nat, j: nat, n: nat): nat
    requires i < n && j < n
  {
    if i <= j then j - i else j - i + n
  }

  lemma CutExists(m: Book, bp: nat) returns (k: nat)
    requires BookOk(m) && bp in m.alloc
    ensures Before(m.free, k, bp)
  {
    k := 0;
    while k + 1 < |m.free| && m.free[k + 1].at < bp
      invariant k < |m.free| && m.free[k].at < bp
    {
      k := k + 1;
    }
    if k + 1 < |m.free| { assert Clear(Block(bp, m.alloc[bp]), m.free[k + 1]); }
  }

  /** Both ways out of free's search, at a block p followed by q. */
  predicate Stops(p: nat, q: nat, bp: nat) { p < bp < q || (p >= q && (bp > p || bp < q)) }

  /** The search stops at the block after which bp belongs and nowhere else. */
  lemma StopsAtCut(free: seq<Block>, k: nat, bp: nat, i: nat)
    requires Sorted(free) && Before(free, k, bp) && i < |free|
    ensures Stops(free[i].at, free[Succ(i, |free|)].at, bp) <==> i == k
  {
    assert i < k ==> End(free[i]) < free[k].at;
    assert i < k - 1 ==> End(free[i + 1]) < free[k].at;
    assert i > k + 1 ==> End(free[k + 1]) < free[i].at;
  }

  /** malloc's choice: the first block of n units at or after block i, going round the ring. */
  ghost predicate NextFit(free: seq<Block>, from: nat, n: nat, j: nat) {
    && from < |free| && 0 < j < |free| && n <= free[j].n && NoneFit(free, from, n, j)
  }

  ghost predicate NoneFit(free: seq<Block>, from: nat, n: nat, j: nat)
    requires from < |free| && j < |free|
  {
    forall x :: 0 <= x < |free| && Dist(from, x, |free|) < Dist(from, j, |free|) ==> free[x].n < n
  }

  predicate Fits(free: seq<Block>, n: nat) { exists x :: 0 <= x < |free| && n <= free[x].n }

  lemma NextFitFits(free: seq<Block>, from: nat, n: nat, j: nat)
    requires NextFit(free, from, n, j)
    ensures Fits(free, n)
  {}

  lemma ScanNext(free: seq<Block>, pos: nat, n: nat, i: nat)
    requires pos < |free| && i < |free| && i != pos && free[i].n < n && NoneFit(free, Succ(pos, |free|), n, i)
    ensures NoneFit(free, Succ(pos, |free|), n, Succ(i, |free|))
    ensures Dist(Succ(i, |free|), pos, |free|) < Dist(i, pos, |free|)
  {}

  lemma ScanEnd(free: seq<Block>, pos: nat, n: nat)
    requires pos < |free| && free[pos].n < n && NoneFit(free, Succ(pos, |free|), n, pos)
    ensures !Fits(free, n)
  {
    forall x | 0 <= x < |free|
      ensures free[x].n < n
    {
      assert x != pos ==> Dist(Succ(pos, |free|), x, |free|) < Dist(Succ(pos, |free|), pos, |free|);
    }
  }

  /* More memory. */

  const CHUNK := 4096

  function Asked(n: nat): (r: nat)
    ensures r >= n && r >= 4096 && (r == n || r == 4096)
  {
    if n < CHUNK then CHUNK else n
  }

  /** New memory at a, freed into a list that lies below it. */
  function More(m: Book, a: nat, n: nat): Book
    requires |m.free| > 0
  {
    Freed(Grown(m, a, n), |m.free| - 1, a)
  }

  lemma MoreEffect(m: Book, a: nat, n: nat)
    requires BookOk(m) && Above(m, a) && n > 0
    ensures More(m, a, n).alloc == m.alloc && More(m, a, n).memory == m.memory + Units(Block(a, n))
    ensures Fits(More(m, a, n).free, n)
  {
    GrownKeeps(m, a, n);
    var t := More(m, a, n);
    var k := |m.free| - 1;
    assert t.free[Low(m.free, k, Block(a, n))] == Joined(m.free, k, Block(a, n));
  }

  lemma CutUnique(free: seq<Block>, k: nat, l: nat, bp: nat)
    requires Sorted(free) == true && Before(free, k, bp) == true && Before(free, l, bp) == true
    ensures k == l
  {
    StopsAtCut(free, l, bp, l);
    StopsAtCut(free, k, bp, l);
  }

  /** The heap in order, with freep at free block pos. */
  ghost predicate ReadyAt(h: Heads, m: Book, pos: nat, freep: Option<nat>) {
    HeapOk(h, m) && pos < |m.free| && freep == Some(m.free[pos].at)
  }

  lemma FreedReady(h: Heads, m: Book, pos: nat, freep: Option<nat>, k: nat, bp: nat, p: nat)
    requires ReadyAt(h, m, pos, freep) == true && bp in m.alloc && Before(m.free, k, bp) && p == m.free[k].at
    ensures p in h.next && p in h.size && bp in h.size && h.next[p] in h.next && h.next[p] in h.size
    ensures ReadyAt(FreedHeads(h, p, bp), Freed(m, k, bp), k, Some(p)) == true
  {
    FreedHeap(h, m, k, bp);
  }

  lemma GrownReady(h: Heads, m: Book, pos: nat, freep: Option<nat>, a: nat, n: nat)
    requires ReadyAt(h, m, pos, freep) == true && Above(m, a) == true && n > 0
    ensures a in Grown(m, a, n).alloc && ReadyAt(h.(size := h.size[a := n]), Grown(m, a, n), pos, freep) == true
  {
    GrownHeap(h, m, a, n);
  }

  /** Freeing the new memory can only put it last. */
  lemma MoreIs(h: Heads, m: Book, pos: nat, freep: Option<nat>, a: nat, n: nat, k: nat)
    requires ReadyAt(h, m, pos, freep) == true && Above(m, a) == true && n > 0 && Before(m.free, k, a) == true
    ensures |m.free| > 0 && k == |m.free| - 1
  {
    GrownHeap(h, m, a, n);
    CutUnique(m.free, k, |m.free| - 1, a);
  }

  lemma TakenReady(h: Heads, m: Book, pos: nat, freep: Option<nat>, j: nat, n: nat)
    requires ReadyAt(h, m, pos, freep) == true && 0 < j < |m.free| && 0 < n <= m.free[j].n
    ensures LinkOk(h, m.free, j) && LinkOk(h, m.free, j - 1)
    ensures var prev := m.free[j - 1].at;
      ReadyAt(TakenHeads(h, prev, m.free[j].at, n), Taken(m, j, n), j - 1, Some(prev)) == true
  {
    TakenHeap(h, m, j, n);
  }

  /** malloc's search, at block i with address p after a block with address prev: nothing fits so far. */
  ghost predicate Scanning(h: Heads, m: Book, pos: nat, n: nat, i: nat, prev: nat, p: nat) {
    && pos < |m.free| && LinkOk(h, m.free, i) && p == m.free[i].at
    && prev == m.free[if i == 0 then |m.free| - 1 else i - 1].at
    && NoneFit(m.free, Succ(pos, |m.free|), n, i)
  }

  lemma ScanStart(h: Heads, m: Book, pos: nat, freep: Option<nat>, n: nat, p: nat)
    requires ReadyAt(h, m, pos, freep) == true && freep == Some(p)
    ensures p in h.next && Succ(pos, |m.free|) < |m.free|
    ensures Scanning(h, m, pos, n, Succ(pos, |m.free|), p, h.next[p]) == true
  {
    LinkAt(h, m.free, pos);
    LinkAt(h, m.free, Succ(pos, |m.free|));
  }

  lemma ScanStep(h: Heads, m: Book, pos: nat, freep: Option<nat>, n: nat, i: nat, prev: nat, p: nat)
    requires ReadyAt(h, m, pos, freep) == true && Scanning(h, m, pos, n, i, prev, p)
    requires h.size[p] < n && Some(p) != freep
    ensures Succ(i, |m.free|) < |m.free| && Scanning(h, m, pos, n, Succ(i, |m.free|), p, h.next[p]) == true
    ensures Dist(Succ(i, |m.free|), pos, |m.free|) < Dist(i, pos, |m.free|)
  {
    ScanNext(m.free, pos, n, i);
    LinkAt(h, m.free, Succ(i, |m.free|));
  }

  lemma ScanFound(h: Heads, m: Book, pos: nat, freep: Option<nat>, n: nat, i: nat, prev: nat, p: nat)
    requires ReadyAt(h, m, pos, freep) == true && Scanning(h, m, pos, n, i, prev, p) && 0 < n <= h.size[p]
    ensures 0 < i < |m.free| && prev == m.free[i - 1].at && p == m.free[i].at && n <= m.free[i].n
    ensures NextFit(m.free, Succ(pos, |m.free|), n, i) == true
    ensures ReadyAt(TakenHeads(h, prev, p, n), Taken(m, i, n), i - 1, Some(prev)) == true
  {
    TakenReady(h, m, pos, freep, i, n);
  }

  lemma ScanFail(h: Heads, m: Book, pos: nat, freep: Option<nat>, n: nat, i: nat, prev: nat, p: nat)
    requires ReadyAt(h, m, pos, freep) == true && Scanning(h, m, pos, n, i, prev, p)
    requires h.size[p] < n && Some(p) == freep
    ensures !Fits(m.free, n)
  {
    if i != pos { Distinct(m.free, i, pos); }
    ScanEnd(m.free, pos, n);
  }

  /** Bytes in headers, with one for the header itself. */
  function Nunits(nbytes: nat): nat { (nbytes + 15) / 16 + 1 }

  /** The list before any memory is asked for: base alone. */
  function Empty(): Book { Book([Block(0, 0)], map[], {}) }

  lemma EmptyReady(h: Heads)
    ensures ReadyAt(Heads(h.next[0 := 0], h.size[0 := 0]), Empty(), 0, Some(0)) == true
  {}

  /** Block j is the first that fits after block pos, and its last n units are handed out; the next search is from j. */
  ghost predicate Given(m: Book, pos: nat, n: nat, j: nat, now: Book, r: Option<nat>, at: nat) {
    && pos < |m.free| && NextFit(m.free, Succ(pos, |m.free|), n, j)
    && now == Taken(m, j, n) && r == Some(End(m.free[j]) - n + 1) && at == j - 1
  }

  ghost predicate GivenSome(m: Book, pos: nat, n: nat, now: Book, r: Option<nat>, at: nat) {
    exists j :: Given(m, pos, n, j, now, r, at)
  }

  /**
   What malloc does to m, from the block after pos on: when nothing there fits it asks for more memory, once. at is
   the block that freep is left at.
   */
  ghost predicate Served(m: Book, pos: nat, sbrk: Option<nat>, n: nat, now: Book, r: Option<nat>, at: nat) {
    if Fits(m.free, n) then GivenSome(m, pos, n, now, r, at)
    else if sbrk.None? || m.free == [] then r == None && now == m && at == pos
    else GivenSome(More(m, sbrk.value, Asked(n)), |m.free| - 1, n, now, r, at)
  }

  /** A search through the list m from block at, and whether it has asked for memory. */
  datatype Search = Search(m: Book, at: nat, grown: bool)

  /** The search is in the list as it was, or has been in vain there and is in the list with more memory. */
  ghost predicate Looking(s: Search, sbrk: Option<nat>, n: nat, book: Book, pos: nat) {
    if s.grown
    then !Fits(s.m.free, n) && sbrk.Some? && s.m.free != [] && Fits(book.free, n)
         && book == More(s.m, sbrk.value, Asked(n)) && pos == |s.m.free| - 1
    else book == s.m && pos == s.at
  }

  lemma LookFound(s: Search, sbrk: Option<nat>, n: nat, book: Book, pos: nat, i: nat)
    requires Looking(s, sbrk, n, book, pos) && pos < |book.free|
    requires NextFit(book.free, Succ(pos, |book.free|), n, i) == true
    ensures 0 < i < |book.free| && n <= book.free[i].n
    ensures Served(s.m, s.at, sbrk, n, Taken(book, i, n), Some(End(book.free[i]) - n + 1), i - 1) == true
  {
    assert Given(book, pos, n, i, Taken(book, i, n), Some(End(book.free[i]) - n + 1), i - 1);
    NextFitFits(book.free, Succ(pos, |book.free|), n, i);
  }

  lemma LookFail(s: Search, sbrk: Option<nat>, n: nat, book: Book, pos: nat)
    requires Looking(s, sbrk, n, book, pos) && !Fits(book.free, n)
    ensures !s.grown && book == s.m && pos == s.at && !Fits(s.m.free, n)
    ensures sbrk.None? ==> Served(s.m, s.at, sbrk, n, s.m, None, s.at) == true
  {}

  lemma LookAgain(h: Heads, s: Search, sbrk: nat, n: nat, freep: Option<nat>, now: Book)
    requires ReadyAt(h, s.m, s.at, freep) == true && !Fits(s.m.free, n) && Above(s.m, sbrk) && n > 0
    requires now == More(s.m, sbrk, Asked(n))
    ensures Looking(s.(grown := true), Some(sbrk), n, now, |s.m.free| - 1) == true
  {
    MoreEffect(s.m, sbrk, Asked(n));
    var x :| 0 <= x < |now.free| && Asked(n) <= now.free[x].n;
    assert n <= now.free[x].n;
  }

  lemma FoundReady(h: Heads, m: Book, pos: nat, freep: Option<nat>, n: nat, i: nat, prev: nat, p: nat, s: Search,
                   sbrk: Option<nat>, r: nat)
    requires ReadyAt(h, m, pos, freep) == true && Scanning(h, m, pos, n, i, prev, p) == true
    requires p in h.size && 0 < n <= h.size[p] && Looking(s, sbrk, n, m, pos) == true && r == p + h.size[p] - n + 1
    ensures 0 < i < |m.free| && n <= m.free[i].n && p in h.next
    ensures ReadyAt(TakenHeads(h, prev, p, n), Taken(m, i, n), i - 1, Some(prev)) == true
    ensures Served(s.m, s.at, sbrk, n, Taken(m, i, n), Some(r), i - 1) == true
  {
    ScanFound(h, m, pos, freep, n, i, prev, p);
    LookFound(s, sbrk, n, m, pos, i);
  }

  /* What the list is, and what the calls do to it. */

  /** No unit is both free and allocated. */
  lemma Disjoint(m: Book, u: nat)
    requires BookOk(m)
    ensures !(InFree(m.free, u) && InAlloc(m.alloc, u))
  {
    forall i, a | 0 <= i < |m.free| && a in m.alloc
      ensures !(Holds(m.free[i], u) && Holds(Block(a, m.alloc[a]), u))
    {
      assert Clear(Block(a, m.alloc[a]), m.free[i]);
    }
  }

  ghost predicate Within(f: seq<Block>, g: seq<Block>) { forall u: nat :: InFree(f, u) ==> InFree(g, u) }

  lemma NextAt(f: seq<Block>, g: seq<Block>, i: nat)
    requires Sorted(f) && Sorted(g) && Within(f, g) && 0 < i < |f| && i <= |g| && f[..i] == g[..i]
    ensures i < |g| && g[i].at <= f[i].at
  {
    var u := f[i].at;
    forall x | 0 <= x < i
      ensures !Holds(g[x], u)
    {
      assert g[x] == g[..i][x] && f[x] == f[..i][x];
      assert End(f[x]) < f[i].at;
    }
    assert Holds(f[i], u);
    assert InFree(g, u);
    var j :| 0 <= j < |g| && Holds(g[j], u);
    assert j > i ==> End(g[i]) < g[j].at;
  }

  lemma NextEnd(f: seq<Block>, g: seq<Block>, i: nat)
    requires Sorted(f) && Sorted(g) && Within(f, g) && 0 < i < |f| && i < |g| && f[i].at == g[i].at
    ensures End(f[i]) <= End(g[i])
  {
    var u := End(g[i]);
    forall x | 0 <= x < |g|
      ensures !Holds(g[x], u)
    {
      assert x > i ==> End(g[i]) < g[x].at;
      assert x < i ==> End(g[x]) < g[i].at;
    }
    assert !InFree(f, u);
    assert !Holds(f[i], u);
  }

  /** A sorted and coalesced list is determined by the units it holds. */
  lemma Canonical(f: seq<Block>, g: seq<Block>)
    requires Sorted(f) && Sorted(g) && Within(f, g) && Within(g, f)
    ensures f == g
  {
    var i := 1;
    while i < |f| && i < |g|
      invariant 1 <= i <= |f| && i <= |g| && f[..i] == g[..i]
    {
      NextAt(f, g, i);
      NextAt(g, f, i);
      NextEnd(f, g, i);
      NextEnd(g, f, i);
      assert f[..i + 1] == f[..i] + [f[i]] && g[..i + 1] == g[..i] + [g[i]];
      i := i + 1;
    }
    if i < |f| { NextAt(f, g, i); }
    if i < |g| { NextAt(g, f, i); }
  }

  /** What is allocated and what came from sbrk determine the free list, whatever calls led there. */
  lemma ListDetermined(m: Book, t: Book)
    requires BookOk(m) && BookOk(t) && m.alloc == t.alloc && m.memory == t.memory
    ensures m == t
  {
    forall u: nat
      ensures InFree(m.free, u) <==> InFree(t.free, u)
    {
      Disjoint(m, u);
      Disjoint(t, u);
    }
    Canonical(m.free, t.free);
  }

  /** free undoes malloc: the list is again what it was, block for block. */
  lemma FreeUndoesMalloc(m: Book, j: nat, n: nat, k: nat)
    requires BookOk(m) && 0 < j < |m.free| && 0 < n <= m.free[j].n
    requires Before(Taken(m, j, n).free, k, End(m.free[j]) - n)
    ensures Freed(Taken(m, j, n), k, End(m.free[j]) - n) == m
  {
    var a := End(m.free[j]) - n;
    var t := Taken(m, j, n);
    TakenKeeps(m, j, n);
    FreedKeeps(t, k, a);
    assert t.alloc - {a} == m.alloc;
    ListDetermined(Freed(t, k, a), m);
  }

  /** malloc hands out n units that were not, leaves the other blocks alone, and fails only for want of memory. */
  lemma MallocEffect(m: Book, pos: nat, sbrk: Option<nat>, n: nat, now: Book, r: Option<nat>, at: nat)
    requires BookOk(m) && (sbrk.Some? ==> Above(m, sbrk.value)) && n > 0 && Served(m, pos, sbrk, n, now, r, at)
    ensures r.None? <==> !Fits(m.free, n) && sbrk.None?
    ensures r.None? ==> now == m
    ensures r.Some? ==> r.value > 0 && r.value - 1 !in m.alloc && now.alloc == m.alloc[r.value - 1 := n]
    ensures now.memory == if Fits(m.free, n) || sbrk.None? then m.memory
                          else m.memory + Units(Block(sbrk.value, Asked(n)))
    ensures BookOk(now)
  {
    if !Fits(m.free, n) && sbrk.Some? {
      GrownKeeps(m, sbrk.value, Asked(n));
      FreedKeeps(Grown(m, sbrk.value, Asked(n)), |m.free| - 1, sbrk.value);
      MoreEffect(m, sbrk.value, Asked(n));
      GivenEffect(More(m, sbrk.value, Asked(n)), |m.free| - 1, n, now, r, at);
    } else if Fits(m.free, n) {
      GivenEffect(m, pos, n, now, r, at);
    }
  }

  lemma GivenEffect(m: Book, pos: nat, n: nat, now: Book, r: Option<nat>, at: nat)
    requires BookOk(m) && n > 0 && GivenSome(m, pos, n, now, r, at)
    ensures r.Some? && r.value > 0 && r.value - 1 !in m.alloc
    ensures now.alloc == m.alloc[r.value - 1 := n] && now.memory == m.memory && BookOk(now)
  {
    var j :| Given(m, pos, n, j, now, r, at);
    TakenKeeps(m, j, n);
  }

  /** The block handed out has room for nbytes after its header, and a unit less would not have. */
  ghost predicate Holding(m: Book, nbytes: nat, now: Book, r: nat) {
    && r > 0 && r - 1 in now.alloc && r - 1 !in m.alloc && now.alloc == m.alloc[r - 1 := now.alloc[r - 1]]
    && nbytes + 16 <= 16 * now.alloc[r - 1] < nbytes + 32
  }

  lemma MallocHolds(m: Book, pos: nat, sbrk: Option<nat>, nbytes: nat, now: Book, r: Option<nat>, at: nat)
    requires BookOk(m) && (sbrk.Some? ==> Above(m, sbrk.value))
    requires Served(m, pos, sbrk, Nunits(nbytes), now, r, at) == true
    ensures if r.Some? then Holding(m, nbytes, now, r.value) == true
            else now == m && sbrk.None? && forall b :: b in m.free ==> 16 * b.n < nbytes + 16
  {
    MallocEffect(m, pos, sbrk, Nunits(nbytes), now, r, at);
    if r.None? {
      forall b | b in m.free ensures b.n < Nunits(nbytes) {
        var x :| 0 <= x < |m.free| && m.free[x] == b;
      }
    }
  }

  lemma BookReady(h: Heads, m: Book, pos: nat, freep: Option<nat>)
    requires ReadyAt(h, m, pos, freep) == true
    ensures BookOk(m) == true
  {}

  /* The argument of sbrk is an int. */

  const INT_LIMIT := 0x8000_0000

  /** The low 32 bits of a size in bytes, read as a signed number. */
  function ToInt(x: nat): int {
    var w := x % (2 * INT_LIMIT);
    if w < INT_LIMIT then w else w - 2 * INT_LIMIT
  }

  /** The size of a process of sz bytes after morecore has asked for n headers, when there is memory enough. */
  function SizeAfter(sz: nat, n: nat): nat { NewSize(sz, ToInt(n * 16)) }

  /** The headers' worth of memory that sbrk adds when morecore takes itself to be given n of them. */
  function Gained(sz: nat, n: nat): nat {
    if SizeAfter(sz, n) > sz then (SizeAfter(sz, n) - sz) / 16 else 0
  }

  /** The bytes that it takes away. */
  function Lost(sz: nat, n: nat): nat {
    if SizeAfter(sz, n) < sz then sz - SizeAfter(sz, n) else 0
  }

  /** A process of less than 2^31 bytes gets what morecore asks for exactly when that is less than 2^27 headers. */
  lemma SbrkGives(sz: nat, n: nat)
    requires sz < INT_LIMIT
    ensures Gained(sz, n) <= n && (Gained(sz, n) == n <==> n < INT_LIMIT / 16)
    ensures n < INT_LIMIT / 16 ==> Lost(sz, n) == 0
  {}

  /** The first request that fails is one for 2^31 - 31 bytes: sbrk succeeds and adds nothing. */
  lemma FirstTooBig(sz: nat)
    requires sz < INT_LIMIT
    ensures forall nbytes: nat :: Nunits(nbytes) < INT_LIMIT / 16 <==> nbytes < INT_LIMIT - 31
    ensures Gained(sz, Asked(Nunits(INT_LIMIT - 31))) == 0 && Lost(sz, Asked(Nunits(INT_LIMIT - 31))) == 0
  {}

  /** Larger ones can also take memory away, or add a little of it. */
  lemma LargerRequests()
    ensures Lost(0x1_0000, Asked(Nunits(0xffff_ffe0))) == 16 && Gained(0x1_0000, Asked(Nunits(0xffff_ffff))) == 1
  {}

  /** The units below the break, which was at a and has gone up by Gained units or down by Lost bytes. */
  function MemoryAfter(m: Book, a: nat, sz: nat, n: nat): set<nat> {
    (set u | u in m.memory && (u + 1) * 16 + Lost(sz, n) <= a * 16) + Units(Block(a, Gained(sz, n)))
  }

  /**
   After morecore the free and allocated blocks make up the memory that there is exactly when it asked for less than
   2^27 headers. From there on the list holds units that sbrk did not give.
   */
  lemma MoreTiles(m: Book, a: nat, sz: nat, n: nat)
    requires BookOk(m) && Above(m, a) && n > 0 && sz < INT_LIMIT
    ensures Tiles(More(m, a, n).(memory := MemoryAfter(m, a, sz, n))) <==> n < INT_LIMIT / 16
  {
    SbrkGives(sz, n);
    GrownKeeps(m, a, n);
    FreedKeeps(Grown(m, a, n), |m.free| - 1, a);
    var t, now := More(m, a, n), MemoryAfter(m, a, sz, n);
    if n >= INT_LIMIT / 16 {
      var u := a + Gained(sz, n);
      assert u in t.memory;
      assert u !in now;
    } else {
      MemoryKept(m, a, sz, n);
    }
  }

  lemma MemoryKept(m: Book, a: nat, sz: nat, n: nat)
    requires Above(m, a) && Lost(sz, n) == 0
    ensures MemoryAfter(m, a, sz, n) == m.memory + Units(Block(a, Gained(sz, n)))
  {}

  class Allocator {
    var next: map<nat, nat>
    var size: map<nat, nat>
    var freep: Option<nat>
    ghost var book: Book
    ghost var pos: nat

    ghost predicate Ready()
      reads this
    {
      ReadyAt(Heads(next, size), book, pos, freep)
    }

    constructor ()
      ensures freep == None && book == Empty() && pos == 0
    {
      next, size, freep := map[], map[], None;
      book, pos := Empty(), 0;
    }

    /** The loop of free: the block after which bp belongs, from wherever freep is. */
    method SearchCut(bp: nat) returns (p: nat, ghost k: nat)
      requires Ready() == true && bp in book.alloc
      ensures Before(book.free, k, bp) && p == book.free[k].at
    {
      ghost var h, m := Heads(next, size), book;
      k := CutExists(m, bp);
      p := freep.value;
      ghost var i: nat := pos;
      LinkAt(h, m.free, i);
      StopsAtCut(m.free, k, bp, i);
      while !(bp > p && bp < next[p])
        invariant i < |m.free| && p == m.free[i].at && LinkOk(h, m.free, i)
        invariant Stops(p, next[p], bp) <==> i == k
        decreases Dist(i, k, |m.free|)
      {
        if p >= next[p] && (bp > p || bp < next[p]) {
          break;
        }
        p, i := next[p], Succ(i, |m.free|);
        LinkAt(h, m.free, i);
        StopsAtCut(m.free, k, bp, i);
      }
    }

    /** The rest of free: bp goes in after p, joined to the neighbours it touches. */
    method Link(p: nat, bp: nat)
      requires p in next && p in size && bp in size && next[p] in next && next[p] in size
      modifies `next, `size
      ensures Heads(next, size) == FreedHeads(old(Heads(next, size)), p, bp)
    {
      var q := next[p];
      if bp + size[bp] == q {
        size := size[bp := size[bp] + size[q]];
        next := next[bp := next[q]];
      } else {
        next := next[bp := q];
      }
      if p + size[p] == bp {
        size := size[p := size[p] + size[bp]];
        next := next[p := next[bp]];
      } else {
        next := next[p := bp];
      }
    }

    method Free(ap: nat)
      requires Ready() == true && ap > 0 && ap - 1 in book.alloc
      modifies this
      ensures Ready() == true && Before(old(book).free, pos, ap - 1) && book == Freed(old(book), pos, ap - 1)
    {
      var bp := ap - 1;
      var p, k := SearchCut(bp);
      ghost var after := Freed(book, k, bp);
      FreedReady(Heads(next, size), book, pos, freep, k, bp, p);
      Link(p, bp);
      freep := Some(p);
      book, pos := after, k;
    }
  
    /** morecore, given what sbrk answers: the address of the new memory, or nothing. MoreTiles is why n is bounded. */
    method Morecore(n: nat, sbrk: Option<nat>) returns (p: Option<nat>)
      requires Ready() == true && n > 0 && (sbrk.Some? ==> Above(book, sbrk.value) && n < INT_LIMIT / 16)
      modifies this
      ensures Ready() == true
      ensures sbrk.None? ==> p.None? && book == old(book) && pos == old(pos) && freep == old(freep)
      ensures sbrk.Some? ==> p.Some? && p == freep
      ensures sbrk.Some? ==> |old(book).free| > 0 && pos == |old(book).free| - 1
      ensures sbrk.Some? ==> book == More(old(book), sbrk.value, Asked(n))
    {
      var nu := n;
      if nu < CHUNK {
        nu := CHUNK;
      }
      if sbrk.None? {
        return None;
      }
      var hp := sbrk.value;
      ghost var h, m, at, was := Heads(next, size), book, pos, freep;
      GrownReady(h, m, at, was, hp, nu);
      size := size[hp := nu];
      book := Grown(m, hp, nu);
      Free(hp + 1);
      MoreIs(h, m, at, was, hp, nu, pos);
      p := freep;
    }
  
    /** Takes n units of the block p, which follows prev. */
    method Take(prev: nat, p: nat, n: nat) returns (a: nat)
      requires p in next && p in size && 0 < n <= size[p]
      modifies `next, `size
      ensures Heads(next, size) == TakenHeads(old(Heads(next, size)), prev, p, n)
      ensures a == p + old(size)[p] - n
    {
      a := p;
      if size[p] == n {
        next := next[prev := next[p]];
      } else {
        size := size[p := size[p] - n];
        a := p + size[p];
        size := size[a := n];
      }
    }

    method Grant(prev: nat, p: nat, n: nat, ghost i: nat, ghost s: Search, ghost sbrk: Option<nat>)
      returns (a: nat)
      requires Ready() == true && Scanning(Heads(next, size), book, pos, n, i, prev, p) == true
      requires Looking(s, sbrk, n, book, pos) == true && p in size && 0 < n <= size[p] && pos < |book.free|
      modifies this
      ensures Ready() == true && Served(s.m, s.at, sbrk, n, book, Some(a), pos) == true
    {
      ghost var r := p + size[p] - n + 1;
      FoundReady(Heads(next, size), book, pos, freep, n, i, prev, p, s, sbrk, r);
      ghost var after := Taken(book, i, n);
      a := Take(prev, p, n);
      a := a + 1;
      assert a == r;
      Leave(prev, after, i - 1);
    }

    /** freep = prev; the list is m now. */
    method Leave(prev: nat, ghost m: Book, ghost at: nat)
      requires ReadyAt(Heads(next, size), m, at, Some(prev)) == true
      modifies `freep, `book, `pos
      ensures Ready() == true && freep == Some(prev) && book == m && pos == at
    {
      freep := Some(prev);
      book, pos := m, at;
    }

    /** Back at freep with nothing found: asks for memory, and starts over when there is some. */
    method Extend(p: nat, n: nat, sbrk: Option<nat>, ghost s: Search, ghost i: nat, ghost prev: nat)
      returns (q: Option<nat>)
      requires Ready() == true && Scanning(Heads(next, size), book, pos, n, i, prev, p) == true
      requires Looking(s, sbrk, n, book, pos) == true
      requires sbrk.Some? ==> Above(s.m, sbrk.value) == true && n < INT_LIMIT / 16
      requires n > 0 && p in size && size[p] < n && freep == Some(p)
      modifies this
      ensures !s.grown && Ready() == true && q == (if sbrk.None? then None else freep)
      ensures q.None? ==> Served(s.m, s.at, sbrk, n, book, None, pos) == true
      ensures q.Some? ==> Looking(s.(grown := true), sbrk, n, book, pos) == true
    {
      ghost var h := Heads(next, size);
      ScanFail(h, book, pos, freep, n, i, prev, p);
      LookFail(s, sbrk, n, book, pos);
      q := Morecore(n, sbrk);
      if q.Some? {
        LookAgain(h, s, sbrk.value, n, Some(p), book);
      }
    }

    /** The static header base is made the whole list when there is none. */
    method Start() returns (prev: nat)
      requires if freep.None? then book == Empty() && pos == 0 else Ready() == true
      modifies `next, `size, `freep
      ensures Ready() == true && freep == Some(prev)
    {
      if freep.None? {
        EmptyReady(Heads(next, size));
        next, size, freep := next[0 := 0], size[0 := 0], Some(0);
      }
      prev := freep.value;
    }

    /** The next block to look at: the one after p, or after freep when memory had to be asked for at freep. */
    method Advance(p: nat, n: nat, sbrk: Option<nat>, ghost s: Search, ghost i: nat, ghost prev: nat)
      returns (q: Option<nat>, ghost t: Search, ghost j: nat)
      requires Ready() == true && Scanning(Heads(next, size), book, pos, n, i, prev, p) == true
      requires Looking(s, sbrk, n, book, pos) == true
      requires sbrk.Some? ==> Above(s.m, sbrk.value) == true && n < INT_LIMIT / 16
      requires n > 0 && p in size && size[p] < n && freep.Some? && i < |book.free| && pos < |book.free|
      modifies this
      ensures Ready() == true && t.m == s.m && t.at == s.at
      ensures q.None? ==> Served(s.m, s.at, sbrk, n, book, None, pos) == true
      ensures q.Some? ==> q.value in next && j < |book.free| && pos < |book.free|
      ensures q.Some? ==> Scanning(Heads(next, size), book, pos, n, j, q.value, next[q.value]) == true
      ensures q.Some? ==> Looking(t, sbrk, n, book, pos) == true
      ensures q.Some? && !t.grown ==> !s.grown
      ensures q.Some? && (t.grown <==> s.grown) ==> book == old(book) && pos == old(pos)
      ensures q.Some? && (t.grown <==> s.grown) ==> Dist(j, pos, |book.free|) < Dist(i, pos, |book.free|)
    {
      q, t, j := Some(p), s, i;
      if p == freep.value {
        q := Extend(p, n, sbrk, s, i, prev);
        t := s.(grown := true);
        if q.Some? {
          ScanStart(Heads(next, size), book, pos, freep, n, q.value);
          j := Succ(pos, |book.free|);
        }
      } else {
        ScanStep(Heads(next, size), book, pos, freep, n, i, prev, p);
        j := Succ(i, |book.free|);
      }
    }

    /** malloc's loop, for n units. */
    method Allocate(n: nat, sbrk: Option<nat>) returns (r: Option<nat>)
      requires n > 0 && if freep.None? then book == Empty() && pos == 0 else Ready() == true
      requires sbrk.Some? ==> Above(book, sbrk.value) == true && n < INT_LIMIT / 16
      modifies this
      ensures Ready() == true && BookOk(old(book)) == true
      ensures Served(old(book), old(pos), sbrk, n, book, r, pos) == true
    {
      ghost var s := Search(book, pos, false);
      var prev := Start();
      BookReady(Heads(next, size), book, pos, freep);
      ScanStart(Heads(next, size), book, pos, freep, n, prev);
      var p := next[prev];
      ghost var i: nat := Succ(pos, |book.free|);
      while true
        invariant Ready() == true && Scanning(Heads(next, size), book, pos, n, i, prev, p) == true
        invariant i < |book.free| && pos < |book.free|
        invariant s.m == old(book) && s.at == old(pos) && Looking(s, sbrk, n, book, pos) == true
        decreases !s.grown, Dist(i, pos, |book.free|)
      {
        if size[p] >= n {
          var a := Grant(prev, p, n, i, s, sbrk);
          return Some(a);
        }
        var q;
        q, s, i := Advance(p, n, sbrk, s, i, prev);
        if q.None? {
          return None;
        }
        prev, p := q.value, next[q.value];
      }
    }

    method Malloc(nbytes: nat, sbrk: Option<nat>) returns (r: Option<nat>)
      requires if freep.None? then book == Empty() && pos == 0 else Ready() == true
      requires sbrk.Some? ==> Above(book, sbrk.value) == true && Nunits(nbytes) < INT_LIMIT / 16
      modifies this
      ensures Ready() == true
      ensures Served(old(book), old(pos), sbrk, Nunits(nbytes), book, r, pos) == true
      ensures r.Some? ==> Holding(old(book), nbytes, book, r.value) == true
      ensures r.None? ==> book == old(book) && sbrk.None? && forall b :: b in book.free ==> 16 * b.n < nbytes + 16
    {
      r := Allocate(Nunits(nbytes), sbrk);
      MallocHolds(old(book), old(pos), sbrk, nbytes, book, r, pos);
    }
  }
}

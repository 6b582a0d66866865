/**
 Copies between kernel memory and the user memory of an address space: walkaddr, copyin, copyout, copyinstr.
 A predicate that a method only hands on is written `P == true`, so that it is handed on unopened.
 */
module UserCopy {
  import opened Basics
  import opened Bytes
  import opened PageTable
  import opened Vm

  /** The user may touch virtual page v. */
  predicate Accessible(k: Kst, s: Space, v: nat) {
    v < MAXVPN && Valid(Lookup(k.pages, s.tab, v)) && Lookup(k.pages, s.tab, v).perm.u
  }

  /** The space maps nothing for the user above the memory it owns. */
  ghost predicate UserBelow(k: Kst, s: Space) {
    forall v: nat :: v >= s.top ==> !Accessible(k, s, v)
  }

  /** The byte at a virtual address. */
  function ByteAt(k: Kst, s: Space, va: nat): Byte {
    PageOf(k.pages, s.tab, va / PGSIZE).bytes[va % PGSIZE]
  }

  /** out is what the addresses from va on hold. */
  ghost predicate Reads(k: Kst, s: Space, va: nat, out: seq<Byte>) {
    forall x :: va <= x < va + |out| ==> Accessible(k, s, x / PGSIZE) && ByteAt(k, s, x) == out[x - va]
  }

  lemma ReadsNext(k: Kst, s: Space, va: nat, cur: nat, out: seq<Byte>, more: seq<Byte>)
    requires Reads(k, s, va, out) == true && cur == va + |out| && Reads(k, s, cur, more) == true
    ensures Reads(k, s, va, out + more) == true
  {}

  /** n bytes at address cur lie in one page. */
  lemma ReadsPage(k: Kst, s: Space, cur: nat, n: nat)
    requires Accessible(k, s, cur / PGSIZE) && cur % PGSIZE + n <= PGSIZE
    ensures Reads(k, s, cur, PageOf(k.pages, s.tab, cur / PGSIZE).bytes[cur % PGSIZE..cur % PGSIZE + n]) == true
  {
    var piece := PageOf(k.pages, s.tab, cur / PGSIZE).bytes[cur % PGSIZE..cur % PGSIZE + n];
    forall x | cur <= x < cur + |piece| ensures Accessible(k, s, x / PGSIZE) && ByteAt(k, s, x) == piece[x - cur] {
      SamePage(cur, n, x);
    }
  }

  lemma SamePage(cur: nat, n: nat, x: nat)
    requires cur % PGSIZE + n <= PGSIZE && cur <= x < cur + n
    ensures x / PGSIZE == cur / PGSIZE && x % PGSIZE == cur % PGSIZE + (x - cur)
  {}

  /** What walkaddr finds is a page of bytes. */
  lemma AccessiblePage(lo: nat, k: Kst, s: Space, v: nat)
    requires Good(lo, k, s) == true && UserBelow(k, s) == true && Accessible(k, s, v)
    ensures v < s.top && var p := Lookup(k.pages, s.tab, v).ppn;
            && p < |k.pages| && k.pages[p].Plain? && k.pages[p].data == PageOf(k.pages, s.tab, v)
            && p in s.own && s.own[p] == Mem(v)
  {
    LeafForm(lo, k, s, v);
  }

  /** The byte at an address that the user may touch is where the hardware finds it. */
  lemma UserByte(lo: nat, k: Kst, s: Space, va: nat)
    requires Good(lo, k, s) == true && UserBelow(k, s) == true && Accessible(k, s, va / PGSIZE)
    ensures ROOT in s.tab
    ensures
      var e := Mmu(k.pages, s.tab[ROOT], va / 4096);
      && e.perm.v && e.perm.u && e.ppn < |k.pages| && k.pages[e.ppn].Plain? && |k.pages[e.ppn].data.bytes| == 4096
      && ByteAt(k, s, va) == k.pages[e.ppn].data.bytes[va % 4096]
  {
    MmuLookup(lo, k, s, va / PGSIZE);
    AccessiblePage(lo, k, s, va / PGSIZE);
  }

  /** walkaddr */
  method WalkAddr(kr: Kernel, root: nat, v: nat, ghost s: Space) returns (r: Option<nat>)
    requires Good(kr.lo, kr.Now(), s) == true && ROOT in s.tab && s.tab[ROOT] == root
    modifies kr
    ensures kr.Now() == old(kr.Now())
    ensures r == if Accessible(kr.Now(), s, v) then Some(Lookup(kr.pages, s.tab, v).ppn) else None
  {
    if v >= MAXVPN { return None; }
    var q;
    ghost var t;
    q, t := kr.Walk(root, v, false, s);
    if q.None? { return None; }
    LookupAt(kr.lo, kr.Now(), s, v);
    var pte := kr.pages[q.value].pte[v % ENTRIES];
    if !Valid(pte) { return None; }
    if !pte.perm.u { return None; }
    return Some(pte.ppn);
  }

  /** How much of a copy of len bytes at cur lies in the page of cur. */
  function PieceLen(cur: nat, len: nat): (n: nat)
    ensures n <= len && cur % PGSIZE + n <= PGSIZE && (len > 0 ==> n > 0) && (n == len || (cur + n) % PGSIZE == 0)
  {
    if len < PGSIZE - cur % PGSIZE then len else PGSIZE - cur % PGSIZE
  }

  /**
   copyin of len bytes at srcva: succeeds exactly when all of them are accessible, and copies up to the first that
   is not.
   */
  method Copyin(kr: Kernel, root: nat, srcva: nat, len: nat, ghost s: Space) returns (ok: bool, dst: seq<Byte>)
    requires Good(kr.lo, kr.Now(), s) == true && ROOT in s.tab && s.tab[ROOT] == root && UserBelow(kr.Now(), s) == true
    modifies kr
    ensures kr.Now() == old(kr.Now()) && |dst| <= len && Reads(kr.Now(), s, srcva, dst) == true
    ensures if ok then |dst| == len else |dst| < len && !Accessible(kr.Now(), s, (srcva + |dst|) / PGSIZE)
  {
    ghost var k := kr.Now();
    dst := [];
    while |dst| < len
      invariant |dst| <= len && kr.Now() == k && Reads(k, s, srcva, dst) == true
    {
      var cur := srcva + |dst|;
      var p := WalkAddr(kr, root, cur / PGSIZE, s);
      if p.None? { return false, dst; }
      AccessiblePage(kr.lo, k, s, cur / PGSIZE);
      var n := PieceLen(cur, len - |dst|);
      var piece := kr.pages[p.value].data.bytes[cur % PGSIZE..cur % PGSIZE + n];
      ReadsPage(k, s, cur, n);
      ReadsNext(k, s, srcva, cur, dst, piece);
      dst := dst + piece;
    }
    return true, dst;
  }

  /** memmove of data into a page at o. */
  function Over(page: PageData, o: nat, data: seq<Byte>): PageData
    requires o + |data| <= PGSIZE
  {
    Data(page.bytes[..o] + data + page.bytes[o + |data|..])
  }

  /** The store of data at address cur, inside one page. */
  function Stored(k: Kst, s: Space, cur: nat, data: seq<Byte>): Kst
    requires Lookup(k.pages, s.tab, cur / PGSIZE).ppn < |k.pages| && cur % PGSIZE + |data| <= PGSIZE
  {
    k.(pages := k.pages[Lookup(k.pages, s.tab, cur / PGSIZE).ppn :=
                          Plain(Over(PageOf(k.pages, s.tab, cur / PGSIZE), cur % PGSIZE, data))])
  }

  /** Virtual page v is memory of the space, for the user or not. */
  predicate IsMemory(k: Kst, s: Space, v: nat) { v < s.top && Valid(Lookup(k.pages, s.tab, v)) }

  /** The memory of the space holds src at va and is otherwise as before; nothing else has changed. */
  ghost predicate Writes(k: Kst, s: Space, l: Kst, va: nat, src: seq<Byte>) {
    && l.free == k.free && l.head == k.head && |l.pages| == |k.pages| && SameMap(k, s, l, s)
    && (forall p :: 0 <= p < |k.pages| && !(p in s.own && s.own[p].Mem?) ==> l.pages[p] == k.pages[p])
    && (forall x :: 0 <= x && IsMemory(k, s, x / PGSIZE) ==>
          ByteAt(l, s, x) == if va <= x < va + |src| then src[x - va] else ByteAt(k, s, x))
  }

  lemma WritesStart(k: Kst, s: Space, va: nat)
    ensures Writes(k, s, k, va, []) == true
  {}

  lemma WritesNext(k: Kst, s: Space, l: Kst, m: Kst, va: nat, cur: nat, src: seq<Byte>, at: nat, next: nat,
                   piece: seq<Byte>)
    requires at <= next <= |src| && piece == src[at..next] && cur == va + at
    requires Writes(k, s, l, va, src[..at]) == true && Writes(l, s, m, cur, piece) == true
    ensures Writes(k, s, m, va, src[..next]) == true
  {
    forall x | 0 <= x && IsMemory(k, s, x / PGSIZE)
      ensures ByteAt(m, s, x) == if va <= x < va + next then src[x - va] else ByteAt(k, s, x)
    {
      assert IsMemory(l, s, x / PGSIZE);
      assert ByteAt(l, s, x) == if va <= x < va + at then src[x - va] else ByteAt(k, s, x);
    }
  }

  lemma SameAccess(k: Kst, s: Space, l: Kst, va: nat, src: seq<Byte>, v: nat)
    requires Writes(k, s, l, va, src) == true
    ensures Accessible(l, s, v) <==> Accessible(k, s, v)
  {}

  lemma StoredGood(lo: nat, k: Kst, s: Space, cur: nat, data: seq<Byte>)
    requires Good(lo, k, s) == true && UserBelow(k, s) == true && Accessible(k, s, cur / PGSIZE)
    requires cur % PGSIZE + |data| <= PGSIZE
    ensures Lookup(k.pages, s.tab, cur / PGSIZE).ppn < |k.pages|
    ensures Good(lo, Stored(k, s, cur, data), s) == true && UserBelow(Stored(k, s, cur, data), s) == true
    ensures SameMap(k, s, Stored(k, s, cur, data), s) == true
  {
    AccessiblePage(lo, k, s, cur / PGSIZE);
    var p := Lookup(k.pages, s.tab, cur / PGSIZE).ppn;
    StoreMem(k.pages, s, p, Over(PageOf(k.pages, s.tab, cur / PGSIZE), cur % PGSIZE, data));
    SameChain(k.pages, Stored(k, s, cur, data).pages, k.head, k.free);
    UserBelowSame(k, s, Stored(k, s, cur, data));
  }

  lemma UserBelowSame(k: Kst, s: Space, l: Kst)
    requires UserBelow(k, s) == true && SameMap(k, s, l, s) == true
    ensures UserBelow(l, s) == true
  {
    forall v: nat | v >= s.top ensures !Accessible(l, s, v) {
      assert !Accessible(k, s, v);
    }
  }

  lemma StoredByte(lo: nat, k: Kst, s: Space, cur: nat, data: seq<Byte>, x: nat)
    requires Good(lo, k, s) == true && UserBelow(k, s) == true && Accessible(k, s, cur / PGSIZE)
    requires cur % PGSIZE + |data| <= PGSIZE
    requires Lookup(k.pages, s.tab, cur / PGSIZE).ppn < |k.pages| && SameMap(k, s, Stored(k, s, cur, data), s) == true
    requires IsMemory(k, s, x / PGSIZE)
    ensures ByteAt(Stored(k, s, cur, data), s, x) == if cur <= x < cur + |data| then data[x - cur] else ByteAt(k, s, x)
  {
    AccessiblePage(lo, k, s, cur / PGSIZE);
    LeafForm(lo, k, s, x / PGSIZE);
    WhichPage(cur, |data|, x);
  }

  lemma StoredWrites(lo: nat, k: Kst, s: Space, cur: nat, data: seq<Byte>)
    requires Good(lo, k, s) == true && UserBelow(k, s) == true && Accessible(k, s, cur / PGSIZE)
    requires cur % PGSIZE + |data| <= PGSIZE
    requires Lookup(k.pages, s.tab, cur / PGSIZE).ppn < |k.pages| && SameMap(k, s, Stored(k, s, cur, data), s) == true
    ensures Writes(k, s, Stored(k, s, cur, data), cur, data) == true
  {
    var l := Stored(k, s, cur, data);
    AccessiblePage(lo, k, s, cur / PGSIZE);
    forall x | 0 <= x && IsMemory(k, s, x / PGSIZE)
      ensures ByteAt(l, s, x) == if cur <= x < cur + |data| then data[x - cur] else ByteAt(k, s, x)
    {
      StoredByte(lo, k, s, cur, data, x);
    }
  }

  lemma WhichPage(cur: nat, n: nat, x: nat)
    requires cur % PGSIZE + n <= PGSIZE
    ensures cur <= x < cur + n ==> x / PGSIZE == cur / PGSIZE
    ensures x / PGSIZE == cur / PGSIZE ==> x - cur == x % PGSIZE - cur % PGSIZE
  {}

  ghost predicate AllAccessible(k: Kst, s: Space, a: nat, b: nat) {
    forall x :: a <= x < b ==> Accessible(k, s, x / PGSIZE)
  }

  /** What copyout has done when at bytes are stored. */
  ghost predicate CopiedOut(lo: nat, k: Kst, s: Space, l: Kst, va: nat, src: seq<Byte>, at: nat) {
    && at <= |src| && Good(lo, l, s) && UserBelow(l, s)
    && Writes(k, s, l, va, src[..at]) && AllAccessible(k, s, va, va + at)
  }

  lemma CopyoutStart(lo: nat, k: Kst, s: Space, va: nat, src: seq<Byte>)
    requires Good(lo, k, s) == true && UserBelow(k, s) == true
    ensures CopiedOut(lo, k, s, k, va, src, 0) == true
  {
    WritesStart(k, s, va);
    assert src[..0] == [];
  }

  lemma CopyoutNext(lo: nat, k: Kst, s: Space, l: Kst, va: nat, cur: nat, src: seq<Byte>, at: nat, next: nat)
    requires CopiedOut(lo, k, s, l, va, src, at) == true && cur == va + at && at <= next <= |src|
    requires Accessible(l, s, cur / PGSIZE) && cur % PGSIZE + (next - at) <= PGSIZE
    ensures Lookup(l.pages, s.tab, cur / PGSIZE).ppn < |l.pages|
    ensures CopiedOut(lo, k, s, Stored(l, s, cur, src[at..next]), va, src, next) == true
  {
    var piece := src[at..next];
    StoredGood(lo, l, s, cur, piece);
    StoredWrites(lo, l, s, cur, piece);
    WritesNext(k, s, l, Stored(l, s, cur, piece), va, cur, src, at, next, piece);
    SameAccess(k, s, l, va, src[..at], cur / PGSIZE);
    AllAccessibleNext(k, s, va, cur, va + next);
  }

  lemma AllAccessibleNext(k: Kst, s: Space, va: nat, cur: nat, b: nat)
    requires AllAccessible(k, s, va, cur) == true && Accessible(k, s, cur / PGSIZE)
    requires cur <= b && cur % PGSIZE + (b - cur) <= PGSIZE
    ensures AllAccessible(k, s, va, b) == true
  {
    forall x | va <= x < b ensures Accessible(k, s, x / PGSIZE) {
      if x >= cur { SamePage(cur, b - cur, x); }
    }
  }

  /** One iteration of copyout: data at cur, inside one page. */
  method StorePiece(kr: Kernel, root: nat, cur: nat, data: seq<Byte>, ghost s: Space) returns (ok: bool)
    requires Good(kr.lo, kr.Now(), s) == true && ROOT in s.tab && s.tab[ROOT] == root && UserBelow(kr.Now(), s) == true
    requires cur % PGSIZE + |data| <= PGSIZE
    modifies kr
    ensures ok <==> Accessible(old(kr.Now()), s, cur / PGSIZE)
    ensures !ok ==> kr.Now() == old(kr.Now())
    ensures ok ==>
      Lookup(old(kr.pages), s.tab, cur / PGSIZE).ppn < |old(kr.pages)| &&
      kr.Now() == Stored(old(kr.Now()), s, cur, data)
  {
    var p := WalkAddr(kr, root, cur / PGSIZE, s);
    if p.None? { return false; }
    AccessiblePage(kr.lo, kr.Now(), s, cur / PGSIZE);
    kr.pages := kr.pages[p.value := Plain(Over(kr.pages[p.value].data, cur % PGSIZE, data))];
    return true;
  }

  lemma CopiedOutHere(lo: nat, k: Kst, s: Space, l: Kst, va: nat, src: seq<Byte>, at: nat, v: nat)
    requires CopiedOut(lo, k, s, l, va, src, at) == true
    ensures Good(lo, l, s) == true && UserBelow(l, s) == true && (Accessible(l, s, v) <==> Accessible(k, s, v))
  {
    SameAccess(k, s, l, va, src[..at], v);
  }

  /**
   copyout of src to dstva: succeeds exactly when all the addresses are accessible, and writes up to the first that
   is not.
   */
  method Copyout(kr: Kernel, root: nat, dstva: nat, src: seq<Byte>, ghost s: Space) returns (ok: bool, ghost done: nat)
    requires Good(kr.lo, kr.Now(), s) == true && ROOT in s.tab && s.tab[ROOT] == root && UserBelow(kr.Now(), s) == true
    modifies kr
    ensures CopiedOut(kr.lo, old(kr.Now()), s, kr.Now(), dstva, src, done) == true
    ensures if ok then done == |src| else done < |src| && !Accessible(old(kr.Now()), s, (dstva + done) / PGSIZE)
  {
    ghost var k := kr.Now();
    CopyoutStart(kr.lo, k, s, dstva, src);
    var at := 0;
    while at < |src|
      invariant at <= |src| && CopiedOut(kr.lo, k, s, kr.Now(), dstva, src, at) == true
    {
      ghost var l := kr.Now();
      var cur := dstva + at;
      var next := at + PieceLen(cur, |src| - at);
      CopiedOutHere(kr.lo, k, s, l, dstva, src, at, cur / PGSIZE);
      ok := StorePiece(kr, root, cur, src[at..next], s);
      if !ok { return false, at; }
      CopyoutNext(kr.lo, k, s, l, dstva, cur, src, at, next);
      at := next;
    }
    return true, at;
  }

  ghost predicate NoNul(out: seq<Byte>) {
    forall i :: 0 <= i < |out| ==> out[i] != 0
  }

  /** The address is accessible and holds a NUL. */
  ghost predicate AtNul(k: Kst, s: Space, va: nat) {
    Accessible(k, s, va / PGSIZE) && ByteAt(k, s, va) == 0
  }

  /** One iteration of copyinstr: up to n bytes at cur, inside one page. None when the page is not accessible. */
  method ScanPiece(kr: Kernel, root: nat, cur: nat, n: nat, ghost s: Space) returns (r: Option<seq<Byte>>, found: bool)
    requires Good(kr.lo, kr.Now(), s) == true && ROOT in s.tab && s.tab[ROOT] == root && UserBelow(kr.Now(), s) == true
    requires cur % PGSIZE + n <= PGSIZE
    modifies kr
    ensures kr.Now() == old(kr.Now()) && (r.Some? <==> Accessible(kr.Now(), s, cur / PGSIZE))
    ensures r.Some? ==> |r.value| <= n && Reads(kr.Now(), s, cur, r.value) == true && NoNul(r.value)
    ensures r.Some? ==> if found then |r.value| < n && AtNul(kr.Now(), s, cur + |r.value|) == true else |r.value| == n
  {
    var p := WalkAddr(kr, root, cur / PGSIZE, s);
    if p.None? { return None, false; }
    AccessiblePage(kr.lo, kr.Now(), s, cur / PGSIZE);
    var piece;
    found, piece := ScanPage(kr.pages[p.value].data, cur % PGSIZE, n);
    ScanReads(kr.Now(), s, cur, piece, found);
    r := Some(piece);
  }

  lemma NoNulNext(a: seq<Byte>, b: seq<Byte>)
    requires NoNul(a) == true && NoNul(b) == true
    ensures NoNul(a + b) == true
  {}

  /**
   copyinstr: succeeds exactly when a NUL comes within max bytes and before the first inaccessible address; dst is the
   string before it. On failure dst is what was copied: max bytes, or all bytes before an inaccessible one.
   */
  method Copyinstr(kr: Kernel, root: nat, srcva: nat, max: nat, ghost s: Space) returns (ok: bool, dst: seq<Byte>)
    requires Good(kr.lo, kr.Now(), s) == true && ROOT in s.tab && s.tab[ROOT] == root && UserBelow(kr.Now(), s) == true
    modifies kr
    ensures kr.Now() == old(kr.Now()) && |dst| <= max && Reads(kr.Now(), s, srcva, dst) == true && NoNul(dst) == true
    ensures ok ==> |dst| < max && AtNul(kr.Now(), s, srcva + |dst|) == true
    ensures !ok ==> |dst| == max || !Accessible(kr.Now(), s, (srcva + |dst|) / PGSIZE)
  {
    ghost var k := kr.Now();
    dst, ok := [], false;
    while !ok && |dst| < max
      invariant |dst| <= max && kr.Now() == k && Reads(k, s, srcva, dst) == true && NoNul(dst) == true
      invariant ok ==> |dst| < max && AtNul(k, s, srcva + |dst|) == true
      decreases max - |dst|, !ok
    {
      var cur := srcva + |dst|;
      var piece;
      piece, ok := ScanPiece(kr, root, cur, PieceLen(cur, max - |dst|), s);
      if piece.None? { return false, dst; }
      ReadsNext(k, s, srcva, cur, dst, piece.value);
      NoNulNext(dst, piece.value);
      dst := dst + piece.value;
      assert srcva + |dst| == cur + |piece.value|;
    }
  }

  /** copyinstr's inner loop over at most n bytes of a page; found tells that it stopped at a NUL. */
  method ScanPage(page: PageData, o: nat, n: nat) returns (found: bool, piece: seq<Byte>)
    requires o + n <= PGSIZE
    ensures |piece| <= n && piece == page.bytes[o..o + |piece|] && NoNul(piece)
    ensures found ==> |piece| < n && page.bytes[o + |piece|] == 0
    ensures !found ==> |piece| == n
  {
    piece := [];
    while |piece| < n
      invariant |piece| <= n && piece == page.bytes[o..o + |piece|] && NoNul(piece)
    {
      if page.bytes[o + |piece|] == 0 { return true, piece; }
      piece := piece + [page.bytes[o + |piece|]];
    }
    return false, piece;
  }

  lemma ScanReads(k: Kst, s: Space, cur: nat, piece: seq<Byte>, found: bool)
    requires Accessible(k, s, cur / PGSIZE) && cur % PGSIZE + |piece| + (if found then 1 else 0) <= PGSIZE
    requires piece == PageOf(k.pages, s.tab, cur / PGSIZE).bytes[cur % PGSIZE..cur % PGSIZE + |piece|]
    requires found ==> PageOf(k.pages, s.tab, cur / PGSIZE).bytes[cur % PGSIZE + |piece|] == 0
    ensures Reads(k, s, cur, piece) == true
    ensures found ==> AtNul(k, s, cur + |piece|) == true
  {
    ReadsPage(k, s, cur, |piece|);
    if found { SamePage(cur, |piece| + 1, cur + |piece|); }
  }
}

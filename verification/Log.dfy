/**
 The transaction layer: the in-memory log over the buffer cache. To its callers the two
 together are a disk with a set of pending block writes that commit all at once.
 A predicate that a method only hands on is written `P == true`, so that it is handed on unopened.
 */
module Log {
  import opened Basics
  import opened Bytes
  import opened RedoLog
  import opened BufferCache

  type Pending = map<nat, Block>

  /** What a reader sees: committed blocks overlaid with pending writes. */
  function View(blocks: Disk, pending: Pending, b: nat): Block
    requires b < |blocks|
  {
    if b in pending then pending[b] else blocks[b]
  }

  /**
   A buffer between system calls. Pending blocks are pinned once; blocks that recovery
   unpinned without a pin (leaked) carry a count of -1.
   */
  predicate BufOk(b: Buf, u: Use, blocks: Disk, dev: nat, pending: Pending, leaked: set<nat>) {
    && u.waiting == 0 && u.leaving == 0
    && u.pins == (if b.dev == dev && b.blockno in pending then 1
                  else if b.dev == dev && b.blockno in leaked then -1 else 0)
    && (b.dev == dev ==>
        && b.blockno < |blocks|
        && (b.locked ==> b.blockno !in leaked)
        && (b.blockno in pending || b.blockno in leaked ==> b.valid)
        && (b.valid && !b.locked ==> b.data == View(blocks, pending, b.blockno)))
  }

  /** Block b of the device has a buffer. */
  predicate Cached(bufs: seq<Buf>, dev: nat, b: nat) {
    exists i :: 0 <= i < |bufs| && bufs[i].Is(dev, b)
  }

  /** Every unlocked valid buffer shows the view, and every pending or leaked block stays cached. */
  predicate Coherent(bufs: seq<Buf>, use: seq<Use>, blocks: Disk, dev: nat, pending: Pending, leaked: set<nat>) {
    && |bufs| == |use| == NBUF
    && pending.Keys !! leaked
    && (forall i :: 0 <= i < NBUF ==> BufOk(bufs[i], use[i], blocks, dev, pending, leaked))
    && (forall b {:trigger Cached(bufs, dev, b)} :: b in pending.Keys + leaked ==> Cached(bufs, dev, b))
  }

  /** An unused buffer is unlocked and holds no pending block: it may be recycled. */
  lemma UnusedIsFree(bufs: seq<Buf>, use: seq<Use>, blocks: Disk, dev: nat, pending: Pending, leaked: set<nat>, i: nat)
    requires Coherent(bufs, use, blocks, dev, pending, leaked) && Counted(bufs, use) && i < NBUF
    requires bufs[i].refcnt == 0
    ensures !bufs[i].locked && use[i].pins == 0
    ensures bufs[i].dev == dev ==> bufs[i].blockno !in pending && bufs[i].blockno !in leaked
  {
    assert BufOk(bufs[i], use[i], blocks, dev, pending, leaked);
  }

  /** The buffer bread picks for block b. */
  predicate Picked(bufs: seq<Buf>, dev: nat, b: nat, r: nat) {
    && r < |bufs| == NBUF
    && (bufs[r].Is(dev, b) || (bufs[r].refcnt == 0 && !Cached(bufs, dev, b)))
  }

  lemma CachedAfter(bufs: seq<Buf>, dev: nat, b: nat, r: nat, x: Buf)
    requires Cached(bufs, dev, b) && r < |bufs|
    requires bufs[r].Is(dev, b) ==> x.Is(dev, b)
    ensures Cached(bufs[r := x], dev, b)
  {
    var i :| 0 <= i < |bufs| && bufs[i].Is(dev, b);
    assert bufs[r := x][i].Is(dev, b);
  }

  /** bread keeps coherence, and hands its caller the current view of the block. */
  lemma BreadCoherent(bufs: seq<Buf>, use: seq<Use>, blocks: Disk, dev: nat, pending: Pending, leaked: set<nat>,
                      b: nat, r: nat)
    requires Coherent(bufs, use, blocks, dev, pending, leaked) && Counted(bufs, use)
    requires b < |blocks| && b !in leaked && Picked(bufs, dev, b, r) && !bufs[r].locked
    ensures
      var x := Loaded(bufs[r], blocks, dev, b);
      && x.data == View(blocks, pending, b)
      && Coherent(bufs[r := x], use, blocks, dev, pending, leaked)
  {
    var x := Loaded(bufs[r], blocks, dev, b);
    assert BufOk(bufs[r], use[r], blocks, dev, pending, leaked);
    if !bufs[r].Is(dev, b) {
      UnusedIsFree(bufs, use, blocks, dev, pending, leaked, r);
    }
    forall c | c in pending || c in leaked ensures Cached(bufs[r := x], dev, c) {
      CachedAfter(bufs, dev, c, r, x);
    }
  }

  predicate NoneLocked(bufs: seq<Buf>) {
    forall i :: 0 <= i < |bufs| ==> !bufs[i].locked
  }

  /** The holder of buffer r may put anything in it. */
  lemma StoreCoherent(bufs: seq<Buf>, use: seq<Use>, blocks: Disk, dev: nat, pending: Pending, leaked: set<nat>,
                      r: nat, data: Block)
    requires Coherent(bufs, use, blocks, dev, pending, leaked) && r < NBUF && bufs[r].locked
    ensures Coherent(bufs[r := bufs[r].(data := data)], use, blocks, dev, pending, leaked)
  {
    var x := bufs[r].(data := data);
    forall c | c in pending || c in leaked ensures Cached(bufs[r := x], dev, c) {
      CachedAfter(bufs, dev, c, r, x);
    }
  }

  /** brelse keeps coherence when the buffer shows the view. */
  lemma BrelseCoherent(bufs: seq<Buf>, use: seq<Use>, blocks: Disk, dev: nat, pending: Pending, leaked: set<nat>,
                       r: nat, cnt: Word)
    requires Coherent(bufs, use, blocks, dev, pending, leaked) && r < NBUF && bufs[r].dev == dev
    requires bufs[r].data == View(blocks, pending, bufs[r].blockno)
    ensures Coherent(bufs[r := bufs[r].(locked := false, refcnt := cnt)], use, blocks, dev, pending, leaked)
  {
    var x := bufs[r].(locked := false, refcnt := cnt);
    forall c | c in pending || c in leaked ensures Cached(bufs[r := x], dev, c) {
      CachedAfter(bufs, dev, c, r, x);
    }
  }

  /** bwrite of a block that is not pending; its buffer is the only one for that block. */
  lemma BwriteCoherent(bufs: seq<Buf>, use: seq<Use>, blocks: Disk, dev: nat, pending: Pending, leaked: set<nat>,
                       r: nat)
    requires Coherent(bufs, use, blocks, dev, pending, leaked) && Unique(bufs) && dev != 0
    requires r < NBUF && bufs[r].dev == dev && bufs[r].blockno !in pending
    ensures Coherent(bufs, use, blocks[bufs[r].blockno := bufs[r].data], dev, pending, leaked)
  {
    forall i | 0 <= i < NBUF
      ensures BufOk(bufs[i], use[i], blocks[bufs[r].blockno := bufs[r].data], dev, pending, leaked)
    {
      assert BufOk(bufs[i], use[i], blocks, dev, pending, leaked);
      assert i != r ==> !bufs[i].Is(bufs[r].dev, bufs[r].blockno);
    }
  }

  /** bwrite and bunpin of a pending block whose buffer holds the pending data: it is no longer pending. */
  lemma InstallCoherent(bufs: seq<Buf>, use: seq<Use>, blocks: Disk, dev: nat, pending: Pending, leaked: set<nat>,
                        r: nat, cnt: Word)
    requires Coherent(bufs, use, blocks, dev, pending, leaked) && Unique(bufs) && dev != 0
    requires r < NBUF && bufs[r].dev == dev && bufs[r].blockno in pending
    requires bufs[r].data == pending[bufs[r].blockno]
    ensures Coherent(bufs[r := bufs[r].(refcnt := cnt)], use[r := use[r].(pins := use[r].pins - 1)],
              blocks[bufs[r].blockno := bufs[r].data], dev, pending - {bufs[r].blockno}, leaked)
  {
    var b, x, u := bufs[r].blockno, bufs[r].(refcnt := cnt), use[r].(pins := use[r].pins - 1);
    var bufs', use' := bufs[r := x], use[r := u];
    forall i | 0 <= i < NBUF
      ensures BufOk(bufs'[i], use'[i], blocks[b := bufs[r].data], dev, pending - {b}, leaked)
    {
      assert BufOk(bufs[i], use[i], blocks, dev, pending, leaked);
      assert i != r ==> !bufs[i].Is(dev, b);
    }
    forall c | c in pending || c in leaked ensures Cached(bufs[r := x], dev, c) {
      CachedAfter(bufs, dev, c, r, x);
    }
  }

  /** The recovery path: bwrite and bunpin of a block that was never pinned leaves its count at -1. */
  lemma LeakCoherent(bufs: seq<Buf>, use: seq<Use>, blocks: Disk, dev: nat, leaked: set<nat>, r: nat, cnt: Word)
    requires Coherent(bufs, use, blocks, dev, map[], leaked) && Unique(bufs) && dev != 0
    requires r < NBUF && bufs[r].dev == dev && bufs[r].valid && bufs[r].blockno !in leaked
    ensures Coherent(bufs[r := bufs[r].(refcnt := cnt, locked := false)], use[r := use[r].(pins := use[r].pins - 1)],
              blocks[bufs[r].blockno := bufs[r].data], dev, map[], leaked + {bufs[r].blockno})
  {
    var b, x, u := bufs[r].blockno, bufs[r].(refcnt := cnt, locked := false), use[r].(pins := use[r].pins - 1);
    var bufs', use' := bufs[r := x], use[r := u];
    forall i | 0 <= i < NBUF
      ensures BufOk(bufs'[i], use'[i], blocks[b := bufs[r].data], dev, map[], leaked + {b})
    {
      assert BufOk(bufs[i], use[i], blocks, dev, map[], leaked);
      assert i != r ==> !bufs[i].Is(dev, b);
    }
    assert bufs[r := x][r].Is(dev, b);
    forall c | c in leaked ensures Cached(bufs[r := x], dev, c) {
      CachedAfter(bufs, dev, c, r, x);
    }
  }

  /** log_write of a block not yet in the transaction: it becomes pending and pinned. */
  lemma PinCoherent(bufs: seq<Buf>, use: seq<Use>, blocks: Disk, dev: nat, pending: Pending, leaked: set<nat>,
                    r: nat, cnt: Word)
    requires Coherent(bufs, use, blocks, dev, pending, leaked) && Unique(bufs) && dev != 0
    requires r < NBUF && bufs[r].dev == dev && bufs[r].valid && bufs[r].locked && bufs[r].blockno !in pending
    ensures Coherent(bufs[r := bufs[r].(refcnt := cnt)], use[r := use[r].(pins := use[r].pins + 1)],
              blocks, dev, pending[bufs[r].blockno := bufs[r].data], leaked)
  {
    var b, x, u := bufs[r].blockno, bufs[r].(refcnt := cnt), use[r].(pins := use[r].pins + 1);
    var bufs', use' := bufs[r := x], use[r := u];
    forall i | 0 <= i < NBUF
      ensures BufOk(bufs'[i], use'[i], blocks, dev, pending[b := bufs[r].data], leaked)
    {
      assert BufOk(bufs[i], use[i], blocks, dev, pending, leaked);
      assert i != r ==> !bufs[i].Is(dev, b);
    }
    assert bufs[r := x][r].Is(dev, b);
    forall c | c in pending || c in leaked ensures Cached(bufs[r := x], dev, c) {
      CachedAfter(bufs, dev, c, r, x);
    }
  }

  /** log_write of a block already in the transaction is absorbed: only its pending content changes. */
  lemma AbsorbCoherent(bufs: seq<Buf>, use: seq<Use>, blocks: Disk, dev: nat, pending: Pending, leaked: set<nat>,
                       r: nat)
    requires Coherent(bufs, use, blocks, dev, pending, leaked) && Unique(bufs) && dev != 0
    requires r < NBUF && bufs[r].dev == dev && bufs[r].valid && bufs[r].locked && bufs[r].blockno in pending
    ensures Coherent(bufs, use, blocks, dev, pending[bufs[r].blockno := bufs[r].data], leaked)
  {
    var b := bufs[r].blockno;
    forall i | 0 <= i < NBUF
      ensures BufOk(bufs[i], use[i], blocks, dev, pending[b := bufs[r].data], leaked)
    {
      assert BufOk(bufs[i], use[i], blocks, dev, pending, leaked);
      assert i != r ==> !bufs[i].Is(dev, b);
    }
  }

  /**
   One round of install_trans seen from outside: buffer d takes the data of log buffer l, goes to disk
   and loses a pin, and both are released. A pending block stops being pending; a block recovery
   installs without a pin is leaked.
   */
  lemma RoundCoherent(bufs: seq<Buf>, use: seq<Use>, blocks: Disk, dev: nat, pending: Pending, leaked: set<nat>,
                      l: nat, d: nat, x: Word, y: Word)
    requires Coherent(bufs, use, blocks, dev, pending, leaked) && Unique(bufs) && dev != 0
    requires l < NBUF && d < NBUF && l != d && bufs[l].locked && bufs[d].locked
    requires bufs[l].dev == dev && bufs[d].dev == dev && bufs[l].blockno !in pending
    requires bufs[l].data == blocks[bufs[l].blockno]
    requires bufs[d].blockno !in leaked && bufs[d].valid
    requires bufs[d].blockno in pending ==> bufs[l].data == pending[bufs[d].blockno]
    requires bufs[d].blockno in pending || pending == map[]
    ensures
      var b := bufs[d].blockno;
      Coherent(bufs[l := bufs[l].(locked := false, refcnt := x)]
                   [d := bufs[d].(data := bufs[l].data, locked := false, refcnt := y)],
               use[d := use[d].(pins := use[d].pins - 1)], blocks[b := bufs[l].data], dev, pending - {b},
               if b in pending then leaked else leaked + {b})
  {
    var b, data := bufs[d].blockno, bufs[l].data;
    assert !bufs[l].Is(dev, b) && BufOk(bufs[d], use[d], blocks, dev, pending, leaked);
    var bufs1 := bufs[d := bufs[d].(data := data)];
    StoreCoherent(bufs, use, blocks, dev, pending, leaked, d, data);
    BrelseCoherent(bufs1, use, blocks, dev, pending, leaked, l, x);
    var bufs2 := bufs1[l := bufs1[l].(locked := false, refcnt := x)];
    var final :=
      bufs[l := bufs[l].(locked := false, refcnt := x)][d := bufs[d].(data := data, locked := false, refcnt := y)];
    var use' := use[d := use[d].(pins := use[d].pins - 1)];
    if b in pending {
      InstallCoherent(bufs2, use, blocks, dev, pending, leaked, d, y);
      var bufs3 := bufs2[d := bufs2[d].(refcnt := y)];
      BrelseCoherent(bufs3, use', blocks[b := data], dev, pending - {b}, leaked, d, y);
      assert bufs3[d := bufs3[d].(locked := false, refcnt := y)] == final;
    } else {
      LeakCoherent(bufs2, use, blocks, dev, leaked, d, y);
      assert bufs2[d := bufs2[d].(refcnt := y, locked := false)] == final;
      assert pending - {b} == map[];
    }
  }

  lemma PickPicked(l: Lru, dev: nat, b: nat)
    requires LruOk(l) && Pick(l, dev, b).Some?
    ensures Picked(l.bufs, dev, b, Pick(l, dev, b).value)
  {
    PickOwn(l, dev, b);
  }

  /** bread and brelse, leaked blocks included: the count of one of these is 0 while it is held and -1 again after. */
  lemma ReadCoherent(l: Lru, use: seq<Use>, blocks: Disk, dev: nat, pending: Pending, leaked: set<nat>, b: nat, t: Lru)
    requires Coherent(l.bufs, use, blocks, dev, pending, leaked) && Counted(l.bufs, use) && LruOk(l) == true
    requires b < |blocks| && Touched(l, blocks, dev, b, None, false) == Some(t)
    requires !l.bufs[Pick(l, dev, b).value].locked
    ensures Seen(l, blocks, dev, b) == Some(View(blocks, pending, b))
    ensures Coherent(t.bufs, use, blocks, dev, pending, leaked) == true
  {
    var r := Pick(l, dev, b).value;
    PickPicked(l, dev, b);
    var x := Loaded(l.bufs[r], blocks, dev, b);
    if b in leaked {
      assert Cached(l.bufs, dev, b) && BufOk(l.bufs[r], use[r], blocks, dev, pending, leaked);
      assert t.bufs == l.bufs;
    } else {
      BreadCoherent(l.bufs, use, blocks, dev, pending, leaked, b, r);
      BrelseCoherent(l.bufs[r := x], use, blocks, dev, pending, leaked, r, Dec(x.refcnt));
      assert l.bufs[r := x][r := t.bufs[r]] == t.bufs;
    }
  }

  /** What a pin of buffer r adds to its accounts. */
  function PinUse(use: seq<Use>, r: nat): seq<Use>
    requires r < |use|
  {
    use[r := use[r].(pins := use[r].pins + 1)]
  }

  /** bread, a change, log_write and brelse of a block that recovery did not leave unpinned: it is pending now. */
  lemma UpdateCoherent(l: Lru, use: seq<Use>, blocks: Disk, dev: nat, pending: Pending, leaked: set<nat>, b: nat,
                       data: Block, t: Lru)
    requires Coherent(l.bufs, use, blocks, dev, pending, leaked) && Counted(l.bufs, use) && LruOk(l) == true && dev != 0
    requires b < |blocks| && b !in leaked && Touched(l, blocks, dev, b, Some(data), b !in pending) == Some(t)
    requires !l.bufs[Pick(l, dev, b).value].locked
    ensures Coherent(t.bufs, if b in pending then use else PinUse(use, Pick(l, dev, b).value), blocks, dev,
                     pending[b := data], leaked) == true
  {
    var r := Pick(l, dev, b).value;
    PickPicked(l, dev, b);
    PickOwn(l, dev, b);
    var x := Loaded(l.bufs[r], blocks, dev, b);
    BreadCoherent(l.bufs, use, blocks, dev, pending, leaked, b, r);
    var held := l.bufs[r := x];
    StoreCoherent(held, use, blocks, dev, pending, leaked, r, data);
    var changed := l.bufs[r := x.(data := data)];
    assert held[r := held[r].(data := data)] == changed;
    LoadedUnique(l.bufs, dev, b, r, changed[r]);
    if b in pending {
      AbsorbCoherent(changed, use, blocks, dev, pending, leaked, r);
      BrelseCoherent(changed, use, blocks, dev, pending[b := data], leaked, r, Dec(x.refcnt));
      assert changed[r := t.bufs[r]] == t.bufs;
    } else {
      PinCoherent(changed, use, blocks, dev, pending, leaked, r, Inc(x.refcnt));
      var pinned := changed[r := changed[r].(refcnt := Inc(x.refcnt))];
      BrelseCoherent(pinned, PinUse(use, r), blocks, dev, pending[b := data], leaked, r, Dec(Inc(x.refcnt)));
      assert pinned[r := t.bufs[r]] == t.bufs;
    }
  }

  /* A buffer can always be recycled while fewer than NBUF blocks are in use. */

  function BlocksOf(bufs: seq<Buf>, k: nat): set<nat>
    requires k <= |bufs|
  {
    set i | 0 <= i < k :: bufs[i].blockno
  }

  lemma {:induction false} BlocksOfSize(bufs: seq<Buf>, dev: nat, k: nat)
    requires k <= |bufs| && dev != 0 && Unique(bufs) && forall i :: 0 <= i < k ==> bufs[i].dev == dev
    ensures |BlocksOf(bufs, k)| == k
  {
    if k > 0 {
      BlocksOfSize(bufs, dev, k-1);
      assert BlocksOf(bufs, k) == BlocksOf(bufs, k-1) + {bufs[k-1].blockno};
      forall i | 0 <= i < k-1 ensures bufs[i].blockno != bufs[k-1].blockno {
        assert !bufs[k-1].Is(bufs[i].dev, bufs[i].blockno);
      }
    }
  }

  lemma SubsetSize(a: set<nat>, b: set<nat>)
    requires a <= b
    ensures |a| <= |b|
  {
    assert b == a + (b - a);
  }

  /** If every buffer were in use, its block would be one of the busy ones. */
  lemma SomeUnused(bufs: seq<Buf>, use: seq<Use>, blocks: Disk, dev: nat, pending: Pending, leaked: set<nat>,
                   busy: set<nat>)
    requires Coherent(bufs, use, blocks, dev, pending, leaked) && Counted(bufs, use) && Unique(bufs) && dev != 0
    requires pending.Keys + leaked <= busy && |busy| < NBUF
    requires forall i :: 0 <= i < NBUF && bufs[i].locked ==> bufs[i].dev == dev && bufs[i].blockno in busy
    ensures exists i :: 0 <= i < NBUF && bufs[i].refcnt == 0
  {
    if forall i :: 0 <= i < NBUF ==> bufs[i].refcnt != 0 {
      forall i | 0 <= i < NBUF ensures bufs[i].dev == dev && bufs[i].blockno in busy {
        assert BufOk(bufs[i], use[i], blocks, dev, pending, leaked);
      }
      BlocksOfSize(bufs, dev, NBUF);
      SubsetSize(BlocksOf(bufs, NBUF), busy);
      assert false;
    }
  }

  function Elems(s: seq<nat>): set<nat> { set x | x in s }

  lemma {:induction false} ElemsSize(s: seq<nat>)
    ensures |Elems(s)| <= |s|
  {
    if s != [] {
      ElemsSize(s[1..]);
      assert Elems(s) == {s[0]} + Elems(s[1..]);
    }
  }

  lemma TraceNext(trace: seq<Write>, ws: seq<Write>, k: nat)
    requires k < |ws|
    ensures trace + ws[..k] + [ws[k]] == trace + ws[..k+1]
  {}

  /** Block i of the log holds the pending content of lh[i]. */
  ghost predicate LogHolds(blocks: Disk, a: Area, lh: seq<nat>, pending: Pending)
    requires a.start + |lh| < |blocks|
  {
    forall i :: 0 <= i < |lh| && lh[i] in pending ==> blocks[a.start + 1 + i] == pending[lh[i]]
  }

  /** The pending blocks with their contents, and the blocks whose count recovery left at -1. */
  datatype Tx = Tx(pending: Pending, leaked: set<nat>) {
    /** Block b is written home and unpinned. */
    function Install(b: nat): Tx {
      if b in pending then Tx(pending - {b}, leaked) else Tx(pending, leaked + {b})
    }

    function InstallAll(lh: seq<nat>, k: nat): Tx
      requires k <= |lh|
    {
      if k == 0 then this else InstallAll(lh, k-1).Install(lh[k-1])
    }
  }

  /** No block of the log is pending or leaked. */
  ghost predicate AreaFree(a: Area, tx: Tx) { forall b :: a.Holds(b) ==> b !in tx.pending && b !in tx.leaked }

  /**
   install_trans may start: after write_log every listed block is pending and its log block holds it; at boot nothing
   is pending.
   */
  ghost predicate Installable(blocks: Disk, a: Area, lh: seq<nat>, tx: Tx)
    requires a.start + |lh| < |blocks|
  {
    && Elems(lh) !! tx.leaked && |lh| + |tx.leaked| < NBUF
    && (tx.pending == map[] || (tx.pending.Keys == Elems(lh) && LogHolds(blocks, a, lh, tx.pending)))
  }

  /** One round may start: the log block holds the pending content and there are buffers enough. */
  ghost predicate Installing(blocks: Disk, lb: nat, b: nat, tx: Tx)
    requires lb < |blocks|
  {
    && b !in tx.leaked
    && if b in tx.pending
       then |tx.pending| + |tx.leaked| < NBUF && blocks[lb] == tx.pending[b]
       else tx.pending == map[] && |tx.leaked| + 1 < NBUF
  }

  lemma ElemsNext(lh: seq<nat>, k: nat)
    requires 0 < k <= |lh|
    ensures Elems(lh[..k]) == Elems(lh[..k-1]) + {lh[k-1]}
  {
    assert lh[..k] == lh[..k-1] + [lh[k-1]];
  }

  /** Block lh[k] is not listed before. */
  predicate First(lh: seq<nat>, k: nat)
    requires k < |lh|
  {
    lh[k] !in lh[..k]
  }

  /** After a commit, k rounds unpin the first k pending blocks. */
  lemma {:induction false} InstallCommitted(tx: Tx, lh: seq<nat>, k: nat)
    requires k <= |lh| && tx.pending.Keys == Elems(lh) && forall i :: 0 <= i < |lh| ==> First(lh, i)
    ensures tx.InstallAll(lh, k) == Tx(tx.pending - Elems(lh[..k]), tx.leaked)
  {
    if k > 0 {
      InstallCommitted(tx, lh, k-1);
      ElemsNext(lh, k);
      assert lh[k-1] in Elems(lh) && First(lh, k-1);
    } else {
      assert tx.pending - {} == tx.pending;
    }
  }

  /** At boot nothing is pending, and every block installed loses a pin it never had. */
  lemma {:induction false} InstallRecovered(tx: Tx, lh: seq<nat>, k: nat)
    requires k <= |lh| && tx.pending == map[]
    ensures tx.InstallAll(lh, k) == Tx(map[], tx.leaked + Elems(lh[..k]))
  {
    if k > 0 {
      InstallRecovered(tx, lh, k-1);
      ElemsNext(lh, k);
    }
  }

  lemma ListedOnce(size: nat, a: Area, lh: seq<nat>)
    requires EntriesOk(size, a, lh)
    ensures forall k :: 0 <= k < |lh| ==> First(lh, k) && lh[k] < size && !a.Holds(lh[k])
  {
    forall k | 0 <= k < |lh| ensures First(lh, k) { IndexOfFirst(lh, lh[k]); }
  }

  lemma InstallAllDone(blocks: Disk, a: Area, lh: seq<nat>, tx: Tx)
    requires AreaOk(|blocks|, a) && EntriesOk(|blocks|, a, lh) == true
    requires |lh| < a.size && Installable(blocks, a, lh, tx)
    ensures tx.InstallAll(lh, |lh|) == Tx(map[], if tx.pending == map[] then tx.leaked + Elems(lh) else tx.leaked)
    ensures |tx.leaked + Elems(lh)| < NBUF
  {
    ElemsSize(lh);
    assert lh[..|lh|] == lh;
    if tx.pending == map[] {
      InstallRecovered(tx, lh, |lh|);
    } else {
      ListedOnce(|blocks|, a, lh);
      InstallCommitted(tx, lh, |lh|);
    }
  }

  /** The next round of install_trans, on the disk and on its trace. */
  lemma InstallAdvance(d: Disk, a: Area, lh: seq<nat>, trace: seq<Write>, k: nat, b: nat, data: Block)
    requires AreaOk(|d|, a) && EntriesOk(|d|, a, lh) && k < |lh| && b == lh[k] && data == d[a.start + 1 + k]
    ensures
      var ws := InstallWrites(d, a, lh);
      && Apply(d, ws[..k])[b := data] == Apply(d, ws[..k+1])
      && (trace + ws[..k]) + [Write(b, data)] == trace + ws[..k+1]
  {
    ApplyNext(d, InstallWrites(d, a, lh), k);
    TraceNext(trace, InstallWrites(d, a, lh), k);
  }

  /** install_trans started from disk d and transaction tx0 and has done tail rounds. */
  ghost predicate InstalledUpTo(d: Disk, a: Area, lh: seq<nat>, tx0: Tx, trace: seq<Write>, tail: nat,
                                tx: Tx, now: seq<Write>, blocks: Disk)
    requires tail <= |lh| && a.start + 1 + |lh| <= |d|
  {
    && tx == tx0.InstallAll(lh, tail)
    && now == trace + InstallWrites(d, a, lh)[..tail]
    && blocks == Apply(d, InstallWrites(d, a, lh)[..tail])
  }

  /** Every round starts with what it needs, and a round more is done once block b is home. */
  lemma InstallRound(d: Disk, a: Area, lh: seq<nat>, tx0: Tx, trace: seq<Write>, tail: nat,
                     tx: Tx, now: seq<Write>, blocks: Disk, b: nat, lb: nat)
    requires AreaOk(|d|, a) && EntriesOk(|d|, a, lh) == true && tail < |lh| < a.size && |lh| < NBUF
    requires Installable(d, a, lh, tx0) == true && b == lh[tail] && lb == a.start + 1 + tail
    requires InstalledUpTo(d, a, lh, tx0, trace, tail, tx, now, blocks) == true
    ensures b < |blocks| && !a.Holds(b) && a.Holds(lb) && lb < |blocks|
    ensures Installing(blocks, lb, b, tx) == true
    ensures InstalledUpTo(d, a, lh, tx0, trace, tail + 1, tx.Install(b), now + [Write(b, blocks[lb])],
                          blocks[b := blocks[lb]]) == true
  {
    InstallEffect(d, a, lh, tail);
    InstalledLogArea(d, blocks, a, lh, tail, lb);
    InstallAdvance(d, a, lh, trace, tail, b, d[lb]);
    ListedOnce(|d|, a, lh);
    MayInstall(d, blocks, a, lh, tx0, tail);
  }

  lemma MayInstall(d: Disk, blocks: Disk, a: Area, lh: seq<nat>, tx0: Tx, tail: nat)
    requires AreaOk(|d|, a) && tail < |lh| < a.size && |lh| < NBUF && forall i :: 0 <= i < |lh| ==> First(lh, i)
    requires Installable(d, a, lh, tx0) == true && |blocks| == |d|
    requires blocks[a.start + 1 + tail] == d[a.start + 1 + tail]
    ensures Installing(blocks, a.start + 1 + tail, lh[tail], tx0.InstallAll(lh, tail)) == true
  {
    if tx0.pending == map[] {
      InstallRecovered(tx0, lh, tail);
      MayRecover(d, blocks, a, lh, tx0, tail, Elems(lh[..tail]));
    } else {
      InstallableKeys(d, a, lh, tx0);
      InstallCommitted(tx0, lh, tail);
      MayCommit(d, blocks, a, lh, tx0, tail, Elems(lh[..tail]));
    }
  }

  lemma InstallableKeys(d: Disk, a: Area, lh: seq<nat>, tx: Tx)
    requires AreaOk(|d|, a) && |lh| < a.size && Installable(d, a, lh, tx) && tx.pending != map[]
    ensures tx.pending.Keys == Elems(lh) && LogHolds(d, a, lh, tx.pending) == true
    ensures Elems(lh) !! tx.leaked && |lh| + |tx.leaked| < NBUF
  {}

  lemma NotEmpty(lh: seq<nat>, ps: Pending)
    requires lh != [] && ps.Keys == Elems(lh)
    ensures ps != map[]
  {
    assert lh[0] in ps;
  }

  lemma MayInstallAll(d: Disk, a: Area, lh: seq<nat>, tx: Tx)
    requires AreaOk(|d|, a) && |lh| < a.size && LogHolds(d, a, lh, tx.pending) && tx.pending.Keys == Elems(lh)
    requires tx.pending.Keys !! tx.leaked && |lh| + |tx.leaked| < NBUF
    ensures Installable(d, a, lh, tx) == true
  {}

  lemma MayRecoverAll(d: Disk, a: Area, tx: Tx)
    requires LogOk(d, a) && |OnDiskEntries(d, a)| < NBUF && tx.pending == map[] && tx.leaked == {}
    ensures
      var lh := OnDiskEntries(d, a);
      && EntriesOk(|d|, a, lh) == true && |lh| < a.size && Installable(d, a, lh, tx) == true
      && RecoverWrites(d, a) == InstallAndClearWrites(d, a, lh)
  {}

  lemma MayRecover(d: Disk, blocks: Disk, a: Area, lh: seq<nat>, tx: Tx, k: nat, done: set<nat>)
    requires AreaOk(|d|, a) && |lh| < a.size && Installable(d, a, lh, tx) && |blocks| == |d|
    requires k < |lh| && First(lh, k) && done == Elems(lh[..k]) && tx.pending == map[]
    ensures Installing(blocks, a.start + 1 + k, lh[k], Tx(map[], tx.leaked + done)) == true
  {
    ElemsSize(lh[..k]);
    assert lh[k] in Elems(lh);
  }

  lemma MayCommit(d: Disk, blocks: Disk, a: Area, lh: seq<nat>, tx: Tx, k: nat, done: set<nat>)
    requires AreaOk(|d|, a) && |lh| < a.size && Installable(d, a, lh, tx) == true && |blocks| == |d|
    requires tx.pending != map[] && k < |lh| && done == Elems(lh[..k]) && First(lh, k)
    requires blocks[a.start + 1 + k] == d[a.start + 1 + k]
    ensures Installing(blocks, a.start + 1 + k, lh[k], Tx(tx.pending - done, tx.leaked)) == true
  {
    InstallableKeys(d, a, lh, tx);
    StillPending(tx, lh, k, lh[k], done);
    LogBlock(d, a, lh, tx.pending, k);
    RoundOk(blocks, a.start + 1 + k, lh[k], tx.pending - done, tx.leaked);
  }

  lemma LogBlock(d: Disk, a: Area, lh: seq<nat>, pending: Pending, k: nat)
    requires a.start + |lh| < |d| && LogHolds(d, a, lh, pending) && k < |lh| && lh[k] in pending
    ensures d[a.start + 1 + k] == pending[lh[k]]
  {}

  lemma RoundOk(blocks: Disk, lb: nat, b: nat, pending: Pending, leaked: set<nat>)
    requires lb < |blocks| && b !in leaked && b in pending && |pending| + |leaked| < NBUF && blocks[lb] == pending[b]
    ensures Installing(blocks, lb, b, Tx(pending, leaked)) == true
  {}

  lemma StillPending(tx: Tx, lh: seq<nat>, k: nat, b: nat, done: set<nat>)
    requires k < |lh| && First(lh, k) && b == lh[k] && done == Elems(lh[..k]) && tx.pending.Keys == Elems(lh)
    requires Elems(lh) !! tx.leaked && |lh| + |tx.leaked| < NBUF
    ensures b !in tx.leaked && b in tx.pending && b in tx.pending - done && (tx.pending - done)[b] == tx.pending[b]
    ensures |tx.pending - done| + |tx.leaked| < NBUF
  {
    ElemsSize(lh);
    SubsetSize((tx.pending - done).Keys, tx.pending.Keys);
    assert b in Elems(lh);
  }

  /** memmove, bunpin and the two brelse, each on its own buffer. */
  lemma MovedBufs(bufs: seq<Buf>, l: nat, d: nat, r: Word, x: Word, y: Word)
    requires l < |bufs| && d < |bufs| && l != d
    ensures
      var a := bufs[d := bufs[d].(data := bufs[l].data, refcnt := r)];
      var b := a[l := a[l].(locked := false, refcnt := x)];
      b[d := b[d].(locked := false, refcnt := y)] == bufs[l := bufs[l].(locked := false, refcnt := x)]
        [d := bufs[d].(data := bufs[l].data, locked := false, refcnt := y)]
  {}

  class TxLog {
    const cache: Cache
    const dev: nat
    const area: Area
    var n: nat
    var block: seq<nat>
    var outstanding: int
    var committing: bool
    ghost var tx: Tx

    /** The cache agrees with the disk and the pending writes, which lie outside the log area. */
    ghost predicate Base()
      reads this, cache, cache.device
    {
      && cache.Valid() && dev != 0
      && AreaOk(|cache.device.blocks|, area)
      && Coherent(cache.bufs, cache.use, cache.device.blocks, dev, tx.pending, tx.leaked)
      && AreaFree(area, tx)
    }

    /** Some buffer can be had for block b. */
    ghost predicate Available(b: nat)
      reads cache
    {
      || Cached(cache.bufs, dev, b)
      || exists i :: 0 <= i < |cache.bufs| && cache.bufs[i].refcnt == 0
    }

    /** Buffer r holds the current view of its block. */
    ghost predicate Shows(r: nat)
      reads this, cache, cache.device
    {
      && |cache.bufs| == NBUF && r < NBUF
      && cache.bufs[r].dev == dev && cache.bufs[r].blockno < |cache.device.blocks|
      && cache.bufs[r].data == View(cache.device.blocks, tx.pending, cache.bufs[r].blockno)
    }

    /** bread: the caller gets the current view of b in a locked buffer; None is the panic of bget. */
    method Get(b: nat) returns (r: Option<nat>)
      requires Base() && b < |cache.device.blocks| && b !in tx.leaked
      requires forall i :: 0 <= i < NBUF && cache.bufs[i].Is(dev, b) ==> !cache.bufs[i].locked
      modifies cache
      ensures Base() && cache.use == old(cache.use)
      ensures cache.device.blocks == old(cache.device.blocks) && cache.device.trace == old(cache.device.trace)
      ensures r.Some? <==> old(Available(b))
      ensures r.None? ==> cache.bufs == old(cache.bufs)
      ensures r.Some? ==>
                && Shows(r.value) && cache.bufs[r.value].blockno == b
                && cache.bufs[r.value].valid && cache.bufs[r.value].locked && !old(cache.bufs)[r.value].locked
                && (forall i :: 0 <= i < NBUF && i != r.value ==> cache.bufs[i] == old(cache.bufs)[i])
    {
      ghost var bufs, use, blocks := cache.bufs, cache.use, cache.device.blocks;
      UnusedAreFree();
      r := cache.Bread(dev, b);
      if r.Some? {
        assert Picked(bufs, dev, b, r.value);
        BreadCoherent(bufs, use, blocks, dev, tx.pending, tx.leaked, b, r.value);
      }
    }

    lemma UnusedAreFree()
      requires Base()
      ensures forall i :: 0 <= i < NBUF && cache.bufs[i].refcnt == 0 ==> !cache.bufs[i].locked
    {
      forall i | 0 <= i < NBUF && cache.bufs[i].refcnt == 0 ensures !cache.bufs[i].locked {
        UnusedIsFree(cache.bufs, cache.use, cache.device.blocks, dev, tx.pending, tx.leaked, i);
      }
    }

    /** brelse of a buffer that shows the current view. */
    method Put(r: nat)
      requires Base() && Shows(r) && cache.bufs[r].locked
      modifies cache
      ensures Base() && cache.use == old(cache.use)
      ensures cache.device.blocks == old(cache.device.blocks) && cache.device.trace == old(cache.device.trace)
      ensures cache.bufs ==
        old(cache.bufs)[r := old(cache.bufs)[r].(locked := false, refcnt := Dec(old(cache.bufs)[r].refcnt))]
    {
      BrelseCoherent(cache.bufs, cache.use, cache.device.blocks, dev, tx.pending, tx.leaked, r,
        Dec(cache.bufs[r].refcnt));
      cache.Brelse(r);
    }

    /** brelse of the only two buffers that are locked. */
    method PutBoth(r: nat, q: nat)
      requires Base() && Shows(r) && Shows(q) && r != q && cache.bufs[r].locked && cache.bufs[q].locked
      requires forall i :: 0 <= i < NBUF && i != r && i != q ==> !cache.bufs[i].locked
      modifies cache
      ensures Base() && cache.use == old(cache.use)
      ensures cache.device.blocks == old(cache.device.blocks) && cache.device.trace == old(cache.device.trace)
      ensures NoneLocked(cache.bufs)
    {
      Put(r);
      Put(q);
    }

    constructor (cache: Cache, dev: nat, area: Area)
      requires cache.Valid() && dev != 0 && AreaOk(|cache.device.blocks|, area)
      requires Coherent(cache.bufs, cache.use, cache.device.blocks, dev, map[], {})
      ensures Base() && this.cache == cache && this.dev == dev && this.area == area
      ensures n == 0 && |block| == LOGSIZE && outstanding == 0 && !committing && tx.pending == map[] && tx.leaked == {}
    {
      this.cache, this.dev, this.area := cache, dev, area;
      n, block, outstanding, committing := 0, seq(LOGSIZE, _ => 0), 0, false;
      tx := Tx(map[], {});
    }

    /** A buffer can be had while the busy blocks, plus the block of one locked buffer, leave one over. */
    lemma GetAvailable(b: nat, held: set<nat>)
      requires Base() && |tx.pending| + |tx.leaked| + |held| < NBUF
      requires forall i :: 0 <= i < NBUF && cache.bufs[i].locked ==>
        cache.bufs[i].dev == dev && cache.bufs[i].blockno in held
      ensures Available(b)
    {
      var busy := tx.pending.Keys + tx.leaked + held;
      assert |tx.pending.Keys + tx.leaked| <= |tx.pending.Keys| + |tx.leaked|;
      assert |busy| <= |tx.pending.Keys + tx.leaked| + |held|;
      SomeUnused(cache.bufs, cache.use, cache.device.blocks, dev, tx.pending, tx.leaked, busy);
    }

    /** Two breads with nothing else locked; the second block is already cached or leaves a buffer to spare. */
    method GetBoth(b: nat, c: nat) returns (r: nat, q: nat)
      requires Base() && NoneLocked(cache.bufs)
      requires b != c && b < |cache.device.blocks| && c < |cache.device.blocks| && b !in tx.leaked && c !in tx.leaked
      requires |tx.pending| + |tx.leaked| < NBUF && (c in tx.pending || |tx.pending| + |tx.leaked| + 1 < NBUF)
      modifies cache
      ensures Base() && cache.use == old(cache.use)
      ensures cache.device.blocks == old(cache.device.blocks) && cache.device.trace == old(cache.device.trace)
      ensures r != q && Shows(r) && Shows(q) && cache.bufs[r].locked && cache.bufs[q].locked
      ensures cache.bufs[r].blockno == b && cache.bufs[q].blockno == c && cache.bufs[q].valid
      ensures forall i :: 0 <= i < NBUF && i != r && i != q ==> !cache.bufs[i].locked
    {
      GetAvailable(b, {});
      var s := Get(b);
      r := s.value;
      if c !in tx.pending { GetAvailable(c, {b}); }
      s := Get(c);
      q := s.value;
    }

    /** memmove into a held buffer, then bwrite it; for blocks that are not pending. */
    method Overwrite(r: nat, data: Block)
      requires Base() && r < NBUF && cache.bufs[r].locked && cache.bufs[r].dev == dev
      requires cache.bufs[r].blockno < |cache.device.blocks| && cache.bufs[r].blockno !in tx.pending
      modifies cache`bufs, cache.device
      ensures Base() && cache.use == old(cache.use)
      ensures Shows(r) && cache.bufs[r].locked
      ensures forall i :: 0 <= i < NBUF && i != r ==> cache.bufs[i] == old(cache.bufs)[i]
      ensures cache.device.blocks == old(cache.device.blocks)[old(cache.bufs)[r].blockno := data]
      ensures cache.device.trace == old(cache.device.trace) + [Write(old(cache.bufs)[r].blockno, data)]
    {
      StoreCoherent(cache.bufs, cache.use, cache.device.blocks, dev, tx.pending, tx.leaked, r, data);
      cache.Store(r, data);
      BwriteCoherent(cache.bufs, cache.use, cache.device.blocks, dev, tx.pending, tx.leaked, r);
      cache.Bwrite(r);
    }

    /** One iteration of write_log: the cached content of block[tail] goes to log block tail. */
    method CopyToLog(tail: nat)
      requires Base() == true && NoneLocked(cache.bufs) == true && |block| == LOGSIZE
      requires tail < n <= LOGSIZE && n < area.size && area.start + area.size <= |cache.device.blocks|
      requires block[tail] in tx.pending && block[tail] < |cache.device.blocks| && |tx.pending| + |tx.leaked| < NBUF
      modifies cache, cache.device
      ensures Base() == true && NoneLocked(cache.bufs) == true
      ensures cache.device.blocks == old(cache.device.blocks)[area.start + 1 + tail := tx.pending[block[tail]]]
      ensures cache.device.trace == old(cache.device.trace) + [Write(area.start + 1 + tail, tx.pending[block[tail]])]
    {
      var lb, b := area.start + 1 + tail, block[tail];
      assert area.Holds(lb);
      var to, from := GetBoth(lb, b);
      var data := cache.bufs[from].data;
      assert data == tx.pending[b];
      Overwrite(to, data);
      PutBoth(from, to);
    }

    /** The in-memory header lists distinct home blocks that fit the log area, all of them pending. */
    ghost predicate Transaction()
      reads this, cache, cache.device
    {
      && |block| == LOGSIZE && n <= LOGSIZE
      && EntriesOk(|cache.device.blocks|, area, block[..n])
      && (forall b :: b in block[..n] ==> b in tx.pending)
    }

    method WriteLog()
      requires Base() == true && NoneLocked(cache.bufs) == true && |tx.pending| + |tx.leaked| < NBUF
      requires |block| == LOGSIZE && n <= LOGSIZE && n < area.size
      requires Committable(|cache.device.blocks|, area, block[..n], tx.pending)
      modifies cache, cache.device
      ensures Base() == true && NoneLocked(cache.bufs) == true
      ensures cache.device.trace == old(cache.device.trace) + LogWrites(area, block[..n], tx.pending)
      ensures cache.device.blocks == Apply(old(cache.device.blocks), LogWrites(area, block[..n], tx.pending))
    {
      ghost var d, trace, ws := cache.device.blocks, cache.device.trace, LogWrites(area, block[..n], tx.pending);
      assert ws[..n] == ws;
      var tail := 0;
      while tail < n
        invariant 0 <= tail <= n && Base() == true && NoneLocked(cache.bufs) == true
        invariant cache.device.trace == trace + ws[..tail] && cache.device.blocks == Apply(d, ws[..tail])
      {
        LogNext(trace, d, area, block[..n], tx.pending, tail);
        CopyToLog(tail);
        tail := tail + 1;
      }
    }

    /** hb->n and hb->block[] of the buffer contents b. */
    method FillHead(b: Block) returns (r: Block)
      requires |block| == LOGSIZE && n <= LOGSIZE && HeadFits(block[..n])
      ensures r == PutHead(b, block[..n])
    {
      r := PutWord(b, 0, n);
      var i := 0;
      while i < n
        invariant 0 <= i <= n && r == PutEntries(b, block[..n], i)
      {
        r := PutWord(r, 1 + i, block[i]);
        i := i + 1;
      }
    }

    method WriteHead()
      requires Base() == true && NoneLocked(cache.bufs) == true && |tx.pending| + |tx.leaked| < NBUF
      requires area.start < |cache.device.blocks|
      requires |block| == LOGSIZE && n <= LOGSIZE && HeadFits(block[..n])
      modifies cache, cache.device
      ensures Base() == true && NoneLocked(cache.bufs) == true
      ensures cache.device.trace == old(cache.device.trace) + HeadWrite(old(cache.device.blocks), area, block[..n])
      ensures cache.device.blocks ==
        Apply(old(cache.device.blocks), HeadWrite(old(cache.device.blocks), area, block[..n]))
    {
      ghost var d := cache.device.blocks;
      assert area.Holds(area.start);
      GetAvailable(area.start, {});
      var r := Get(area.start);
      var data := FillHead(cache.bufs[r.value].data);
      Overwrite(r.value, data);
      ApplyOne(d, Write(area.start, data));
      Put(r.value);
    }

    /** memmove(dbuf, lbuf); bwrite(dbuf); bunpin(dbuf) */
    method CopyHome(l: nat, d: nat)
      requires cache.Valid() == true && |cache.bufs| == |cache.use| == NBUF
      requires l < NBUF && d < NBUF && cache.bufs[d].locked
      requires cache.bufs[d].blockno < |cache.device.blocks|
      modifies cache`bufs, cache`use, cache.device
      ensures cache.Valid() == true
      ensures cache.bufs == old(cache.bufs)
                [d := old(cache.bufs)[d].(data := old(cache.bufs)[l].data, refcnt := Dec(old(cache.bufs)[d].refcnt))]
      ensures cache.use == old(cache.use)[d := old(cache.use)[d].(pins := old(cache.use)[d].pins - 1)]
      ensures cache.device.blocks == old(cache.device.blocks)[old(cache.bufs)[d].blockno := old(cache.bufs)[l].data]
      ensures cache.device.trace ==
        old(cache.device.trace) + [Write(old(cache.bufs)[d].blockno, old(cache.bufs)[l].data)]
    {
      cache.Store(d, cache.bufs[l].data);
      cache.Bwrite(d);
      cache.Bunpin(d);
    }

    /** The same, then brelse(lbuf); brelse(dbuf) */
    method MoveHome(l: nat, d: nat) returns (ghost x: Word, ghost y: Word)
      requires cache.Valid() == true && |cache.bufs| == |cache.use| == NBUF
      requires l < NBUF && d < NBUF && l != d && cache.bufs[l].locked && cache.bufs[d].locked
      requires cache.bufs[d].blockno < |cache.device.blocks|
      modifies cache, cache.device
      ensures cache.Valid() == true
      ensures cache.bufs == old(cache.bufs)[l := old(cache.bufs)[l].(locked := false, refcnt := x)]
                [d := old(cache.bufs)[d].(data := old(cache.bufs)[l].data, locked := false, refcnt := y)]
      ensures cache.use == old(cache.use)[d := old(cache.use)[d].(pins := old(cache.use)[d].pins - 1)]
      ensures cache.device.blocks == old(cache.device.blocks)[old(cache.bufs)[d].blockno := old(cache.bufs)[l].data]
      ensures cache.device.trace ==
        old(cache.device.trace) + [Write(old(cache.bufs)[d].blockno, old(cache.bufs)[l].data)]
    {
      CopyHome(l, d);
      cache.Brelse(l);
      cache.Brelse(d);
      ghost var was := old(cache.bufs);
      x, y := Dec(was[l].refcnt), Dec(Dec(was[d].refcnt));
      MovedBufs(was, l, d, Dec(was[d].refcnt), x, y);
    }

    /** The rest of an install_trans round once log block and home block are both held. */
    method InstallHeld(l: nat, d: nat)
      requires Base() && Shows(l) && Shows(d) && l != d && cache.bufs[l].locked && cache.bufs[d].locked
      requires forall i :: 0 <= i < NBUF && i != l && i != d ==> !cache.bufs[i].locked
      requires area.Holds(cache.bufs[l].blockno) && !area.Holds(cache.bufs[d].blockno) && cache.bufs[d].valid
      requires cache.bufs[d].blockno in tx.pending ==> cache.bufs[l].data == tx.pending[cache.bufs[d].blockno]
      requires cache.bufs[d].blockno in tx.pending || tx.pending == map[]
      modifies this`tx, cache, cache.device
      ensures Base() && NoneLocked(cache.bufs)
      ensures tx == old(tx).Install(old(cache.bufs)[d].blockno)
      ensures cache.device.blocks == old(cache.device.blocks)[old(cache.bufs)[d].blockno := old(cache.bufs)[l].data]
      ensures cache.device.trace ==
        old(cache.device.trace) + [Write(old(cache.bufs)[d].blockno, old(cache.bufs)[l].data)]
    {
      ghost var bufs, use, blocks, b := cache.bufs, cache.use, cache.device.blocks, cache.bufs[d].blockno;
      assert BufOk(bufs[d], use[d], blocks, dev, tx.pending, tx.leaked);
      ghost var x, y := MoveHome(l, d);
      RoundCoherent(bufs, use, blocks, dev, tx.pending, tx.leaked, l, d, x, y);
      tx := tx.Install(b);
    }

    /** One iteration of install_trans: copy log block lb to its home b. */
    method InstallBlock(lb: nat, b: nat)
      requires Base() == true && NoneLocked(cache.bufs) == true
      requires area.Holds(lb) && b < |cache.device.blocks| && !area.Holds(b) && lb < |cache.device.blocks|
      requires Installing(cache.device.blocks, lb, b, tx) == true
      modifies this`tx, cache, cache.device
      ensures Base() == true && NoneLocked(cache.bufs) == true
      ensures tx == old(tx).Install(b)
      ensures cache.device.blocks == old(cache.device.blocks)[b := old(cache.device.blocks)[lb]]
      ensures cache.device.trace == old(cache.device.trace) + [Write(b, old(cache.device.blocks)[lb])]
    {
      var l, q := GetBoth(lb, b);
      InstallHeld(l, q);
    }

    /** One iteration of install_trans, started from disk d and transaction tx0. */
    method InstallNext(tail: nat, ghost d: Disk, ghost lh: seq<nat>, ghost tx0: Tx, ghost trace: seq<Write>)
      requires Base() == true && NoneLocked(cache.bufs) == true && tail < |lh| < NBUF
      requires tail < |block| && block[tail] == lh[tail]
      requires AreaOk(|d|, area) && EntriesOk(|d|, area, lh) == true && Installable(d, area, lh, tx0) == true
      requires |lh| < area.size
      requires InstalledUpTo(d, area, lh, tx0, trace, tail, tx, cache.device.trace, cache.device.blocks) == true
      modifies this`tx, cache, cache.device
      ensures Base() == true && NoneLocked(cache.bufs) == true
      ensures InstalledUpTo(d, area, lh, tx0, trace, tail + 1, tx, cache.device.trace, cache.device.blocks) == true
    {
      var b, lb := block[tail], area.start + 1 + tail;
      InstallRound(d, area, lh, tx0, trace, tail, tx, cache.device.trace, cache.device.blocks, b, lb);
      InstallBlock(lb, b);
    }

    /** install_trans, after a commit or on the recovery path. */
    method InstallTrans()
      requires Base() == true && NoneLocked(cache.bufs) == true && |block| == LOGSIZE && n <= LOGSIZE && n < NBUF
      requires AreaOk(|cache.device.blocks|, area) && EntriesOk(|cache.device.blocks|, area, block[..n]) == true
      requires Installable(cache.device.blocks, area, block[..n], tx) == true
      modifies this`tx, cache, cache.device
      ensures Base() == true && NoneLocked(cache.bufs) == true
      ensures tx == old(tx).InstallAll(block[..n], n)
      ensures cache.device.trace == old(cache.device.trace) + InstallWrites(old(cache.device.blocks), area, block[..n])
      ensures cache.device.blocks ==
        Apply(old(cache.device.blocks), InstallWrites(old(cache.device.blocks), area, block[..n]))
    {
      ghost var d, lh, tx0, trace := cache.device.blocks, block[..n], tx, cache.device.trace;
      assert InstallWrites(d, area, lh)[..n] == InstallWrites(d, area, lh);
      var tail := 0;
      while tail < n
        invariant 0 <= tail <= n && Base() == true && NoneLocked(cache.bufs) == true
        invariant InstalledUpTo(d, area, lh, tx0, trace, tail, tx, cache.device.trace, cache.device.blocks) == true
      {
        InstallNext(tail, d, lh, tx0, trace);
        tail := tail + 1;
      }
    }

    /** Between calls: the log on disk is empty and the pending blocks are exactly those in the header. */
    ghost predicate Valid()
      reads this, cache, cache.device
    {
      && Base() && Transaction()
      && tx.pending.Keys == Elems(block[..n])
      && LogEmpty(cache.device.blocks, area)
    }

    /** What Valid is made of. */
    ghost predicate Parts()
      reads this, cache, cache.device
    {
      && cache.Valid() == true && dev != 0 && AreaOk(|cache.device.blocks|, area)
      && Coherent(cache.bufs, cache.use, cache.device.blocks, dev, tx.pending, tx.leaked) == true
      && AreaFree(area, tx) == true && |block| == LOGSIZE && n <= LOGSIZE
      && EntriesOk(|cache.device.blocks|, area, block[..n]) == true && tx.pending.Keys == Elems(block[..n])
      && LogEmpty(cache.device.blocks, area) == true
    }

    lemma ValidParts()
      ensures Valid() <==> Parts()
    {}

    /**
     commit: one atomic update of the disk. Its writes are those of CommitWrites in order, so
     RedoLog.CrashAtomicity covers a crash at any point of it.
     */
    method Commit()
      requires Valid() == true && NoneLocked(cache.bufs) == true && n + |tx.leaked| < NBUF
      modifies this`n, this`tx, cache, cache.device
      ensures Valid() == true && NoneLocked(cache.bufs) == true && n == 0
      ensures tx.pending == map[] && tx.leaked == old(tx.leaked)
      ensures Committable(|old(cache.device.blocks)|, area, old(block[..n]), old(tx.pending))
      ensures cache.device.trace == old(cache.device.trace) +
                CommitWrites(old(cache.device.blocks), area, old(block[..n]), old(tx.pending))
      ensures |cache.device.blocks| == |old(cache.device.blocks)|
      ensures forall b :: 0 <= b < |cache.device.blocks| && !area.Holds(b) ==>
                cache.device.blocks[b] == View(old(cache.device.blocks), old(tx.pending), b)
    {
      CommitReady();
      CommitView(cache.device.blocks, area, block[..n], tx.pending);
      if n > 0 {
        CommitAndInstall();
        ValidEmpty();
      }
    }

    /** commit with something in the header. */
    method CommitAndInstall()
      requires Valid() == true && NoneLocked(cache.bufs) == true && n + |tx.leaked| < NBUF && n > 0
      modifies this`n, this`tx, cache, cache.device
      ensures Base() == true && NoneLocked(cache.bufs) == true && n == 0 && tx == Tx(map[], old(tx.leaked))
      ensures Committable(|old(cache.device.blocks)|, area, old(block[..n]), old(tx.pending))
      ensures
        var d, ws := old(cache.device.blocks),
                     CommitWrites(old(cache.device.blocks), area, old(block[..n]), old(tx.pending));
        cache.device.trace == old(cache.device.trace) + ws && cache.device.blocks == Apply(d, ws)
    {
      ghost var d, lh := cache.device.blocks, block[..n];
      CommitReady();
      CommitHalves(cache.device.trace, d, area, lh, tx.pending);
      MayInstallAll(Committed(d, area, lh, tx.pending), area, lh, tx);
      NotEmpty(lh, tx.pending);
      CommitToLog();
      InstallAndClear();
    }

    /** What commit may rely on. */
    lemma CommitReady()
      requires Valid() == true
      ensures Base() == true && |block| == LOGSIZE && n <= LOGSIZE && n < area.size
      ensures AreaOk(|cache.device.blocks|, area)
      ensures Committable(|cache.device.blocks|, area, block[..n], tx.pending) && LogEmpty(cache.device.blocks, area)
      ensures EntriesOk(|cache.device.blocks|, area, block[..n]) == true
      ensures tx.pending.Keys == Elems(block[..n]) && tx.pending.Keys !! tx.leaked
      ensures n == 0 ==> tx.pending == map[]
    {}

    /** write_log and the first write_head. */
    method CommitToLog()
      requires Valid() == true && NoneLocked(cache.bufs) == true && n + |tx.leaked| < NBUF
      modifies cache, cache.device
      ensures Base() == true && NoneLocked(cache.bufs) == true
      ensures Committable(|old(cache.device.blocks)|, area, block[..n], tx.pending)
      ensures cache.device.blocks == Committed(old(cache.device.blocks), area, block[..n], tx.pending)
      ensures cache.device.trace == old(cache.device.trace)
                + (LogWrites(area, block[..n], tx.pending) + HeadWrite(old(cache.device.blocks), area, block[..n]))
    {
      CommitReady();
      ElemsSize(block[..n]);
      ThenHead(cache.device.trace, cache.device.blocks, area, block[..n], tx.pending);
      WriteLog();
      WriteHead();
    }

    /** install_trans, then log.lh.n = 0 and write_head: the last part of both commit and recovery. */
    method InstallAndClear()
      requires Base() == true && NoneLocked(cache.bufs) == true && |block| == LOGSIZE && n <= LOGSIZE && n < NBUF
      requires AreaOk(|cache.device.blocks|, area) && EntriesOk(|cache.device.blocks|, area, block[..n]) == true
      requires n < area.size && Installable(cache.device.blocks, area, block[..n], tx) == true
      modifies this`n, this`tx, cache, cache.device
      ensures Base() == true && NoneLocked(cache.bufs) == true && n == 0
      ensures tx ==
        Tx(map[], if old(tx).pending == map[] then old(tx).leaked + Elems(old(block[..n])) else old(tx).leaked)
      ensures cache.device.trace == old(cache.device.trace)
                + InstallAndClearWrites(old(cache.device.blocks), area, old(block[..n]))
      ensures cache.device.blocks == Apply(old(cache.device.blocks),
                InstallAndClearWrites(old(cache.device.blocks), area, old(block[..n])))
    {
      InstallAllDone(cache.device.blocks, area, block[..n], tx);
      ThenClear(cache.device.trace, cache.device.blocks, area, block[..n]);
      InstallTrans();
      Clear();
    }

    /** log.lh.n = 0; write_head() */
    method Clear()
      requires Base() == true && NoneLocked(cache.bufs) == true
      requires |tx.pending| + |tx.leaked| < NBUF && |block| == LOGSIZE
      requires area.start < |cache.device.blocks|
      modifies this`n, cache, cache.device
      ensures Base() == true && NoneLocked(cache.bufs) == true && n == 0
      ensures cache.device.trace == old(cache.device.trace) + HeadWrite(old(cache.device.blocks), area, [])
      ensures cache.device.blocks == Apply(old(cache.device.blocks), HeadWrite(old(cache.device.blocks), area, []))
    {
      n := 0;
      assert block[..n] == [];
      WriteHead();
    }

    /** read_head: the header block's n and block[] become the in-memory header. */
    method ReadHead()
      requires Base() == true && NoneLocked(cache.bufs) == true
      requires |tx.pending| + |tx.leaked| < NBUF && |block| == LOGSIZE
      requires area.start !in tx.pending && HeadCount(cache.device.blocks[area.start]) <= LOGSIZE
      modifies this`n, this`block, cache
      ensures Base() == true && NoneLocked(cache.bufs) == true && |block| == LOGSIZE
      ensures n == HeadCount(cache.device.blocks[area.start])
      ensures block[..n] == HeadBlocks(cache.device.blocks[area.start])
    {
      assert area.Holds(area.start);
      GetAvailable(area.start, {});
      var r := Get(area.start);
      var data := cache.bufs[r.value].data;
      CopyHead(data);
      Put(r.value);
    }

    method CopyHead(data: Block)
      requires |block| == LOGSIZE && HeadCount(data) <= LOGSIZE
      modifies this`n, this`block
      ensures |block| == LOGSIZE && n == HeadCount(data) && block[..n] == HeadBlocks(data)
    {
      n := WordAt(data, 0);
      var i := 0;
      while i < n
        invariant 0 <= i <= n == HeadCount(data) && |block| == LOGSIZE
        invariant block[..i] == HeadBlocks(data)[..i]
      {
        block := block[i := WordAt(data, 1 + i)];
        i := i + 1;
      }
    }

    /**
     recover_from_log, with nothing cached or tx.pending yet. Its writes are those of RecoverWrites in order.
     Every block it installs is unpinned without ever having been pinned.
     */
    method Recover()
      requires Base() == true && NoneLocked(cache.bufs) == true && |block| == LOGSIZE
      requires tx.pending == map[] && tx.leaked == {}
      requires LogOk(cache.device.blocks, area) && |OnDiskEntries(cache.device.blocks, area)| < NBUF
      modifies this`n, this`block, this`tx, cache, cache.device
      ensures Valid() == true && NoneLocked(cache.bufs) == true && n == 0 && tx.pending == map[]
      ensures tx.leaked == Elems(OnDiskEntries(old(cache.device.blocks), area))
      ensures cache.device.trace == old(cache.device.trace) + RecoverWrites(old(cache.device.blocks), area)
      ensures |cache.device.blocks| == |old(cache.device.blocks)|
      ensures forall b :: 0 <= b < |cache.device.blocks| && !area.Holds(b) ==>
                cache.device.blocks[b] == Home(old(cache.device.blocks), area, b)
    {
      ghost var d := cache.device.blocks;
      MayRecoverAll(d, area, tx);
      ReadHead();
      InstallAndClear();
      RecoverRunsInstall(d, area, []);
      ValidEmpty();
    }

    lemma ValidEmpty()
      requires Base() == true && n == 0 && |block| == LOGSIZE && tx.pending == map[]
      requires LogEmpty(cache.device.blocks, area)
      ensures Valid() == true
    {}

    /** log_write: false is one of its panics. It lists the buffer's block, and pins the buffer if that is new. */
    method LogWrite(r: nat) returns (ok: bool)
      requires cache.Valid() == true && |cache.bufs| == NBUF && |block| == LOGSIZE && n <= LOGSIZE && r < NBUF
      modifies this`n, this`block, cache`bufs, cache`use
      ensures cache.Valid() == true && |block| == LOGSIZE && n <= LOGSIZE
      ensures ok <==> old(n) < LOGSIZE && old(n) < area.size - 1 && outstanding >= 1
      ensures ok ==> block[..n] == Listed(old(block[..n]), old(cache.bufs)[r].blockno)
      ensures ok && old(cache.bufs)[r].blockno !in old(block[..n]) ==>
                && cache.bufs == old(cache.bufs)[r := old(cache.bufs)[r].(refcnt := Inc(old(cache.bufs)[r].refcnt))]
                && cache.use == PinUse(old(cache.use), r)
      ensures !ok || old(cache.bufs)[r].blockno in old(block[..n]) ==>
                n == old(n) && block == old(block) && cache.bufs == old(cache.bufs) && cache.use == old(cache.use)
    {
      if n >= LOGSIZE || n >= area.size - 1 { return false; }
      if outstanding < 1 { return false; }
      var i := Position(cache.bufs[r].blockno);
      block := block[i := cache.bufs[r].blockno];
      if i == n {
        cache.Bpin(r);
        n := n + 1;
      } else {
        assert block == old(block) && block[i] in block[..n];
      }
      return true;
    }

    /** log_write's scan: where b is listed, or n. */
    method Position(b: nat) returns (i: nat)
      requires |block| == LOGSIZE && n <= LOGSIZE
      ensures i <= n && (i < n ==> block[i] == b) && b !in block[..i]
    {
      i := 0;
      while i < n && block[i] != b
        invariant 0 <= i <= n && b !in block[..i]
      {
        i := i + 1;
      }
    }

    /** bread and brelse: a reader sees the committed state overlaid with the pending writes. */
    method ReadBlock(b: nat) returns (r: Option<Block>)
      requires Valid() == true && b < |cache.device.blocks|
      requires forall i :: 0 <= i < NBUF && cache.bufs[i].Is(dev, b) ==> !cache.bufs[i].locked
      modifies cache
      ensures Valid() == true
      ensures LruOk(old(cache.Used())) == true && r == Seen(old(cache.Used()), cache.device.blocks, dev, b)
      ensures r.Some? ==> r.value == View(cache.device.blocks, tx.pending, b)
      ensures r.Some? ==> Touched(old(cache.Used()), cache.device.blocks, dev, b, None, false) == Some(cache.Used())
    {
      ghost var l, blocks := cache.Used(), cache.device.blocks;
      UnusedAreFree();
      r := cache.ReadOnce(dev, b);
      if r.Some? {
        ReadCoherent(l, cache.use, blocks, dev, tx.pending, tx.leaked, b, cache.Used());
      }
    }

    /** A held buffer after its data is changed and log_write is called for it. */
    ghost function Rewritten(x: Buf, data: Block, listed: bool): Buf {
      var y := x.(data := data);
      if listed then y else y.(refcnt := Inc(y.refcnt))
    }

    /** Change the data of a held buffer, log_write, brelse. */
    method Relist(r: nat, data: Block) returns (ok: bool)
      requires cache.Valid() == true && |cache.bufs| == NBUF && |block| == LOGSIZE && n <= LOGSIZE
      requires r < NBUF && cache.bufs[r].locked
      modifies this`n, this`block, cache
      ensures cache.Valid() == true && |block| == LOGSIZE && n <= LOGSIZE
      ensures ok <==> old(n) < LOGSIZE && old(n) < area.size - 1 && outstanding >= 1
      ensures ok ==> block[..n] == Listed(old(block[..n]), old(cache.bufs)[r].blockno)
      ensures r in old(cache.order)
      ensures
        var listed := old(cache.bufs)[r].blockno in old(block[..n]);
        ok ==>
          && cache.Used() == Released(old(cache.Used()), r, Rewritten(old(cache.bufs)[r], data, listed))
          && cache.use == if listed then old(cache.use) else PinUse(old(cache.use), r)
    {
      ghost var l := cache.Used();
      cache.Store(r, data);
      ok := LogWrite(r);
      cache.ValidLru();
      if ok {
        assert cache.bufs == l.bufs[r := cache.bufs[r]];
        ReleasedHeld(l, r, cache.bufs[r], cache.bufs[r]);
        cache.Brelse(r);
      }
    }

    /** bread, change the data, log_write, brelse. The disk is not touched and the block is listed. */
    method Rewrite(b: nat, data: Block) returns (ok: bool)
      requires cache.Valid() == true && |cache.bufs| == NBUF && dev != 0 && b < |cache.device.blocks|
      requires |block| == LOGSIZE && n <= LOGSIZE
      requires forall i :: 0 <= i < NBUF && (cache.bufs[i].Is(dev, b) || cache.bufs[i].refcnt == 0) ==>
        !cache.bufs[i].locked
      modifies this`n, this`block, cache
      ensures cache.Valid() == true && |block| == LOGSIZE && n <= LOGSIZE
      ensures LruOk(old(cache.Used())) == true
      ensures ok <==>
        Pick(old(cache.Used()), dev, b).Some? && old(n) < LOGSIZE && old(n) < area.size - 1 && outstanding >= 1
      ensures ok ==> block[..n] == Listed(old(block[..n]), b)
      ensures ok ==> Touched(old(cache.Used()), cache.device.blocks, dev, b, Some(data), b !in old(block[..n]))
                     == Some(cache.Used())
      ensures ok ==> cache.use == if b in old(block[..n]) then old(cache.use)
                                  else PinUse(old(cache.use), Pick(old(cache.Used()), dev, b).value)
    {
      ghost var l := cache.Used();
      cache.ValidLru();
      var q := cache.Bread(dev, b);
      if q.None? { return false; }
      ghost var x := cache.bufs[q.value];
      ok := Relist(q.value, data);
      ReleasedHeld(l, q.value, x, Rewritten(x, data, b in old(block[..n])));
    }

    /** The block becomes pending unless recovery installed it at boot: then nothing keeps its buffer in the cache. */
    method UpdateBlock(b: nat, data: Block) returns (ok: bool)
      requires Valid() == true && b < |cache.device.blocks| && !area.Holds(b) && |cache.bufs| == NBUF
      requires forall i :: 0 <= i < NBUF && cache.bufs[i].Is(dev, b) ==> !cache.bufs[i].locked
      modifies this`n, this`block, this`tx, cache
      ensures LruOk(old(cache.Used())) == true
      ensures ok <==>
        Pick(old(cache.Used()), dev, b).Some? && old(n) < LOGSIZE && old(n) < area.size - 1 && outstanding >= 1
      ensures ok ==>
        |block| == LOGSIZE && n <= LOGSIZE && old(n) <= |old(block)| && block[..n] == Listed(old(block[..n]), b)
      ensures ok ==> Touched(old(cache.Used()), cache.device.blocks, dev, b, Some(data), b !in old(tx.pending))
                     == Some(cache.Used())
      ensures ok && b !in tx.leaked ==> Valid() == true
      ensures tx == if ok then Tx(old(tx.pending)[b := data], old(tx.leaked)) else old(tx)
    {
      ghost var l, use, blocks, lh := cache.Used(), cache.use, cache.device.blocks, block[..n];
      ValidParts();
      UnusedAreFree();
      ok := Rewrite(b, data);
      if ok {
        ListedOk(|blocks|, area, lh, tx, b, data);
        if b !in tx.leaked {
          UpdateCoherent(l, use, blocks, dev, tx.pending, tx.leaked, b, data, cache.Used());
        }
        tx := Tx(tx.pending[b := data], tx.leaked);
        ValidParts();
      }
    }

    /** One turn of begin_op's loop: false when it sleeps, because of a commit or for want of log space. */
    method BeginOp() returns (ok: bool)
      modifies this`outstanding
      ensures ok <==> !committing && n + (old(outstanding) + 1) * MAXOPBLOCKS <= LOGSIZE
      ensures outstanding == if ok then old(outstanding) + 1 else old(outstanding)
    {
      if committing { return false; }
      if n + (outstanding + 1) * MAXOPBLOCKS > LOGSIZE { return false; }
      outstanding := outstanding + 1;
      return true;
    }

    /** end_op of the only process in the file system: the last operation out commits. */
    method EndOp()
      requires Valid() == true && NoneLocked(cache.bufs) == true && n + |tx.leaked| < NBUF
      requires outstanding >= 1 && !committing
      modifies this`n, this`tx, this`outstanding, this`committing, cache, cache.device
      ensures Valid() == true && outstanding == old(outstanding) - 1 && !committing && tx.leaked == old(tx.leaked)
      ensures |cache.device.blocks| == |old(cache.device.blocks)|
      ensures NoneLocked(cache.bufs) == true
      ensures outstanding > 0 ==>
        n == old(n) && tx.pending == old(tx.pending) && cache.device.blocks == old(cache.device.blocks)
      ensures outstanding == 0 ==> n == 0 && tx.pending == map[]
      ensures outstanding == 0 ==> Committable(|old(cache.device.blocks)|, area, old(block[..n]), old(tx.pending))
      ensures outstanding == 0 ==>
                cache.device.trace == old(cache.device.trace)
                  + CommitWrites(old(cache.device.blocks), area, old(block[..n]), old(tx.pending))
      ensures outstanding == 0 ==> forall b :: 0 <= b < |cache.device.blocks| && !area.Holds(b) ==>
                cache.device.blocks[b] == View(old(cache.device.blocks), old(tx.pending), b)
    {
      Count(outstanding - 1, false);
      if outstanding == 0 {
        Count(0, true);
        Commit();
        Count(0, false);
      }
    }

    /** log.outstanding and log.committing, which say nothing of the blocks. */
    method Count(ops: int, busy: bool)
      requires Valid() == true
      modifies this`outstanding, this`committing
      ensures Valid() == true && outstanding == ops && committing == busy
    {
      outstanding, committing := ops, busy;
    }
  }

  /** initlog at boot: a fresh cache over the device, then recovery. */
  method Mount(device: Device, dev: nat, area: Area) returns (log: TxLog)
    requires dev != 0 && LogOk(device.blocks, area) && |OnDiskEntries(device.blocks, area)| < NBUF
    modifies device
    ensures fresh(log) && fresh(log.cache) && log.cache.device == device && log.area == area && log.dev == dev
    ensures log.Valid() == true && NoneLocked(log.cache.bufs) && log.tx.pending == map[] && log.n == 0
    ensures log.outstanding == 0 && !log.committing
    ensures log.tx.leaked == Elems(OnDiskEntries(old(device.blocks), area))
    ensures device.trace == old(device.trace) + RecoverWrites(old(device.blocks), area)
    ensures |device.blocks| == |old(device.blocks)|
    ensures forall b :: 0 <= b < |device.blocks| && !area.Holds(b) ==>
      device.blocks[b] == Home(old(device.blocks), area, b)
  {
    var cache := new Cache.Binit(device);
    log := new TxLog(cache, dev, area);
    log.Recover();
  }

  /**
   The law of reference counts between system calls, when nobody waits. A count is the number of its holders and pins
   exactly for the blocks that recovery did not unpin without a pin.
   */
  lemma CountLaw(bufs: seq<Buf>, use: seq<Use>, blocks: Disk, dev: nat, pending: Pending, leaked: set<nat>, i: nat)
    requires Coherent(bufs, use, blocks, dev, pending, leaked) && Counted(bufs, use) && i < NBUF
    ensures bufs[i].refcnt == Count(bufs[i], use[i]) <==> !(bufs[i].dev == dev && bufs[i].blockno in leaked)
  {
    assert BufOk(bufs[i], use[i], blocks, dev, pending, leaked);
  }

  lemma EntriesAppend(size: nat, a: Area, lh: seq<nat>, b: nat)
    requires EntriesOk(size, a, lh) && b < size && !a.Holds(b) && b !in lh
    requires |lh| < LOGSIZE && |lh| + 1 < a.size
    ensures EntriesOk(size, a, lh + [b]) && Elems(lh + [b]) == Elems(lh) + {b}
  {
    forall i | 0 <= i <= |lh| ensures IndexOf(lh + [b], (lh + [b])[i]) == i {
      IndexOfAppend(lh, b, (lh + [b])[i]);
    }
  }

  /** The header with b in it. */
  function Listed(lh: seq<nat>, b: nat): seq<nat> { if b in lh then lh else lh + [b] }

  /** The header and the pending blocks after log_write of b. */
  lemma ListedOk(size: nat, a: Area, lh: seq<nat>, tx: Tx, b: nat, data: Block)
    requires EntriesOk(size, a, lh) == true && b < size && !a.Holds(b) && |lh| < LOGSIZE && |lh| + 1 < a.size
    requires AreaFree(a, tx) == true && tx.pending.Keys == Elems(lh)
    ensures EntriesOk(size, a, Listed(lh, b)) == true && (b in lh <==> b in tx.pending)
    ensures AreaFree(a, Tx(tx.pending[b := data], tx.leaked)) == true
    ensures tx.pending[b := data].Keys == Elems(Listed(lh, b))
  {
    if b !in lh { EntriesAppend(size, a, lh, b); }
  }

  lemma {:induction false} IndexOfAppend(lh: seq<nat>, b: nat, x: nat)
    requires b !in lh
    ensures IndexOf(lh + [b], x) == if x == b then |lh| else if x in lh then IndexOf(lh, x) else |lh| + 1
  {
    if lh != [] {
      assert (lh + [b])[1..] == lh[1..] + [b];
      IndexOfAppend(lh[1..], b, x);
    }
  }

  function InstallAndClearWrites(d: Disk, a: Area, lh: seq<nat>): seq<Write>
    requires a.start + 1 + |lh| <= |d|
  {
    InstallWrites(d, a, lh) + HeadWrite(d, a, [])
  }

  lemma HeaderUntouched(d: Disk, a: Area, lh: seq<nat>)
    requires AreaOk(|d|, a) && EntriesOk(|d|, a, lh)
    ensures Apply(d, InstallWrites(d, a, lh))[a.start] == d[a.start]
  {
    InstallEffect(d, a, lh, |lh|);
    assert InstallWrites(d, a, lh)[..|lh|] == InstallWrites(d, a, lh);
    InstalledLogArea(d, Apply(d, InstallWrites(d, a, lh)), a, lh, |lh|, a.start);
  }

  /** install_trans and the header write after it, on the trace and on the disk. */
  lemma ThenClear(trace: seq<Write>, d: Disk, a: Area, lh: seq<nat>)
    requires AreaOk(|d|, a) && EntriesOk(|d|, a, lh) == true && |lh| < a.size
    ensures
      var ws, all := InstallWrites(d, a, lh), InstallAndClearWrites(d, a, lh);
      var e := Apply(d, ws);
      && (trace + ws) + HeadWrite(e, a, []) == trace + all && Apply(e, HeadWrite(e, a, [])) == Apply(d, all)
  {
    HeaderUntouched(d, a, lh);
    ApplyAppend(d, InstallWrites(d, a, lh), HeadWrite(d, a, []));
  }

  /** One more block of write_log, on the trace and on the disk. */
  lemma LogNext(trace: seq<Write>, d: Disk, a: Area, lh: seq<nat>, ps: Pending, k: nat)
    requires Committable(|d|, a, lh, ps) && k < |lh|
    ensures lh[k] in ps && lh[k] < |d|
    ensures
      var ws := LogWrites(a, lh, ps);
      && (trace + ws[..k]) + [Write(a.start + 1 + k, ps[lh[k]])] == trace + ws[..k + 1]
      && Apply(d, ws[..k])[a.start + 1 + k := ps[lh[k]]] == Apply(d, ws[..k + 1])
  {
    var ws := LogWrites(a, lh, ps);
    assert ws[k] == Write(a.start + 1 + k, ps[lh[k]]) && lh[k] in lh;
    ApplyNext(d, ws, k);
    TraceNext(trace, ws, k);
  }

  /** write_log and the header write after it, on the trace and on the disk. */
  lemma ThenHead(trace: seq<Write>, d: Disk, a: Area, lh: seq<nat>, ps: Pending)
    requires Committable(|d|, a, lh, ps)
    ensures HeadFits(lh)
    ensures
      var ws := LogWrites(a, lh, ps);
      var e := Apply(d, ws);
      && (trace + ws) + HeadWrite(e, a, lh) == trace + (ws + HeadWrite(d, a, lh))
      && Apply(e, HeadWrite(e, a, lh)) == Committed(d, a, lh, ps)
  {
    var ws := LogWrites(a, lh, ps);
    assert ws[..|lh|] == ws;
    LogWritesEffect(d, a, lh, ps, |lh|);
    ApplyAppend(d, ws, HeadWrite(d, a, lh));
  }

  /** Once everything is written, the disk shows what the cache showed, and the log is empty. */
  lemma CommitView(d: Disk, a: Area, lh: seq<nat>, ps: Pending)
    requires LogEmpty(d, a) && Committable(|d|, a, lh, ps) && ps.Keys == Elems(lh)
    ensures
      var e := Apply(d, CommitWrites(d, a, lh, ps));
      && |e| == |d| && LogEmpty(e, a) && (lh == [] ==> e == d && CommitWrites(d, a, lh, ps) == [])
      && forall b :: 0 <= b < |e| && !a.Holds(b) ==> e[b] == View(d, ps, b)
  {
    CommitEffect(d, a, lh, ps);
  }

  /** The two halves of commit, on the trace and on the disk. */
  lemma CommitHalves(trace: seq<Write>, d: Disk, a: Area, lh: seq<nat>, ps: Pending)
    requires LogOk(d, a) && OnDiskEntries(d, a) == [] && EntriesOk(|d|, a, lh) && lh != []
    requires forall b :: b in lh ==> b in ps
    ensures
      var mid := Committed(d, a, lh, ps);
      var pre, post := LogWrites(a, lh, ps) + HeadWrite(d, a, lh), InstallAndClearWrites(mid, a, lh);
      && |mid| == |d| && LogHolds(mid, a, lh, ps)
      && (trace + pre) + post == trace + CommitWrites(d, a, lh, ps)
      && Apply(d, CommitWrites(d, a, lh, ps)) == Apply(mid, post)
  {
    var mid := Committed(d, a, lh, ps);
    CommitIsRecovery(d, a, lh, ps);
    AtHeader(d, a, lh, ps);
    ApplyAppend(d, LogWrites(a, lh, ps) + HeadWrite(d, a, lh), RecoverWrites(mid, a));
  }
}

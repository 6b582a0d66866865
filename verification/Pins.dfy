/**
 What a pin is worth. log_write pins a block so that its buffer stays in the cache until commit; recovery has
 unpinned the blocks it installed without a pin, and one of these is as good as unpinned after log_write.
 A predicate that a lemma only hands on is written `P == true`, so that it is handed on unopened.
 */
module Pins {
  import opened Basics
  import opened Bytes
  import opened RedoLog
  import opened BufferCache
  import opened Log

  ghost predicate BlocksIn(cs: seq<nat>, n: nat) { forall i :: 0 <= i < |cs| ==> cs[i] < n }

  /** The cache after bread and brelse of each block of cs in turn; None when bget panics. */
  ghost function Reads(l: Lru, blocks: Disk, dev: nat, cs: seq<nat>): (r: Option<Lru>)
    requires LruOk(l) && BlocksIn(cs, |blocks|)
    ensures r.Some? ==> LruOk(r.value)
    decreases |cs|
  {
    if cs == [] then Some(l)
    else match Touched(l, blocks, dev, cs[0], None, false)
      case None => None
      case Some(t) => TouchedOk(l, blocks, dev, cs[0], None, false); Reads(t, blocks, dev, cs[1..])
  }

  /** Whatever is read in between, a read of b shows data. */
  ghost predicate Survives(l: Lru, blocks: Disk, dev: nat, b: nat, data: Block)
    requires LruOk(l) && b < |blocks|
  {
    forall cs :: BlocksIn(cs, |blocks|) && Reads(l, blocks, dev, cs).Some? ==>
      var seen := Seen(Reads(l, blocks, dev, cs).value, blocks, dev, b); seen.None? || seen.value == data
  }

  /* A buffer with a nonzero count stays. */

  /** Buffer i is the block's, in use and unlocked. */
  predicate Kept(l: Lru, dev: nat, b: nat, i: nat, x: Buf) {
    LruOk(l) && i < NBUF && l.bufs[i] == x && x.Is(dev, b) && x.valid && !x.locked && x.refcnt != 0
  }

  lemma KeptPick(l: Lru, dev: nat, b: nat, i: nat, x: Buf, c: nat)
    requires Kept(l, dev, b, i, x) && dev != 0 && Pick(l, dev, c).Some?
    ensures Pick(l, dev, c).value == i <==> c == b
  {
    assert i in l.order;
    if c == b { PickOwn(l, dev, b); }
  }

  lemma KeptOwn(l: Lru, dev: nat, b: nat, i: nat, x: Buf)
    requires Kept(l, dev, b, i, x) && dev != 0
    ensures Pick(l, dev, b) == Some(i)
  {
    assert i in l.order;
  }

  lemma KeptRead(l: Lru, blocks: Disk, dev: nat, b: nat, i: nat, x: Buf, c: nat)
    requires Kept(l, dev, b, i, x) && dev != 0 && c < |blocks| && Touched(l, blocks, dev, c, None, false).Some?
    ensures Kept(Touched(l, blocks, dev, c, None, false).value, dev, b, i, x)
  {
    TouchedOk(l, blocks, dev, c, None, false);
    KeptPick(l, dev, b, i, x, c);
  }

  lemma {:induction false} KeptReads(l: Lru, blocks: Disk, dev: nat, b: nat, i: nat, x: Buf, cs: seq<nat>)
    requires Kept(l, dev, b, i, x) && dev != 0 && BlocksIn(cs, |blocks|) && Reads(l, blocks, dev, cs).Some?
    ensures Kept(Reads(l, blocks, dev, cs).value, dev, b, i, x)
    decreases |cs|
  {
    if cs != [] {
      KeptRead(l, blocks, dev, b, i, x, cs[0]);
      KeptReads(Touched(l, blocks, dev, cs[0], None, false).value, blocks, dev, b, i, x, cs[1..]);
    }
  }

  lemma KeptSurvives(l: Lru, blocks: Disk, dev: nat, b: nat, i: nat, x: Buf)
    requires Kept(l, dev, b, i, x) && dev != 0 && b < |blocks|
    ensures Survives(l, blocks, dev, b, x.data)
  {
    forall cs | BlocksIn(cs, |blocks|) && Reads(l, blocks, dev, cs).Some?
      ensures Seen(Reads(l, blocks, dev, cs).value, blocks, dev, b) == Some(x.data)
    {
      KeptReads(l, blocks, dev, b, i, x, cs);
      KeptOwn(Reads(l, blocks, dev, cs).value, dev, b, i, x);
    }
  }

  /* A buffer with count 0 does not. */

  function Below(n: nat): (r: set<nat>)
    ensures |r| == n && forall c :: c in r <==> 0 <= c < n
  {
    if n == 0 then {} else Below(n - 1) + {n - 1}
  }

  lemma {:induction false} BlocksFew(bufs: seq<Buf>, k: nat)
    requires k <= |bufs|
    ensures |BlocksOf(bufs, k)| <= k
  {
    if k > 0 {
      BlocksFew(bufs, k - 1);
      assert BlocksOf(bufs, k) == BlocksOf(bufs, k - 1) + {bufs[k - 1].blockno};
    }
  }

  /** A disk with more blocks than there are buffers has a block that is not cached. */
  lemma SomeUncached(bufs: seq<Buf>, dev: nat, n: nat) returns (c: nat)
    requires |bufs| == NBUF < n
    ensures c < n && forall j :: 0 <= j < NBUF ==> !bufs[j].Is(dev, c)
  {
    BlocksFew(bufs, NBUF);
    if Below(n) <= BlocksOf(bufs, NBUF) { SubsetSize(Below(n), BlocksOf(bufs, NBUF)); }
    c :| c in Below(n) && c !in BlocksOf(bufs, NBUF);
  }

  /** Buffer i is unused and unlocked. */
  predicate Idle(l: Lru, i: nat) { LruOk(l) && i < NBUF && l.bufs[i].refcnt == 0 && !l.bufs[i].locked }

  /** Reading a block that is not cached takes buffer i, or another unused one further from the front. */
  lemma MissStep(l: Lru, blocks: Disk, dev: nat, i: nat, c: nat) returns (t: Lru)
    requires Idle(l, i) && c < |blocks| && forall j :: 0 <= j < NBUF ==> !l.bufs[j].Is(dev, c)
    ensures Touched(l, blocks, dev, c, None, false) == Some(t) && LruOk(t) && i in l.order && i in t.order
    ensures t.bufs[i] == Buf(true, dev, c, 0, false, blocks[c])
         || (t.bufs[i] == l.bufs[i] && IndexOf(l.order, i) < IndexOf(t.order, i))
  {
    assert i in l.order;
    var v := VictimAfter(l.bufs, l.order, i);
    t := Touched(l, blocks, dev, c, None, false).value;
    TouchedOk(l, blocks, dev, c, None, false);
    if v != i { FrontMoves(l.order, v, i); }
  }

  /** bget's second loop stops at or beyond any unused buffer. */
  lemma {:induction false} VictimAfter(bufs: seq<Buf>, order: seq<nat>, i: nat) returns (v: nat)
    requires i in order && Distinct(order) && (forall k :: 0 <= k < |order| ==> order[k] < |bufs|)
    requires bufs[i].refcnt == 0
    ensures Victim(bufs, order) == Some(v) && v in order && IndexOf(order, i) <= IndexOf(order, v)
  {
    v := Victim(bufs, order).value;
    VictimLast(bufs, order, i);
  }

  lemma {:induction false} VictimLast(bufs: seq<Buf>, order: seq<nat>, i: nat)
    requires i in order && Distinct(order) && (forall k :: 0 <= k < |order| ==> order[k] < |bufs|)
    requires bufs[i].refcnt == 0
    ensures IndexOf(order, i) <= IndexOf(order, Victim(bufs, order).value)
  {
    var n := |order| - 1;
    if bufs[order[n]].refcnt != 0 {
      assert order == order[..n] + [order[n]];
      assert i in order[..n];
      VictimLast(bufs, order[..n], i);
      PrefixIndex(order, n, i);
      PrefixIndex(order, n, Victim(bufs, order).value);
    }
  }

  lemma {:induction false} PrefixIndex(order: seq<nat>, n: nat, x: nat)
    requires n <= |order| && x in order[..n]
    ensures IndexOf(order[..n], x) == IndexOf(order, x)
  {
    if order[0] != x {
      assert order[..n][1..] == order[1..][..n - 1];
      PrefixIndex(order[1..], n - 1, x);
    }
  }

  /** Moving v to the front pushes what was before it one place back. */
  lemma FrontMoves(order: seq<nat>, v: nat, i: nat)
    requires Distinct(order) && v in order && i in order && IndexOf(order, i) < IndexOf(order, v)
    ensures i in Front(order, v) && IndexOf(Front(order, v), i) == IndexOf(order, i) + 1
  {
    var p, q, f := IndexOf(order, v), IndexOf(order, i), Front(order, v);
    FrontDistinct(order, v);
    assert f[q + 1] == i;
  }

  /** So reading such blocks one after another ends with buffer i taken, and its block read from disk again. */
  lemma Evicted(l: Lru, blocks: Disk, dev: nat, b: nat, i: nat) returns (cs: seq<nat>)
    requires Idle(l, i) && l.bufs[i].Is(dev, b) && dev != 0 && b < |blocks| && NBUF < |blocks|
    ensures BlocksIn(cs, |blocks|) && Reads(l, blocks, dev, cs).Some?
    ensures Seen(Reads(l, blocks, dev, cs).value, blocks, dev, b) == Some(blocks[b])
    decreases NBUF - IndexOf(l.order, i)
  {
    var c := SomeUncached(l.bufs, dev, |blocks|);
    var t := MissStep(l, blocks, dev, i, c);
    if t.bufs[i].Is(dev, b) {
      var rest := Evicted(t, blocks, dev, b, i);
      cs := [c] + rest;
      assert cs[1..] == rest;
    } else {
      cs := [c];
      assert cs[1..] == [];
      assert forall j :: 0 <= j < NBUF ==> !t.bufs[j].Is(dev, b);
      var v := VictimAfter(t.bufs, t.order, i);
    }
  }

  /** The count log_write and brelse leave on a block's buffer. */
  lemma PinnedCount(bufs: seq<Buf>, use: seq<Use>, blocks: Disk, dev: nat, pending: Pending, leaked: set<nat>, i: nat,
                    b: nat)
    requires Coherent(bufs, use, blocks, dev, pending, leaked) && Counted(bufs, use) && i < NBUF
    requires !bufs[i].locked && (bufs[i].Is(dev, b) || (bufs[i].refcnt == 0 && b !in leaked && b !in pending))
    requires b < |blocks|
    ensures var x := Loaded(bufs[i], blocks, dev, b);
      Dec(if b in pending then x.refcnt else Inc(x.refcnt)) == if b in leaked then 0 else 1
  {
    assert BufOk(bufs[i], use[i], blocks, dev, pending, leaked);
  }

  /** The buffer that bread, a change, log_write and brelse of block b leave. */
  lemma UpdatedBuf(l: Lru, use: seq<Use>, blocks: Disk, dev: nat, pending: Pending, leaked: set<nat>, b: nat,
                   data: Block, t: Lru) returns (i: nat)
    requires LruOk(l) && Coherent(l.bufs, use, blocks, dev, pending, leaked) && Counted(l.bufs, use) && dev != 0
    requires NoneLocked(l.bufs) && b < |blocks| && Touched(l, blocks, dev, b, Some(data), b !in pending) == Some(t)
    ensures LruOk(t) && i < NBUF && t.bufs[i] == Buf(true, dev, b, if b in leaked then 0 else 1, false, data)
  {
    TouchedOk(l, blocks, dev, b, Some(data), b !in pending);
    i := Pick(l, dev, b).value;
    PickOwn(l, dev, b);
    assert b in pending || b in leaked ==> Cached(l.bufs, dev, b);
    PinnedCount(l.bufs, use, blocks, dev, pending, leaked, i, b);
  }

  /* A buffer that shows what the disk holds may come and go. */

  predicate Clean(l: Lru, blocks: Disk, dev: nat, b: nat) {
    && LruOk(l) && b < |blocks|
    && forall j :: 0 <= j < NBUF && l.bufs[j].Is(dev, b) && l.bufs[j].valid ==> l.bufs[j].data == blocks[b]
  }

  lemma CleanRead(l: Lru, blocks: Disk, dev: nat, b: nat, c: nat)
    requires Clean(l, blocks, dev, b) && c < |blocks| && Touched(l, blocks, dev, c, None, false).Some?
    ensures Clean(Touched(l, blocks, dev, c, None, false).value, blocks, dev, b)
  {
    TouchedOk(l, blocks, dev, c, None, false);
  }

  lemma {:induction false} CleanReads(l: Lru, blocks: Disk, dev: nat, b: nat, cs: seq<nat>)
    requires Clean(l, blocks, dev, b) && BlocksIn(cs, |blocks|) && Reads(l, blocks, dev, cs).Some?
    ensures Clean(Reads(l, blocks, dev, cs).value, blocks, dev, b)
    decreases |cs|
  {
    if cs != [] {
      CleanRead(l, blocks, dev, b, cs[0]);
      CleanReads(Touched(l, blocks, dev, cs[0], None, false).value, blocks, dev, b, cs[1..]);
    }
  }

  lemma CleanSurvives(l: Lru, blocks: Disk, dev: nat, b: nat)
    requires Clean(l, blocks, dev, b)
    ensures Survives(l, blocks, dev, b, blocks[b])
  {
    forall cs | BlocksIn(cs, |blocks|) && Reads(l, blocks, dev, cs).Some?
      ensures var seen := Seen(Reads(l, blocks, dev, cs).value, blocks, dev, b); seen.None? || seen.value == blocks[b]
    {
      CleanReads(l, blocks, dev, b, cs);
    }
  }

  /**
   After bread, a change, log_write and brelse of block b, between other calls: every later read shows the change until
   commit, whatever is read in between, exactly when recovery did not install b at boot, or the change is to what the
   disk holds anyway.
   */
  lemma UpdateSurvives(l: Lru, use: seq<Use>, blocks: Disk, dev: nat, pending: Pending, leaked: set<nat>, b: nat,
                       data: Block, t: Lru)
    requires LruOk(l) == true && Coherent(l.bufs, use, blocks, dev, pending, leaked) == true
    requires Counted(l.bufs, use) == true
    requires NoneLocked(l.bufs) == true && b < |blocks| && NBUF < |blocks| && dev != 0
    requires Touched(l, blocks, dev, b, Some(data), b !in pending) == Some(t)
    ensures LruOk(t) == true && (Survives(t, blocks, dev, b, data) <==> b !in leaked || data == blocks[b])
  {
    var i := UpdatedBuf(l, use, blocks, dev, pending, leaked, b, data, t);
    BufSurvives(t, blocks, dev, b, i);
  }

  lemma BufSurvives(t: Lru, blocks: Disk, dev: nat, b: nat, i: nat)
    requires LruOk(t) && i < NBUF && t.bufs[i].Is(dev, b) && t.bufs[i].valid && !t.bufs[i].locked
    requires dev != 0 && b < |blocks| && NBUF < |blocks|
    ensures Survives(t, blocks, dev, b, t.bufs[i].data) <==> t.bufs[i].refcnt != 0 || t.bufs[i].data == blocks[b]
  {
    if t.bufs[i].refcnt != 0 {
      KeptSurvives(t, blocks, dev, b, i, t.bufs[i]);
    } else if t.bufs[i].data == blocks[b] {
      CleanSurvives(t, blocks, dev, b);
    } else {
      var cs := Evicted(t, blocks, dev, b, i);
    }
  }
}

/**
 The buffer cache: NBUF buffers on a doubly linked list kept in order of use, with
 index NBUF standing for the list head.
 A predicate that a method only hands on is written `P == true`, so that it is handed on unopened.
 */
module BufferCache {
  import opened Basics
  import opened Bytes
  import opened RedoLog

  const NBUF := MAXOPBLOCKS * 3
  const HEAD := NBUF

  datatype Buf = Buf(valid: bool, dev: nat, blockno: nat, refcnt: Word, locked: bool, data: Block) {
    predicate Is(d: nat, b: nat) { dev == d && blockno == b }
  }

  /* The linked list. */

  predicate Distinct(s: seq<nat>) {
    forall i, j :: 0 <= i < j < |s| ==> s[i] != s[j]
  }

  /** The head, the buffers in order of use, and the head again. */
  function Ring(order: seq<nat>): seq<nat> { [HEAD] + order + [HEAD] }

  /** next and prev link exactly the buffers of order, in both directions. */
  predicate Linked(next: seq<nat>, prev: seq<nat>, order: seq<nat>) {
    && |next| == NBUF + 1 && |prev| == NBUF + 1
    && Distinct(order)
    && (forall i :: 0 <= i < |order| ==> order[i] < NBUF)
    && forall i :: 0 <= i <= |order| ==>
        next[Ring(order)[i]] == Ring(order)[i+1] && prev[Ring(order)[i+1]] == Ring(order)[i]
  }

  /** b->next->prev = b->prev; b->prev->next = b->next */
  function UnlinkNext(next: seq<nat>, prev: seq<nat>, b: nat): seq<nat>
    requires |next| == |prev| == NBUF + 1 && b < NBUF && prev[b] <= NBUF
  {
    next[prev[b] := next[b]]
  }

  function UnlinkPrev(next: seq<nat>, prev: seq<nat>, b: nat): seq<nat>
    requires |next| == |prev| == NBUF + 1 && b < NBUF && next[b] <= NBUF
  {
    prev[next[b] := prev[b]]
  }

  /** b->next = head.next; b->prev = head; head.next->prev = b; head.next = b */
  function PushNext(next: seq<nat>, b: nat): seq<nat>
    requires |next| == NBUF + 1 && b < NBUF
  {
    next[b := next[HEAD]][HEAD := b]
  }

  function PushPrev(next: seq<nat>, prev: seq<nat>, b: nat): seq<nat>
    requires |next| == |prev| == NBUF + 1 && b < NBUF && next[HEAD] <= NBUF
  {
    prev[b := HEAD][next[HEAD] := b]
  }

  function Without(order: seq<nat>, p: nat): seq<nat>
    requires p < |order|
  {
    order[..p] + order[p+1..]
  }

  lemma LinkedAt(next: seq<nat>, prev: seq<nat>, order: seq<nat>, p: nat)
    requires Linked(next, prev, order) && p < |order|
    ensures next[order[p]] == Ring(order)[p+2] <= NBUF
    ensures prev[order[p]] == Ring(order)[p] <= NBUF
  {
    assert Ring(order)[p+1] == order[p];
  }

  lemma RingDistinct(order: seq<nat>, i: nat, j: nat)
    requires Distinct(order) && forall k :: 0 <= k < |order| ==> order[k] < NBUF
    requires i <= |order| && j <= |order| && i != j
    ensures Ring(order)[i] != Ring(order)[j] && Ring(order)[i+1] != Ring(order)[j+1]
  {}

  lemma UnlinkKeeps(next: seq<nat>, prev: seq<nat>, order: seq<nat>, p: nat)
    requires Linked(next, prev, order) && p < |order|
    ensures prev[order[p]] <= NBUF && next[order[p]] <= NBUF
    ensures Linked(UnlinkNext(next, prev, order[p]), UnlinkPrev(next, prev, order[p]), Without(order, p))
  {
    LinkedAt(next, prev, order, p);
    var b, rest := order[p], Without(order, p);
    var next', prev' := UnlinkNext(next, prev, b), UnlinkPrev(next, prev, b);
    forall i | 0 <= i <= |rest|
      ensures next'[Ring(rest)[i]] == Ring(rest)[i+1] && prev'[Ring(rest)[i+1]] == Ring(rest)[i]
    {
      if i < p {
        RingDistinct(order, i, p);
      } else if i > p {
        RingDistinct(order, i + 1, p);
        RingDistinct(order, i + 1, p + 1);
      }
    }
  }

  lemma PushKeeps(next: seq<nat>, prev: seq<nat>, order: seq<nat>, b: nat)
    requires Linked(next, prev, order) && b < NBUF && b !in order
    ensures next[HEAD] <= NBUF
    ensures Linked(PushNext(next, b), PushPrev(next, prev, b), [b] + order)
  {
    var first := Ring(order)[1];
    assert Ring(order)[0] == HEAD && next[HEAD] == first && first != b;
    var next', prev', order' := PushNext(next, b), PushPrev(next, prev, b), [b] + order;
    forall i | 0 <= i <= |order'|
      ensures next'[Ring(order')[i]] == Ring(order')[i+1] && prev'[Ring(order')[i+1]] == Ring(order')[i]
    {
      if i >= 2 {
        assert Ring(order')[i] == Ring(order)[i-1] && Ring(order')[i+1] == Ring(order)[i];
        RingDistinct(order, i - 1, 0);
      }
    }
  }

  /* Searching. */

  /** First match from the most recently used end. */
  function Find(bufs: seq<Buf>, order: seq<nat>, dev: nat, blockno: nat): (r: Option<nat>)
    requires forall i :: 0 <= i < |order| ==> order[i] < |bufs|
    ensures r.Some? ==> r.value in order && bufs[r.value].Is(dev, blockno)
    ensures r.None? ==> forall b :: b in order ==> !bufs[b].Is(dev, blockno)
  {
    if order == [] then None
    else if bufs[order[0]].Is(dev, blockno) then Some(order[0])
    else Find(bufs, order[1..], dev, blockno)
  }

  /** First unused buffer from the least recently used end. */
  function Victim(bufs: seq<Buf>, order: seq<nat>): (r: Option<nat>)
    requires forall i :: 0 <= i < |order| ==> order[i] < |bufs|
    ensures r.Some? ==> r.value in order && bufs[r.value].refcnt == 0
    ensures r.None? ==> forall b :: b in order ==> bufs[b].refcnt != 0
  {
    if order == [] then None
    else
      var b := order[|order|-1];
      if bufs[b].refcnt == 0 then Some(b) else Victim(bufs, order[..|order|-1])
  }

  function Inc(r: Word): Word { (r + 1) % WORD_LIMIT }
  function Dec(r: Word): Word { (r - 1) % WORD_LIMIT }

  const FRESH_BUF := Buf(false, 0, 0, 0, false, ZeroBlock())

  /** The buffer bread leaves behind in place of was. */
  function Loaded(was: Buf, blocks: Disk, dev: nat, blockno: nat): Buf
    requires blockno < |blocks|
  {
    if was.Is(dev, blockno)
    then was.(refcnt := Inc(was.refcnt), locked := true, valid := true,
              data := if was.valid then was.data else blocks[blockno])
    else Buf(true, dev, blockno, 1, true, blocks[blockno])
  }

  /** Every buffer is on the list. */
  predicate Covers(order: seq<nat>) {
    |order| == NBUF && forall b :: 0 <= b < NBUF ==> b in order
  }

  /** The order with b moved to its front. */
  function Front(order: seq<nat>, b: nat): seq<nat>
    requires b in order
  {
    [b] + Without(order, IndexOf(order, b))
  }

  lemma FrontCovers(order: seq<nat>, b: nat)
    requires Covers(order) && b < NBUF
    ensures Covers(Front(order, b))
  {
    var p, front := IndexOf(order, b), Front(order, b);
    forall c | 0 <= c < NBUF ensures c in front {
      assert c in order;
      var i :| 0 <= i < NBUF && order[i] == c;
      assert i == p ==> front[0] == c;
      assert i < p ==> front[i+1] == c;
      assert i > p ==> front[i] == c;
    }
  }

  /** At most one buffer per block of a real (nonzero) device. */
  predicate Unique(bufs: seq<Buf>) {
    forall i, j :: 0 <= i < j < |bufs| && bufs[i].dev != 0 ==> !bufs[j].Is(bufs[i].dev, bufs[i].blockno)
  }

  /**
   Who accounts for a buffer's reference count: processes between bget's search and acquiresleep,
   processes between releasesleep and the decrement in brelse, and log pins less unpins.
   */
  datatype Use = Use(waiting: nat, leaving: nat, pins: int)

  function Count(b: Buf, u: Use): int {
    u.waiting + u.leaving + u.pins + if b.locked then 1 else 0
  }

  /** The law of reference counts, in the arithmetic of an unsigned 32-bit counter. */
  predicate Counted(bufs: seq<Buf>, use: seq<Use>) {
    |bufs| == |use| && forall i :: 0 <= i < |bufs| ==> bufs[i].refcnt == Count(bufs[i], use[i]) % WORD_LIMIT
  }

  /** The buffers and their order of use. */
  datatype Lru = Lru(bufs: seq<Buf>, order: seq<nat>)

  predicate LruOk(l: Lru) {
    && |l.bufs| == NBUF && Covers(l.order) && Distinct(l.order) && Unique(l.bufs)
    && forall i :: 0 <= i < |l.order| ==> l.order[i] < NBUF
  }

  /* Calls that bread a block and brelse it again, as functions of the buffers and their order of use. */

  /** The buffer bget picks; None is its panic. */
  function Pick(l: Lru, dev: nat, b: nat): (r: Option<nat>)
    requires LruOk(l)
    ensures r.Some? ==> r.value < NBUF && (l.bufs[r.value].Is(dev, b) || l.bufs[r.value].refcnt == 0)
  {
    match Find(l.bufs, l.order, dev, b)
    case Some(i) => Some(i)
    case None => Victim(l.bufs, l.order)
  }

  /** brelse of buffer i, which holds x. */
  function Released(l: Lru, i: nat, x: Buf): Lru
    requires i < |l.bufs| && i in l.order
  {
    var y := x.(locked := false, refcnt := Dec(x.refcnt));
    Lru(l.bufs[i := y], if y.refcnt == 0 then Front(l.order, i) else l.order)
  }

  /** bread; change what the buffer holds to store, if anything; bpin it, if so asked; brelse. */
  function Touched(l: Lru, blocks: Disk, dev: nat, b: nat, store: Option<Block>, pin: bool): Option<Lru>
    requires LruOk(l) && b < |blocks|
  {
    match Pick(l, dev, b)
    case None => None
    case Some(i) =>
      var x := Loaded(l.bufs[i], blocks, dev, b);
      var y := if store.Some? then x.(data := store.value) else x;
      Some(Released(l, i, if pin then y.(refcnt := Inc(y.refcnt)) else y))
  }

  /** What bread shows its caller. */
  function Seen(l: Lru, blocks: Disk, dev: nat, b: nat): Option<Block>
    requires LruOk(l) && b < |blocks|
  {
    match Pick(l, dev, b)
    case None => None
    case Some(i) => Some(Loaded(l.bufs[i], blocks, dev, b).data)
  }

  /** The disk: its blocks, and every write it has received in order. */
  class Device {
    var blocks: Disk
    ghost var trace: seq<Write>

    constructor (blocks: Disk)
      ensures this.blocks == blocks && trace == []
    {
      this.blocks := blocks;
      trace := [];
    }

    method WriteBlock(b: nat, data: Block)
      requires b < |blocks|
      modifies this
      ensures blocks == old(blocks)[b := data]
      ensures trace == old(trace) + [Write(b, data)]
    {
      blocks := blocks[b := data];
      trace := trace + [Write(b, data)];
    }
  }

  class Cache {
    const device: Device
    var bufs: seq<Buf>
    var next: seq<nat>
    var prev: seq<nat>
    ghost var order: seq<nat>
    ghost var use: seq<Use>

    ghost predicate Valid()
      reads this
    {
      && |bufs| == NBUF
      && Linked(next, prev, order) && Covers(order)
      && Unique(bufs)
      && Counted(bufs, use)
    }

    ghost function Used(): Lru
      reads this
    {
      Lru(bufs, order)
    }

    /** binit: every buffer is unused, unlocked and belongs to block 0 of device 0. */
    constructor Binit(device: Device)
      ensures Valid() == true && this.device == device
      ensures bufs == seq(NBUF, _ => FRESH_BUF) && use == seq(NBUF, _ => Use(0, 0, 0))
    {
      this.device := device;
      bufs := seq(NBUF, _ => FRESH_BUF);
      use := seq(NBUF, _ => Use(0, 0, 0));
      next := seq(NBUF + 1, _ => HEAD);
      prev := seq(NBUF + 1, _ => HEAD);
      order := [];
      new;
      var b := 0;
      while b < NBUF
        invariant 0 <= b <= NBUF && |order| == b
        invariant forall k :: 0 <= k < NBUF ==> (k in order <==> k < b)
        invariant Linked(next, prev, order)
        invariant bufs == seq(NBUF, _ => FRESH_BUF) && use == seq(NBUF, _ => Use(0, 0, 0))
      {
        PushKeeps(next, prev, order, b);
        next, prev := PushNext(next, b), PushPrev(next, prev, b);
        order := [b] + order;
        b := b + 1;
      }
    }

    /** bget's first loop, from head.next along next. */
    method Search(dev: nat, blockno: nat) returns (r: Option<nat>)
      requires Valid()
      ensures r == Find(bufs, order, dev, blockno)
    {
      assert Ring(order)[0] == HEAD && order[0..] == order;
      var b := next[HEAD];
      ghost var p := 0;
      while b != HEAD
        invariant 0 <= p <= |order| && b == Ring(order)[p+1]
        invariant Find(bufs, order, dev, blockno) == Find(bufs, order[p..], dev, blockno)
        decreases |order| - p
      {
        assert order[p..][0] == b && order[p..][1..] == order[p+1..];
        if bufs[b].dev == dev && bufs[b].blockno == blockno {
          return Some(b);
        }
        LinkedAt(next, prev, order, p);
        b, p := next[b], p + 1;
      }
      return None;
    }

    /** bget's second loop, from head.prev along prev. */
    method LeastRecentlyUnused() returns (r: Option<nat>)
      requires Valid()
      ensures r == Victim(bufs, order)
    {
      assert Ring(order)[|order|+1] == HEAD && order[..|order|] == order;
      var b := prev[HEAD];
      ghost var p := |order|;
      while b != HEAD
        invariant 0 <= p <= |order| && b == Ring(order)[p]
        invariant Victim(bufs, order) == Victim(bufs, order[..p])
        decreases p
      {
        assert order[..p][p-1] == b && order[..p][..p-1] == order[..p-1];
        if bufs[b].refcnt == 0 {
          return Some(b);
        }
        LinkedAt(next, prev, order, p - 1);
        b, p := prev[b], p - 1;
      }
      return None;
    }

    /** bget up to the release of bcache.lock; None is its panic. */
    method Lookup(dev: nat, blockno: nat) returns (r: Option<nat>)
      requires Valid() && dev != 0
      modifies this`bufs, this`use
      ensures Valid() == true
      ensures r == match Find(old(bufs), order, dev, blockno)
                   case Some(b) => Some(b)
                   case None => Victim(old(bufs), order)
      ensures r.None? ==> bufs == old(bufs) && use == old(use)
      ensures r.Some? ==>
                && r.value < NBUF
                && use == old(use)[r.value := old(use)[r.value].(waiting := old(use)[r.value].waiting + 1)]
                && var was := old(bufs)[r.value];
                   bufs == old(bufs)[r.value :=
                     if was.Is(dev, blockno) then was.(refcnt := Inc(was.refcnt))
                     else Buf(false, dev, blockno, 1, was.locked, was.data)]
    {
      r := Search(dev, blockno);
      if r.Some? {
        TakeRef(r.value);
        return;
      }
      r := LeastRecentlyUnused();
      if r.Some? {
        Recycle(r.value, dev, blockno);
      }
    }

    /** b->refcnt++ on behalf of a process about to lock b. */
    method TakeRef(b: nat)
      requires Valid() && b < NBUF
      modifies this`bufs, this`use
      ensures Valid() == true
      ensures bufs == old(bufs)[b := old(bufs)[b].(refcnt := Inc(old(bufs)[b].refcnt))]
      ensures use == old(use)[b := old(use)[b].(waiting := old(use)[b].waiting + 1)]
    {
      bufs := bufs[b := bufs[b].(refcnt := Inc(bufs[b].refcnt))];
      use := use[b := use[b].(waiting := use[b].waiting + 1)];
    }

    method Recycle(b: nat, dev: nat, blockno: nat)
      requires Valid() && b < NBUF && bufs[b].refcnt == 0 && dev != 0
      requires forall i :: 0 <= i < NBUF ==> !bufs[i].Is(dev, blockno)
      modifies this`bufs, this`use
      ensures Valid() == true
      ensures bufs == old(bufs)[b := Buf(false, dev, blockno, 1, old(bufs)[b].locked, old(bufs)[b].data)]
      ensures use == old(use)[b := old(use)[b].(waiting := old(use)[b].waiting + 1)]
    {
      bufs := bufs[b := bufs[b].(dev := dev, blockno := blockno, valid := false, refcnt := 1)];
      use := use[b := use[b].(waiting := use[b].waiting + 1)];
    }

    /** The end of acquiresleep, once the buffer's lock is free. */
    method LockBuf(b: nat)
      requires Valid() && b < NBUF && !bufs[b].locked && use[b].waiting > 0
      modifies this`bufs, this`use
      ensures Valid() == true
      ensures bufs == old(bufs)[b := old(bufs)[b].(locked := true)]
      ensures use == old(use)[b := old(use)[b].(waiting := old(use)[b].waiting - 1)]
    {
      bufs := bufs[b := bufs[b].(locked := true)];
      use := use[b := use[b].(waiting := use[b].waiting - 1)];
    }

    /** bread's last part: fetch the block unless the buffer already holds it. */
    method Fill(b: nat)
      requires Valid() && b < NBUF && bufs[b].locked && bufs[b].blockno < |device.blocks|
      modifies this`bufs
      ensures Valid() == true
      ensures bufs == old(bufs)[b := old(bufs)[b].(valid := true,
                data := if old(bufs)[b].valid then old(bufs)[b].data else device.blocks[old(bufs)[b].blockno])]
    {
      if !bufs[b].valid {
        bufs := bufs[b := bufs[b].(data := device.blocks[bufs[b].blockno])];
        bufs := bufs[b := bufs[b].(valid := true)];
      }
    }

    /** The holder of b changes b->data. */
    method Store(b: nat, data: Block)
      requires Valid() == true && |bufs| == NBUF && b < NBUF && bufs[b].locked
      modifies this`bufs
      ensures Valid() == true
      ensures bufs == old(bufs)[b := old(bufs)[b].(data := data)]
    {
      bufs := bufs[b := bufs[b].(data := data)];
    }

    method Bwrite(b: nat)
      requires Valid() && b < NBUF && bufs[b].locked && bufs[b].blockno < |device.blocks|
      modifies device
      ensures device.blocks == old(device.blocks)[bufs[b].blockno := bufs[b].data]
      ensures device.trace == old(device.trace) + [Write(bufs[b].blockno, bufs[b].data)]
    {
      device.WriteBlock(bufs[b].blockno, bufs[b].data);
    }

    /** releasesleep, the first half of brelse. */
    method Unlock(b: nat)
      requires Valid() && b < NBUF && bufs[b].locked
      modifies this`bufs, this`use
      ensures Valid() == true
      ensures bufs == old(bufs)[b := old(bufs)[b].(locked := false)]
      ensures use == old(use)[b := old(use)[b].(leaving := old(use)[b].leaving + 1)]
    {
      bufs := bufs[b := bufs[b].(locked := false)];
      use := use[b := use[b].(leaving := use[b].leaving + 1)];
    }

    /** The second half of brelse: drop the reference; an unused buffer becomes the most recently used. */
    method Drop(b: nat)
      requires Valid() && b < NBUF && use[b].leaving > 0
      modifies this
      ensures Valid() == true
      ensures bufs == old(bufs)[b := old(bufs)[b].(refcnt := Dec(old(bufs)[b].refcnt))]
      ensures use == old(use)[b := old(use)[b].(leaving := old(use)[b].leaving - 1)]
      ensures order == if bufs[b].refcnt == 0 then Front(old(order), b) else old(order)
    {
      bufs := bufs[b := bufs[b].(refcnt := Dec(bufs[b].refcnt))];
      use := use[b := use[b].(leaving := use[b].leaving - 1)];
      if bufs[b].refcnt == 0 {
        MoveToFront(b);
      }
    }

    method MoveToFront(b: nat)
      requires Valid() && b < NBUF
      modifies this`next, this`prev, this`order
      ensures Valid() == true
      ensures order == Front(old(order), b)
    {
      ghost var p := IndexOf(order, b);
      FrontCovers(order, b);
      ghost var rest := Without(order, p);
      UnlinkKeeps(next, prev, order, p);
      next, prev := UnlinkNext(next, prev, b), UnlinkPrev(next, prev, b);
      PushKeeps(next, prev, rest, b);
      next, prev := PushNext(next, b), PushPrev(next, prev, b);
      order := [b] + rest;
    }

    method Bpin(b: nat)
      requires Valid() && b < NBUF
      modifies this`bufs, this`use
      ensures Valid() == true
      ensures bufs == old(bufs)[b := old(bufs)[b].(refcnt := Inc(old(bufs)[b].refcnt))]
      ensures use == old(use)[b := old(use)[b].(pins := old(use)[b].pins + 1)]
    {
      bufs := bufs[b := bufs[b].(refcnt := Inc(bufs[b].refcnt))];
      use := use[b := use[b].(pins := use[b].pins + 1)];
    }

    method Bunpin(b: nat)
      requires Valid() && b < NBUF
      modifies this`bufs, this`use
      ensures Valid() == true
      ensures bufs == old(bufs)[b := old(bufs)[b].(refcnt := Dec(old(bufs)[b].refcnt))]
      ensures use == old(use)[b := old(use)[b].(pins := old(use)[b].pins - 1)]
    {
      bufs := bufs[b := bufs[b].(refcnt := Dec(bufs[b].refcnt))];
      use := use[b := use[b].(pins := use[b].pins - 1)];
    }

    /** bread by a process that finds the buffer's lock free. */
    method Bread(dev: nat, blockno: nat) returns (r: Option<nat>)
      requires Valid() == true && |bufs| == NBUF && dev != 0 && blockno < |device.blocks|
      requires forall i :: 0 <= i < NBUF && (bufs[i].Is(dev, blockno) || bufs[i].refcnt == 0) ==> !bufs[i].locked
      modifies this`bufs, this`use
      ensures Valid() == true && use == old(use)
      ensures r == match Find(old(bufs), order, dev, blockno)
                   case Some(b) => Some(b)
                   case None => Victim(old(bufs), order)
      ensures r.None? ==> bufs == old(bufs)
      ensures r.Some? ==>
                && r.value < NBUF
                && bufs == old(bufs)[r.value := Loaded(old(bufs)[r.value], device.blocks, dev, blockno)]
    {
      ghost var was, uses := bufs, use;
      r := Lookup(dev, blockno);
      if r.Some? {
        var b := r.value;
        LockBuf(b);
        assert use == uses;
        Fill(b);
        assert bufs[b] == Loaded(was[b], device.blocks, dev, blockno);
      }
    }

    lemma ValidLru()
      requires Valid()
      ensures LruOk(Used()) == true
    {}

    /** bread and brelse by one process while nobody holds the buffer; None is the panic of bget. */
    method ReadOnce(dev: nat, blockno: nat) returns (r: Option<Block>)
      requires Valid() && dev != 0 && blockno < |device.blocks|
      requires forall i :: 0 <= i < NBUF && (bufs[i].Is(dev, blockno) || bufs[i].refcnt == 0) ==> !bufs[i].locked
      modifies this
      ensures Valid() == true && use == old(use)
      ensures LruOk(old(Used())) == true && r == Seen(old(Used()), device.blocks, dev, blockno)
      ensures r.None? ==> bufs == old(bufs)
      ensures r.Some? ==> Touched(old(Used()), device.blocks, dev, blockno, None, false) == Some(Used())
    {
      ghost var was := Used();
      ValidLru();
      var b := Bread(dev, blockno);
      if b.None? { return None; }
      r := Some(bufs[b.value].data);
      ReleasedHeld(was, b.value, bufs[b.value], bufs[b.value]);
      Brelse(b.value);
    }

    method Brelse(b: nat)
      requires Valid() == true && |bufs| == NBUF && b < NBUF && bufs[b].locked
      modifies this
      ensures Valid() == true && use == old(use)
      ensures bufs == old(bufs)[b := old(bufs)[b].(locked := false, refcnt := Dec(old(bufs)[b].refcnt))]
      ensures b in old(order) && Used() == Released(old(Used()), b, old(bufs)[b])
    {
      Unlock(b);
      Drop(b);
    }
  }

  /** A change to the buffer before brelse is a change of what is released. */
  lemma ReleasedHeld(l: Lru, i: nat, x: Buf, y: Buf)
    requires i < |l.bufs| && i in l.order
    ensures Released(Lru(l.bufs[i := x], l.order), i, y) == Released(l, i, y)
  {
    var z := y.(locked := false, refcnt := Dec(y.refcnt));
    assert l.bufs[i := x][i := z] == l.bufs[i := z];
  }

  lemma LoadedUnique(bufs: seq<Buf>, dev: nat, b: nat, i: nat, y: Buf)
    requires Unique(bufs) && i < |bufs| && y.Is(dev, b)
    requires bufs[i].Is(dev, b) || forall j :: 0 <= j < |bufs| ==> !bufs[j].Is(dev, b)
    ensures Unique(bufs[i := y])
  {}

  lemma FrontDistinct(order: seq<nat>, b: nat)
    requires Distinct(order) && b in order
    ensures Distinct(Front(order, b)) && forall x :: x in Front(order, b) ==> x in order
  {}

  /** Pick finds the block's own buffer if there is one. */
  lemma PickOwn(l: Lru, dev: nat, b: nat)
    requires LruOk(l)
    ensures var r := Pick(l, dev, b);
      r.Some? && !l.bufs[r.value].Is(dev, b) ==> forall j :: 0 <= j < NBUF ==> !l.bufs[j].Is(dev, b)
  {}

  lemma TouchedOk(l: Lru, blocks: Disk, dev: nat, b: nat, store: Option<Block>, pin: bool)
    requires LruOk(l) && b < |blocks| && Touched(l, blocks, dev, b, store, pin).Some?
    ensures LruOk(Touched(l, blocks, dev, b, store, pin).value)
  {
    var t, i := Touched(l, blocks, dev, b, store, pin).value, Pick(l, dev, b).value;
    PickOwn(l, dev, b);
    LoadedUnique(l.bufs, dev, b, i, t.bufs[i]);
    FrontCovers(l.order, i);
    FrontDistinct(l.order, i);
    forall j | 0 <= j < |t.order| ensures t.order[j] < NBUF {
      assert t.order[j] in l.order;
    }
  }

  /* What the order means. */

  /** when[b] is the time at which buffer b was last given up by its last user; the order is the latest first. */
  predicate ByTime(order: seq<nat>, when: seq<nat>) {
    && |when| == NBUF && (forall i :: 0 <= i < |order| ==> order[i] < NBUF)
    && forall i, j :: 0 <= i < j < |order| ==> when[order[i]] > when[order[j]]
  }

  lemma FrontByTime(order: seq<nat>, when: seq<nat>, b: nat, now: nat)
    requires ByTime(order, when) && b in order && forall c :: 0 <= c < NBUF ==> when[c] < now
    ensures ByTime(Front(order, b), when[b := now])
  {
    var p := IndexOf(order, b);
    var rest := Without(order, p);
    forall i, j | 0 <= i < j < |rest| ensures rest[i] < NBUF && rest[j] < NBUF && when[rest[i]] > when[rest[j]] {}
    forall i | 0 <= i < |rest| ensures rest[i] != b && rest[i] < NBUF {
      var x := if i < p then i else i + 1;
      assert rest[i] == order[x] && order[p] == b;
      assert x < p ==> when[order[x]] > when[order[p]];
      assert p < x ==> when[order[p]] > when[order[x]];
    }
  }

  /** brelse keeps the order by time, with the time that it gives up the last reference. */
  lemma ReleasedByTime(l: Lru, i: nat, x: Buf, when: seq<nat>, now: nat)
    requires LruOk(l) && ByTime(l.order, when) && i < NBUF && i in l.order
    requires forall c :: 0 <= c < NBUF ==> when[c] < now
    ensures ByTime(Released(l, i, x).order, if x.refcnt == 1 then when[i := now] else when)
  {
    FrontByTime(l.order, when, i, now);
  }

  lemma {:induction false} VictimIs(bufs: seq<Buf>, order: seq<nat>, when: seq<nat>, u: nat)
    requires |bufs| == NBUF && ByTime(order, when) && u in order && bufs[u].refcnt == 0
    ensures Victim(bufs, order).Some? && when[Victim(bufs, order).value] <= when[u]
  {
    var n := |order| - 1;
    var p :| 0 <= p <= n && order[p] == u;
    if bufs[order[n]].refcnt == 0 {
      assert p < n ==> when[order[p]] > when[order[n]];
    } else {
      assert order[..n][p] == u;
      VictimIs(bufs, order[..n], when, u);
    }
  }

  /** bget gives a cached block its own buffer; any other takes the unused buffer that was given up first. */
  lemma PickLeastRecent(l: Lru, dev: nat, b: nat, when: seq<nat>, u: nat)
    requires LruOk(l) && ByTime(l.order, when) && u < NBUF && dev != 0
    ensures l.bufs[u].Is(dev, b) ==> Pick(l, dev, b) == Some(u)
    ensures l.bufs[u].refcnt == 0 ==> Pick(l, dev, b).Some?
    ensures l.bufs[u].refcnt == 0 && !l.bufs[Pick(l, dev, b).value].Is(dev, b) ==>
      l.bufs[Pick(l, dev, b).value].refcnt == 0 && when[Pick(l, dev, b).value] <= when[u]
  {
    assert u in l.order;
    if l.bufs[u].refcnt == 0 { VictimIs(l.bufs, l.order, when, u); }
  }
}

/**
 Booting from a disk and running transactions on it.
 A predicate that a method only hands on is written `P == true`, so that it is handed on unopened.
 */
module Boot {
  import opened Basics
  import opened Bytes
  import opened RedoLog
  import opened BufferCache
  import opened Log
  import opened Pins

  /** A block and what it is to hold. */
  datatype Change = Change(b: nat, data: Block)

  /** What is pending after the changes cs, the last of them first to be seen. */
  ghost function Changed(cs: seq<Change>): Pending {
    if cs == [] then map[] else Changed(cs[..|cs| - 1])[cs[|cs| - 1].b := cs[|cs| - 1].data]
  }

  /** The header after the changes cs: each block once, in order of its first change. */
  ghost function Homes(cs: seq<Change>): (r: seq<nat>)
    ensures |r| <= |cs|
  {
    if cs == [] then [] else Listed(Homes(cs[..|cs| - 1]), cs[|cs| - 1].b)
  }

  lemma ChangedNext(cs: seq<Change>, c: Change)
    ensures Changed(cs + [c]) == Changed(cs)[c.b := c.data] && Homes(cs + [c]) == Listed(Homes(cs), c.b)
  {
    assert (cs + [c])[..|cs|] == cs;
  }

  ghost predicate Changeable(c: Change, size: nat, a: Area, leaked: set<nat>) {
    c.b < size && !a.Holds(c.b) && c.b !in leaked
  }

  /** Between calls the cache is coherent, and there is a buffer to be had for any block. */
  lemma PickSome(log: TxLog, b: nat)
    requires log.Valid() == true && NoneLocked(log.cache.bufs) == true && log.n + |log.tx.leaked| < NBUF
    ensures |log.cache.bufs| == NBUF && log.dev != 0 && Counted(log.cache.bufs, log.cache.use) == true
    ensures forall i :: 0 <= i < NBUF && log.cache.bufs[i].Is(log.dev, b) ==> !log.cache.bufs[i].locked
    ensures Coherent(log.cache.bufs, log.cache.use, log.cache.device.blocks, log.dev, log.tx.pending, log.tx.leaked)
         == true
    ensures LruOk(log.cache.Used()) == true && Pick(log.cache.Used(), log.dev, b).Some?
  {
    ElemsSize(log.block[..log.n]);
    log.GetAvailable(b, {});
    log.cache.ValidLru();
    if Cached(log.cache.bufs, log.dev, b) {
      var i :| 0 <= i < NBUF && log.cache.bufs[i].Is(log.dev, b);
      assert i in log.cache.order;
    } else {
      var i :| 0 <= i < NBUF && log.cache.bufs[i].refcnt == 0;
      assert i in log.cache.order;
    }
  }

  /** The first update of a transaction: it outlives other reads exactly when recovery did not install its block. */
  method UpdateFirst(log: TxLog, b: nat, data: Block)
    requires log.Valid() == true && NoneLocked(log.cache.bufs) == true && log.n == 0 && log.tx.pending == map[]
    requires |log.tx.leaked| < NBUF && log.outstanding >= 1 && 1 < log.area.size
    requires b < |log.cache.device.blocks| && !log.area.Holds(b) && NBUF < |log.cache.device.blocks|
    modifies log`n, log`block, log`tx, log.cache
    ensures log.n <= |log.block| && log.block[..log.n] == [b] && LruOk(log.cache.Used()) == true
    ensures Survives(log.cache.Used(), log.cache.device.blocks, log.dev, b, data) <==>
              b !in log.tx.leaked || data == log.cache.device.blocks[b]
    ensures b !in log.tx.leaked ==> log.Valid() == true
    ensures log.tx == Tx(map[b := data], old(log.tx.leaked))
  {
    PickSome(log, b);
    ghost var l, use, tx := log.cache.Used(), log.cache.use, log.tx;
    var ok := log.UpdateBlock(b, data);
    UpdateSurvives(l, use, log.cache.device.blocks, log.dev, tx.pending, tx.leaked, b, data, log.cache.Used());
  }

  /**
   Boot, begin_op, then bread, a change, log_write and brelse of block b. The transaction lists b in any case. Later
   reads show the change until commit, whatever is read in between, exactly when the header on disk did not list b
   at boot (or the change is none).
   */
  method BootUpdate(device: Device, dev: nat, area: Area, b: nat, data: Block) returns (log: TxLog)
    requires dev != 0 && LogOk(device.blocks, area) && |OnDiskEntries(device.blocks, area)| < NBUF
    requires b < |device.blocks| && !area.Holds(b) && 1 < area.size && NBUF < |device.blocks|
    modifies device
    ensures fresh(log) && fresh(log.cache) && log.cache.device == device && |device.blocks| == |old(device.blocks)|
    ensures log.n <= |log.block| && log.block[..log.n] == [b]
    ensures forall c :: 0 <= c < |device.blocks| && !area.Holds(c) ==>
      device.blocks[c] == Home(old(device.blocks), area, c)
    ensures LruOk(log.cache.Used()) == true
    ensures Survives(log.cache.Used(), device.blocks, dev, b, data) <==>
              b !in OnDiskEntries(old(device.blocks), area) || data == Home(old(device.blocks), area, b)
    ensures b !in OnDiskEntries(old(device.blocks), area) ==> log.Valid() == true && log.tx.pending == map[b := data]
  {
    ElemsSize(OnDiskEntries(device.blocks, area));
    log := Mount(device, dev, area);
    var ok := log.BeginOp();
    UpdateFirst(log, b, data);
  }

  lemma TouchedUnlocked(l: Lru, blocks: Disk, dev: nat, b: nat, store: Option<Block>, pin: bool, t: Lru)
    requires LruOk(l) == true && b < |blocks| && Touched(l, blocks, dev, b, store, pin) == Some(t) && NoneLocked(l.bufs)
    ensures NoneLocked(t.bufs) == true
  {}

  /** The transaction so far: the changes cs are pending, and nothing is on disk. */
  ghost predicate Doing(log: TxLog, cs: seq<Change>, leaked: set<nat>)
    reads log, log.cache, log.cache.device
  {
    && log.Valid() == true && NoneLocked(log.cache.bufs) == true && log.outstanding == 1 && !log.committing
    && log.n <= |log.block| && log.block[..log.n] == Homes(cs) && log.tx == Tx(Changed(cs), leaked)
  }

  /** An update between other calls leaves no buffer locked. */
  method Update(log: TxLog, b: nat, data: Block)
    requires log.Valid() == true && NoneLocked(log.cache.bufs) == true && log.outstanding >= 1
    requires log.n < LOGSIZE && log.n + 1 < log.area.size && log.n + |log.tx.leaked| < NBUF && log.n <= |log.block|
    requires b < |log.cache.device.blocks| && !log.area.Holds(b) && b !in log.tx.leaked
    modifies log`n, log`block, log`tx, log.cache
    ensures log.Valid() == true && NoneLocked(log.cache.bufs) == true
    ensures log.n <= |log.block| && log.block[..log.n] == Listed(old(log.block[..log.n]), b)
    ensures log.tx == Tx(old(log.tx.pending)[b := data], old(log.tx.leaked))
  {
    ghost var l, blocks, dev, pin := log.cache.Used(), log.cache.device.blocks, log.dev, b !in log.tx.pending;
    PickSome(log, b);
    var ok := log.UpdateBlock(b, data);
    TouchedUnlocked(l, blocks, dev, b, Some(data), pin, log.cache.Used());
  }

  method Do(log: TxLog, c: Change, ghost cs: seq<Change>, ghost leaked: set<nat>)
    requires Doing(log, cs, leaked) == true && Changeable(c, |log.cache.device.blocks|, log.area, leaked)
    requires |cs| < MAXOPBLOCKS && |cs| + |leaked| < NBUF && |cs| + 1 < log.area.size
    modifies log`n, log`block, log`tx, log.cache
    ensures Doing(log, cs + [c], leaked) == true
  {
    ChangedNext(cs, c);
    Update(log, c.b, c.data);
  }

  /**
   begin_op, an update for every change, end_op: one transaction. The disk ends with the changes in it, and its writes
   are those of CommitWrites in order, so that RedoLog.CrashAtomicity covers a crash at any point of it.
   */
  method Transact(log: TxLog, cs: seq<Change>)
    requires log.Valid() == true && NoneLocked(log.cache.bufs) == true && log.n == 0 && log.tx.pending == map[]
    requires log.outstanding == 0 && !log.committing && |cs| <= MAXOPBLOCKS && |cs| < log.area.size
    requires |cs| + |log.tx.leaked| < NBUF
    requires forall i :: 0 <= i < |cs| ==> Changeable(cs[i], |log.cache.device.blocks|, log.area, log.tx.leaked)
    modifies log, log.cache, log.cache.device
    ensures log.Valid() == true && NoneLocked(log.cache.bufs) == true && log.n == 0 && log.outstanding == 0
    ensures !log.committing && log.tx == Tx(map[], old(log.tx.leaked))
    ensures |log.cache.device.blocks| == |old(log.cache.device.blocks)|
    ensures forall b :: 0 <= b < |log.cache.device.blocks| && !log.area.Holds(b) ==>
              log.cache.device.blocks[b] == View(old(log.cache.device.blocks), Changed(cs), b)
    ensures Committable(|old(log.cache.device.blocks)|, log.area, Homes(cs), Changed(cs))
    ensures log.cache.device.trace == old(log.cache.device.trace)
              + CommitWrites(old(log.cache.device.blocks), log.area, Homes(cs), Changed(cs))
  {
    ghost var leaked := log.tx.leaked;
    var ok := log.BeginOp();
    var i := 0;
    assert cs[..0] == [];
    while i < |cs|
      invariant 0 <= i <= |cs| && Doing(log, cs[..i], leaked) == true
      invariant log.cache.device.blocks == old(log.cache.device.blocks)
      invariant log.cache.device.trace == old(log.cache.device.trace)
    {
      Do(log, cs[i], cs[..i], leaked);
      assert cs[..i] + [cs[i]] == cs[..i + 1];
      i := i + 1;
    }
    assert cs[..|cs|] == cs;
    log.EndOp();
  }
}

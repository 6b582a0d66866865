/**
 Files across a crash: the transactions of filewrite, written by the commits of the redo log, cut anywhere, recovered,
 and read again from the disk alone.
 A predicate that a lemma only hands on is written `P == true`, so that it is handed on unopened.
 */
module Durability {
  import opened Bytes
  import opened Layout
  import opened Files
  import opened RedoLog

  /* What a restart finds on a disk. */

  function TreeOn(d: Disk, ip: Inode): Tree
    requires InodeOk(ip)
  {
    Tree(seq(SLOTS, k requires 0 <= k < SLOTS =>
      if k <= NDIRECT then ip.addrs[k] else Entry(d, ip.addrs[NDIRECT], k)))
  }

  function InodesOn(sb: Super, d: Disk): seq<Inode>
    requires Shaped(sb, d)
  {
    seq(sb.ninodes, i requires 0 <= i < sb.ninodes => DiskInode(sb, d, i))
  }

  /** The inodes that ilock reads from d, and the addresses that bmap finds from there. */
  function Mounted(sb: Super, d: Disk, owner: map<nat, Slot>): Snap
    requires Shaped(sb, d)
  {
    var inode := InodesOn(sb, d);
    Snap(d, inode, seq(sb.ninodes, i requires 0 <= i < sb.ninodes => TreeOn(d, DiskInode(sb, d, i))), owner)
  }

  /** A restart on disk d finds a consistent file system with the files of s. */
  ghost predicate Restarted(sb: Super, d: Disk, s: Snap) {
    && Shaped(sb, d) && |s.inode| == sb.ninodes && Consistent(sb, Mounted(sb, d, s.owner))
    && forall i :: 0 <= i < sb.ninodes ==> Content(Mounted(sb, d, s.owner), i) == Content(s, i)
  }

  /** Disk d has the inode, bitmap and data blocks of the file layer. */
  ghost predicate Agrees(sb: Super, d: Disk, blocks: seq<Block>) {
    |d| == |blocks| == sb.size && forall b :: sb.inodestart <= b < sb.size ==> d[b] == blocks[b]
  }

  lemma SameInodes(sb: Super, s: Snap, d: Disk)
    requires Consistent(sb, s) && Agrees(sb, d, s.blocks)
    ensures InodesOn(sb, d) == s.inode
  {
    forall i | 0 <= i < sb.ninodes ensures DiskInode(sb, d, i) == s.inode[i] {
      assert DiskInode(sb, s.blocks, i) == s.inode[i];
      assert sb.inodestart <= InodeBlock(sb, i) < sb.size;
    }
  }

  lemma SameTree(sb: Super, s: Snap, d: Disk, i: nat)
    requires Core(sb, s) == true && Agrees(sb, d, s.blocks) == true && i < |s.inode|
    ensures i < |s.tree| && TreeOk(s.blocks, s.inode[i], s.tree[i]) && InodeOk(s.inode[i])
    ensures TreeOk(d, s.inode[i], s.tree[i]) && TreeOn(d, s.inode[i]) == s.tree[i]
  {
    var ip := s.inode[i];
    assert TreeOk(s.blocks, ip, s.tree[i]);
    assert s.tree[i].at[NDIRECT] == ip.addrs[NDIRECT];
    if ip.addrs[NDIRECT] != 0 { assert ip.addrs[NDIRECT] in s.owner; }
    forall k | NDIRECT < k < SLOTS ensures Entry(d, ip.addrs[NDIRECT], k) == s.tree[i].at[k] {
      assert Entry(s.blocks, ip.addrs[NDIRECT], k) == s.tree[i].at[k];
    }
    assert TreeOn(d, ip).at == s.tree[i].at;
  }

  lemma SameMount(sb: Super, s: Snap, d: Disk)
    requires Consistent(sb, s) == true && Agrees(sb, d, s.blocks) == true
    ensures Shaped(sb, d) && Mounted(sb, d, s.owner) == s.(blocks := d)
    ensures Core(sb, s.(blocks := d)) == true && Synced(sb, s.(blocks := d)) == true
  {
    SameInodes(sb, s, d);
    SameBitmap(sb, s.blocks, d, s.owner);
    forall i | 0 <= i < |s.inode|
      ensures i < |s.tree| && TreeOk(d, s.inode[i], s.tree[i]) && TreeOn(d, InodesOn(sb, d)[i]) == s.tree[i]
    {
      SameTree(sb, s, d, i);
    }
    assert Mounted(sb, d, s.owner).tree == s.tree;
  }

  lemma SameBytes(sb: Super, s: Snap, d: Disk, i: nat)
    requires Core(sb, s) == true && Agrees(sb, d, s.blocks) == true && i < |s.inode|
    ensures Content(s.(blocks := d), i) == Content(s, i)
  {
    var t := s.(blocks := d);
    forall x | 0 <= x < s.inode[i].size ensures ByteAt(t, i, x) == ByteAt(s, i, x) {
      if HasByte(s, i, x) { assert s.tree[i].at[DataSlot(x / BSIZE)] in s.owner; }
    }
  }

  /** The inode, bitmap and data blocks on the disk are all that a restart needs. */
  lemma Remount(sb: Super, s: Snap, d: Disk)
    requires Consistent(sb, s) == true && Agrees(sb, d, s.blocks) == true
    ensures Restarted(sb, d, s) == true
  {
    SameMount(sb, s, d);
    var t := s.(blocks := d);
    forall i, x | 0 <= i < |t.inode| && 0 <= x < t.inode[i].size ensures HasByte(t, i, x) {
      assert HasByte(s, i, x);
    }
    forall i | 0 <= i < sb.ninodes ensures Content(t, i) == Content(s, i) { SameBytes(sb, s, d, i); }
  }

  /* The commits of a sequence of transactions. */

  /** A header that lists the blocks l, each once. */
  ghost predicate Lists(h: seq<nat>, l: set<nat>) {
    |h| == |l| && (forall b :: b in h <==> b in l) && forall m :: 0 <= m < |h| ==> IndexOf(h, h[m]) == m
  }

  /** What commit writes for header h: the logged blocks as the transaction leaves them. */
  function Pending(h: seq<nat>, blocks: seq<Block>): Trans {
    Trans(h, map b | b in h && b < |blocks| :: blocks[b])
  }

  function Commits(hs: seq<seq<nat>>, ss: seq<Snap>): (ts: seq<Trans>)
    requires |ss| == |hs| + 1
    ensures |ts| == |hs|
  {
    seq(|hs|, m requires 0 <= m < |hs| => Pending(hs[m], ss[m + 1].blocks))
  }

  /** The log lies below the inodes and has room for what one write logs. */
  predicate LogFits(sb: Super, a: Area) {
    && SuperOk(sb) && 1 <= a.size && a.start + a.size <= sb.inodestart
    && sb.datastart - sb.bmapstart + 6 <= LOGSIZE && sb.datastart - sb.bmapstart + 6 < a.size
  }

  /** States ss joined by transactions that log ls, with headers hs. */
  ghost predicate Chain(sb: Super, ss: seq<Snap>, ls: seq<set<nat>>, hs: seq<seq<nat>>) {
    && |ss| == |ls| + 1 && |hs| == |ls| && Consistent(sb, ss[0])
    && forall m :: 0 <= m < |ls| ==> Transaction(sb, ss[m], ss[m + 1], ls[m]) && Lists(hs[m], ls[m])
  }

  lemma StepCommits(sb: Super, s: Snap, t: Snap, l: set<nat>, h: seq<nat>, a: Area)
    requires LogFits(sb, a) && Transaction(sb, s, t, l) && Lists(h, l)
    ensures Committable(sb.size, a, h, Pending(h, t.blocks).pending)
  {
    forall b | b in h ensures sb.inodestart <= b < |t.blocks| { assert b in l; }
    forall m | 0 <= m < |h| ensures h[m] < sb.size && !a.Holds(h[m]) { assert h[m] in h; }
  }

  lemma ChainCommits(sb: Super, ss: seq<Snap>, ls: seq<set<nat>>, hs: seq<seq<nat>>, a: Area)
    requires LogFits(sb, a) && Chain(sb, ss, ls, hs)
    ensures AllCommittable(sb.size, a, Commits(hs, ss))
  {
    forall m | 0 <= m < |hs| ensures Committable(sb.size, a, hs[m], Pending(hs[m], ss[m + 1].blocks).pending) {
      StepCommits(sb, ss[m], ss[m + 1], ls[m], hs[m], a);
    }
  }

  /** After j commits the home blocks are those of the j-th state. */
  lemma {:induction false} ChainAfter(sb: Super, ss: seq<Snap>, ls: seq<set<nat>>, hs: seq<seq<nat>>, d: Disk, j: nat,
                                      b: nat)
    requires Chain(sb, ss, ls, hs) && Agrees(sb, d, ss[0].blocks) && j <= |hs| && sb.inodestart <= b < sb.size
    ensures |ss[j].blocks| == sb.size && After(d, Commits(hs, ss)[..j], b) == ss[j].blocks[b]
  {
    var ts := Commits(hs, ss);
    if j > 0 {
      ChainAfter(sb, ss, ls, hs, d, j - 1, b);
      assert Transaction(sb, ss[j - 1], ss[j], ls[j - 1]);
      assert ts[..j][..j - 1] == ts[..j - 1] && ts[..j][j - 1] == ts[j - 1] == Pending(hs[j - 1], ss[j].blocks);
    }
  }

  lemma ChainState(sb: Super, ss: seq<Snap>, ls: seq<set<nat>>, hs: seq<seq<nat>>, j: nat)
    requires Chain(sb, ss, ls, hs) && j <= |hs|
    ensures Consistent(sb, ss[j]) == true && |ss[j].blocks| == sb.size
  {
    if j > 0 { assert Transaction(sb, ss[j - 1], ss[j], ls[j - 1]); }
  }

  /**
   A run of transactions is cut after any number k of the disk writes of its commits, and recovery, itself cut any
   number of times, follows. A restart finds exactly the files after the first j transactions, which are those whose
   header was written.
   */
  lemma CrashedRun(sb: Super, ss: seq<Snap>, ls: seq<set<nat>>, hs: seq<seq<nat>>, d: Disk, a: Area, k: nat,
                   cuts: seq<nat>)
    returns (j: nat)
    requires LogFits(sb, a) && Chain(sb, ss, ls, hs) && Agrees(sb, d, ss[0].blocks) && LogEmpty(d, a)
    requires k <= WriteCount(Commits(hs, ss))
    ensures AllCommittable(|d|, a, Commits(hs, ss)) && j <= |hs|
    ensures var e := CutRun(d, a, Commits(hs, ss), k);
            LogOk(e, a) && Restarted(sb, RecoverRuns(e, a, cuts), ss[j]) == true
    ensures Counts(Commits(hs, ss), k, j)
  {
    var ts := Commits(hs, ss);
    ChainCommits(sb, ss, ls, hs, a);
    RunLength(d, a, ts);
    j := RunAtomicity(d, a, ts, k, cuts);
    var e := CutRun(d, a, ts, k);
    var r := RecoverRuns(e, a, cuts);
    ChainState(sb, ss, ls, hs, j);
    forall b | sb.inodestart <= b < sb.size ensures r[b] == ss[j].blocks[b] {
      ChainAfter(sb, ss, ls, hs, d, j, b);
    }
    Remount(sb, ss[j], r);
  }

  /**
   A crash anywhere in filewrite: after recovery the file is the old one with the first j chunks of src written into it,
   whole, and every other file is what it was. These are the chunks whose header was written.
   */
  lemma CrashedFilewrite(sb: Super, ss: seq<Snap>, ls: seq<set<nat>>, hs: seq<seq<nat>>, i: nat, off: nat,
                         src: seq<Byte>, d: Disk, a: Area, k: nat, cuts: seq<nat>)
    returns (j: nat)
    requires LogFits(sb, a) && Chain(sb, ss, ls, hs) && Agrees(sb, d, ss[0].blocks) && LogEmpty(d, a)
    requires Run(sb, ss, ls, i, off, src)
    requires k <= WriteCount(Commits(hs, ss))
    ensures AllCommittable(|d|, a, Commits(hs, ss)) && j <= |hs|
    ensures var e := CutRun(d, a, Commits(hs, ss), k);
            && LogOk(e, a) && Shaped(sb, RecoverRuns(e, a, cuts))
            && Through(sb, ss[0], Mounted(sb, RecoverRuns(e, a, cuts), ss[j].owner), i, off, src[..Upto(j, |src|)])
    ensures Counts(Commits(hs, ss), k, j)
  {
    j := CrashedRun(sb, ss, ls, hs, d, a, k, cuts);
    assert Through(sb, ss[0], ss[j], i, off, src[..Upto(j, |src|)]);
  }
}

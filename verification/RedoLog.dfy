/**
 The on-disk redo log: what commit and recovery write, block by block, and what
 is left on the disk when either of them is cut short by a crash.
 A predicate that a lemma only hands on is written `P == true`, so that it is handed on unopened.
 */
module RedoLog {
  import opened Bytes

  const MAXOPBLOCKS := 10
  const LOGSIZE := MAXOPBLOCKS * 3

  type Disk = seq<Block>

  /** One disk write; single-block writes are atomic. */
  datatype Write = Write(blockno: nat, data: Block)

  /** log.start and log.size: a header block followed by size-1 data blocks. */
  datatype Area = Area(start: nat, size: nat) {
    predicate Holds(b: int) { start <= b < start + size }
  }

  function Apply(d: Disk, ws: seq<Write>): (r: Disk)
    ensures |r| == |d|
  {
    if ws == [] then d
    else
      var r := Apply(d, ws[..|ws|-1]);
      var w := ws[|ws|-1];
      if w.blockno < |d| then r[w.blockno := w.data] else r
  }

  lemma {:induction false} ApplyAppend(d: Disk, xs: seq<Write>, ys: seq<Write>)
    ensures Apply(d, xs + ys) == Apply(Apply(d, xs), ys)
  {
    if ys == [] {
      assert xs + ys == xs;
    } else {
      assert (xs + ys)[..|xs + ys|-1] == xs + ys[..|ys|-1];
      ApplyAppend(d, xs, ys[..|ys|-1]);
    }
  }

  lemma ApplyNext(d: Disk, ws: seq<Write>, k: nat)
    requires k < |ws| && ws[k].blockno < |d|
    ensures Apply(d, ws[..k+1]) == Apply(d, ws[..k])[ws[k].blockno := ws[k].data]
  {
    assert ws[..k+1][..k] == ws[..k];
  }

  /* The header block: n in word 0, block[i] in word 1+i. */

  predicate HeadFits(lh: seq<nat>) {
    |lh| <= LOGSIZE && forall i :: 0 <= i < |lh| ==> lh[i] < WORD_LIMIT
  }

  /** write_head fills hb->n and hb->block[0..n); the rest of the block keeps its old bytes. */
  function PutEntries(b: Block, lh: seq<nat>, k: nat): Block
    requires HeadFits(lh) && k <= |lh|
  {
    if k == 0 then PutWord(b, 0, |lh|)
    else PutWord(PutEntries(b, lh, k-1), k, lh[k-1])
  }

  function PutHead(b: Block, lh: seq<nat>): Block
    requires HeadFits(lh)
  {
    PutEntries(b, lh, |lh|)
  }

  function HeadCount(b: Block): Word { WordAt(b, 0) }

  /** What read_head copies out of the header block. */
  function HeadBlocks(b: Block): seq<nat>
    requires HeadCount(b) <= LOGSIZE
  {
    seq(HeadCount(b), i requires 0 <= i < HeadCount(b) => WordAt(b, 1 + i))
  }

  lemma {:induction false} PutEntriesAt(b: Block, lh: seq<nat>, k: nat, j: nat)
    requires HeadFits(lh) && k <= |lh| && j <= k
    ensures WordAt(PutEntries(b, lh, k), j) == if j == 0 then |lh| else lh[j-1]
  {
    if k == 0 {
      PutWordAt(b, 0, |lh|, j);
    } else {
      PutWordAt(PutEntries(b, lh, k-1), k, lh[k-1], j);
      if j < k { PutEntriesAt(b, lh, k-1, j); }
    }
  }

  /** read_head gives back what write_head stored. */
  lemma HeadRoundTrip(b: Block, lh: seq<nat>)
    requires HeadFits(lh)
    ensures HeadCount(PutHead(b, lh)) == |lh| && HeadBlocks(PutHead(b, lh)) == lh
  {
    PutEntriesAt(b, lh, |lh|, 0);
    forall i | 0 <= i < |lh| ensures WordAt(PutHead(b, lh), 1 + i) == lh[i] {
      PutEntriesAt(b, lh, |lh|, 1 + i);
    }
  }

  /* Well-formed logs. */

  /** The first position of b, or |lh| when it is absent. */
  function IndexOf(lh: seq<nat>, b: nat): (i: nat)
    ensures i <= |lh| && (i < |lh| ==> lh[i] == b) && (i == |lh| ==> b !in lh)
  {
    if lh == [] then 0 else if lh[0] == b then 0 else 1 + IndexOf(lh[1..], b)
  }

  lemma {:induction false} IndexOfFirst(lh: seq<nat>, b: nat)
    ensures b !in lh[..IndexOf(lh, b)]
  {
    if lh != [] && lh[0] != b {
      IndexOfFirst(lh[1..], b);
      assert lh[..IndexOf(lh, b)] == [lh[0]] + lh[1..][..IndexOf(lh[1..], b)];
    }
  }

  predicate AreaOk(size: nat, a: Area) {
    1 <= a.size && a.start + a.size <= size <= WORD_LIMIT
  }

  /** A list of home blocks, each listed once, that fits in the log area. */
  predicate EntriesOk(size: nat, a: Area, lh: seq<nat>) {
    && |lh| <= LOGSIZE && |lh| < a.size
    && forall i :: 0 <= i < |lh| ==> lh[i] < size && !a.Holds(lh[i]) && IndexOf(lh, lh[i]) == i
  }

  /** The disk carries a well-formed (possibly empty) log. */
  predicate LogOk(d: Disk, a: Area) {
    && AreaOk(|d|, a)
    && HeadCount(d[a.start]) <= LOGSIZE
    && EntriesOk(|d|, a, HeadBlocks(d[a.start]))
  }

  function OnDiskEntries(d: Disk, a: Area): seq<nat>
    requires LogOk(d, a)
  {
    HeadBlocks(d[a.start])
  }

  /** The log on disk is empty. */
  predicate LogEmpty(d: Disk, a: Area) { LogOk(d, a) && OnDiskEntries(d, a) == [] }

  /** The listed blocks fit the log, and each has a content to go there. */
  ghost predicate Committable(size: nat, a: Area, lh: seq<nat>, pending: map<nat, Block>) {
    AreaOk(size, a) && EntriesOk(size, a, lh) && forall b :: b in lh ==> b in pending
  }

  /** The content block b has once the log on disk is installed. */
  function Home(d: Disk, a: Area, b: nat): Block
    requires LogOk(d, a) && b < |d|
  {
    var i := IndexOf(OnDiskEntries(d, a), b);
    if i < |OnDiskEntries(d, a)| then d[a.start + 1 + i] else d[b]
  }

  /* The writes of each phase. */

  /** write_log: block lh[i] of the cache goes to log block i. */
  function LogWrites(a: Area, lh: seq<nat>, pending: map<nat, Block>): seq<Write>
    requires forall b :: b in lh ==> b in pending
  {
    seq(|lh|, i requires 0 <= i < |lh| => Write(a.start + 1 + i, pending[lh[i]]))
  }

  /** install_trans: log block i goes to its home lh[i]. */
  function InstallWrites(d: Disk, a: Area, lh: seq<nat>): seq<Write>
    requires a.start + 1 + |lh| <= |d|
  {
    seq(|lh|, i requires 0 <= i < |lh| => Write(lh[i], d[a.start + 1 + i]))
  }

  /** write_head. */
  function HeadWrite(d: Disk, a: Area, lh: seq<nat>): seq<Write>
    requires a.start < |d| && HeadFits(lh)
  {
    [Write(a.start, PutHead(d[a.start], lh))]
  }

  /** recover_from_log: install what the header lists, then clear the header. */
  function RecoverWrites(d: Disk, a: Area): seq<Write>
    requires LogOk(d, a)
  {
    InstallWrites(d, a, OnDiskEntries(d, a)) + HeadWrite(d, a, [])
  }

  /** The disk after write_log and the first write_head. */
  function Committed(d: Disk, a: Area, lh: seq<nat>, pending: map<nat, Block>): Disk
    requires AreaOk(|d|, a) && EntriesOk(|d|, a, lh)
    requires forall b :: b in lh ==> b in pending
  {
    Apply(d, LogWrites(a, lh, pending) + HeadWrite(d, a, lh))
  }

  /** commit: nothing for an empty transaction, else log, header, install, clear. */
  function CommitWrites(d: Disk, a: Area, lh: seq<nat>, pending: map<nat, Block>): seq<Write>
    requires AreaOk(|d|, a) && EntriesOk(|d|, a, lh)
    requires forall b :: b in lh ==> b in pending
  {
    if lh == [] then []
    else
      var mid := Committed(d, a, lh, pending);
      LogWrites(a, lh, pending) + HeadWrite(d, a, lh) + InstallWrites(mid, a, lh) + HeadWrite(mid, a, [])
  }

  /* Effects of the phases. */

  lemma {:induction false} LogWritesEffect(d: Disk, a: Area, lh: seq<nat>, pending: map<nat, Block>, k: nat)
    requires AreaOk(|d|, a) && EntriesOk(|d|, a, lh) && k <= |lh|
    requires forall b :: b in lh ==> b in pending
    ensures
      var r := Apply(d, LogWrites(a, lh, pending)[..k]);
      forall b :: 0 <= b < |d| ==>
        r[b] == if a.start < b <= a.start + k then pending[lh[b - a.start - 1]] else d[b]
  {
    if k > 0 {
      var ws := LogWrites(a, lh, pending);
      LogWritesEffect(d, a, lh, pending, k-1);
      assert ws[..k][..k-1] == ws[..k-1];
      assert Apply(d, ws[..k]) == Apply(d, ws[..k-1])[a.start + k := pending[lh[k-1]]];
    }
  }

  /** Home blocks lh[..k] of d have been overwritten from the log, and nothing else has. */
  ghost predicate Installed(d: Disk, e: Disk, a: Area, lh: seq<nat>, k: nat)
    requires AreaOk(|d|, a) && EntriesOk(|d|, a, lh) && k <= |lh|
  {
    && |e| == |d|
    && forall b {:trigger e[b]} :: 0 <= b < |d| ==>
        e[b] == if IndexOf(lh, b) < k then d[a.start + 1 + IndexOf(lh, b)] else d[b]
  }

  lemma InstalledStep(d: Disk, e: Disk, a: Area, lh: seq<nat>, k: nat)
    requires AreaOk(|d|, a) && EntriesOk(|d|, a, lh) && k < |lh| && Installed(d, e, a, lh, k)
    ensures Installed(d, e[lh[k] := d[a.start + 1 + k]], a, lh, k + 1)
  {
    assert IndexOf(lh, lh[k]) == k;
  }

  lemma {:induction false} InstallEffect(d: Disk, a: Area, lh: seq<nat>, k: nat)
    requires AreaOk(|d|, a) && EntriesOk(|d|, a, lh) && k <= |lh|
    ensures Installed(d, Apply(d, InstallWrites(d, a, lh)[..k]), a, lh, k)
  {
    if k > 0 {
      var ws := InstallWrites(d, a, lh);
      InstallEffect(d, a, lh, k-1);
      var e := Apply(d, ws[..k-1]);
      InstalledStep(d, e, a, lh, k-1);
      assert ws[..k][..k-1] == ws[..k-1] && ws[..k][k-1] == Write(lh[k-1], d[a.start + k]);
      assert Apply(d, ws[..k]) == e[lh[k-1] := d[a.start + k]];
    }
  }

  lemma ClearedHead(d: Disk, a: Area)
    requires AreaOk(|d|, a)
    ensures
      var r := Apply(d, HeadWrite(d, a, []));
      && LogOk(r, a) && OnDiskEntries(r, a) == []
      && forall b :: 0 <= b < |d| && b != a.start ==> r[b] == d[b]
  {
    HeadRoundTrip(d[a.start], []);
    ApplyOne(d, Write(a.start, PutHead(d[a.start], [])));
  }

  lemma ApplyOne(d: Disk, w: Write)
    requires w.blockno < |d|
    ensures Apply(d, [w]) == d[w.blockno := w.data]
  {
    assert [w][..0] == [];
  }

  /** Two disks that agree on what recovery would make of the home blocks. */
  ghost predicate SameHome(d: Disk, e: Disk, a: Area)
    requires LogOk(d, a) && LogOk(e, a)
  {
    |d| == |e| && forall b :: 0 <= b < |d| && !a.Holds(b) ==> Home(d, a, b) == Home(e, a, b)
  }

  lemma InstalledLogArea(d: Disk, e: Disk, a: Area, lh: seq<nat>, k: nat, b: nat)
    requires AreaOk(|d|, a) && EntriesOk(|d|, a, lh) && k <= |lh| && Installed(d, e, a, lh, k)
    requires a.Holds(b)
    ensures e[b] == d[b]
  {}

  lemma InstalledHomeAt(d: Disk, e: Disk, a: Area, k: nat, b: nat)
    requires LogOk(d, a) && k <= |OnDiskEntries(d, a)| && Installed(d, e, a, OnDiskEntries(d, a), k)
    requires LogOk(e, a) && OnDiskEntries(e, a) == OnDiskEntries(d, a)
    requires b < |d| && !a.Holds(b)
    ensures Home(e, a, b) == Home(d, a, b)
    ensures k == |OnDiskEntries(d, a)| ==> e[b] == Home(d, a, b)
  {
    var lh := OnDiskEntries(d, a);
    if IndexOf(lh, b) < |lh| {
      InstalledLogArea(d, e, a, lh, k, a.start + 1 + IndexOf(lh, b));
    }
  }

  lemma InstalledHome(d: Disk, e: Disk, a: Area, k: nat)
    requires LogOk(d, a) && k <= |OnDiskEntries(d, a)| && Installed(d, e, a, OnDiskEntries(d, a), k)
    ensures LogOk(e, a) && OnDiskEntries(e, a) == OnDiskEntries(d, a) && SameHome(d, e, a)
    ensures k == |OnDiskEntries(d, a)| ==>
              forall b :: 0 <= b < |d| && !a.Holds(b) ==> e[b] == Home(d, a, b)
  {
    InstalledLogArea(d, e, a, OnDiskEntries(d, a), k, a.start);
    forall b | 0 <= b < |d| && !a.Holds(b)
      ensures Home(e, a, b) == Home(d, a, b)
      ensures k == |OnDiskEntries(d, a)| ==> e[b] == Home(d, a, b)
    {
      InstalledHomeAt(d, e, a, k, b);
    }
  }

  lemma RecoverInstalling(d: Disk, a: Area, k: nat)
    requires LogOk(d, a) && k <= |OnDiskEntries(d, a)|
    ensures
      var r := Apply(d, InstallWrites(d, a, OnDiskEntries(d, a))[..k]);
      && |r| == |d| && r[a.start] == d[a.start]
      && LogOk(r, a) && SameHome(d, r, a)
      && (k == |OnDiskEntries(d, a)| ==> forall b :: 0 <= b < |d| && !a.Holds(b) ==> r[b] == Home(d, a, b))
  {
    var lh := OnDiskEntries(d, a);
    InstallEffect(d, a, lh, k);
    var r := Apply(d, InstallWrites(d, a, lh)[..k]);
    InstalledHome(d, r, a, k);
    InstalledLogArea(d, r, a, lh, k, a.start);
  }

  lemma RecoverDone(d: Disk, a: Area)
    requires LogOk(d, a)
    ensures
      var r := Apply(d, RecoverWrites(d, a));
      && LogOk(r, a) && OnDiskEntries(r, a) == [] && SameHome(d, r, a)
  {
    var ws := InstallWrites(d, a, OnDiskEntries(d, a));
    assert ws[..|ws|] == ws;
    RecoverInstalling(d, a, |ws|);
    var mid := Apply(d, ws);
    ApplyAppend(d, ws, HeadWrite(d, a, []));
    ClearedHead(mid, a);
  }

  /** However far recovery gets, what it would recover stays the same. */
  lemma RecoverPrefix(d: Disk, a: Area, k: nat)
    requires LogOk(d, a) && k <= |RecoverWrites(d, a)|
    ensures
      var r := Apply(d, RecoverWrites(d, a)[..k]);
      && LogOk(r, a) && SameHome(d, r, a)
      && (k == |RecoverWrites(d, a)| ==> OnDiskEntries(r, a) == [])
  {
    var ws := RecoverWrites(d, a);
    if k == |ws| {
      assert ws[..k] == ws;
      RecoverDone(d, a);
    } else {
      assert ws[..k] == InstallWrites(d, a, OnDiskEntries(d, a))[..k];
      RecoverInstalling(d, a, k);
    }
  }

  /** Recovery, crashed after cuts[0] writes and restarted, crashed after cuts[1], ..., then left to finish. */
  ghost function RecoverRuns(d: Disk, a: Area, cuts: seq<nat>): (r: Disk)
    requires LogOk(d, a)
    ensures |r| == |d|
    decreases |cuts|
  {
    var ws := RecoverWrites(d, a);
    if cuts == [] then Apply(d, ws)
    else
      var k := if cuts[0] <= |ws| then cuts[0] else |ws|;
      RecoverPrefix(d, a, k);
      RecoverRuns(Apply(d, ws[..k]), a, cuts[1..])
  }

  /** Recovery that is interrupted any number of times still installs exactly the log it started from. */
  lemma {:induction false} RecoverRunsInstall(d: Disk, a: Area, cuts: seq<nat>)
    requires LogOk(d, a)
    ensures
      var r := RecoverRuns(d, a, cuts);
      && LogOk(r, a) && OnDiskEntries(r, a) == []
      && forall b :: 0 <= b < |d| && !a.Holds(b) ==> r[b] == Home(d, a, b)
    decreases |cuts|
  {
    var ws := RecoverWrites(d, a);
    if cuts == [] {
      assert ws[..|ws|] == ws;
      RecoverPrefix(d, a, |ws|);
    } else {
      var k := if cuts[0] <= |ws| then cuts[0] else |ws|;
      RecoverPrefix(d, a, k);
      RecoverRunsInstall(Apply(d, ws[..k]), a, cuts[1..]);
    }
  }

  /** The content the home blocks must end with. */
  function Outcome(d: Disk, lh: seq<nat>, pending: map<nat, Block>, committed: bool, b: nat): Block
    requires b < |d| && forall x :: x in lh ==> x in pending
  {
    if committed && b in lh then pending[b] else d[b]
  }

  /** Before the header write the log on disk is still empty and no home block has changed. */
  lemma BeforeHeader(d: Disk, a: Area, lh: seq<nat>, pending: map<nat, Block>, k: nat)
    requires LogOk(d, a) && OnDiskEntries(d, a) == [] && EntriesOk(|d|, a, lh) && k <= |lh|
    requires forall b :: b in lh ==> b in pending
    ensures
      var r := Apply(d, LogWrites(a, lh, pending)[..k]);
      && r[a.start] == d[a.start] && LogOk(r, a)
      && forall b :: 0 <= b < |d| && !a.Holds(b) ==> r[b] == d[b] && Home(r, a, b) == d[b]
  {
    LogWritesEffect(d, a, lh, pending, k);
  }

  lemma CommittedDisk(d: Disk, a: Area, lh: seq<nat>, pending: map<nat, Block>)
    requires LogOk(d, a) && EntriesOk(|d|, a, lh)
    requires forall b :: b in lh ==> b in pending
    ensures
      var r := Committed(d, a, lh, pending);
      && |r| == |d| && r[a.start] == PutHead(d[a.start], lh)
      && (forall i :: 0 <= i < |lh| ==> r[a.start + 1 + i] == pending[lh[i]])
      && (forall b :: 0 <= b < |d| && !a.Holds(b) ==> r[b] == d[b])
  {
    var ws := LogWrites(a, lh, pending);
    assert ws[..|lh|] == ws;
    LogWritesEffect(d, a, lh, pending, |lh|);
    var w := Write(a.start, PutHead(d[a.start], lh));
    ApplyAppend(d, ws, [w]);
    ApplyOne(Apply(d, ws), w);
  }

  /** The header write commits: from here recovery would install every pending block. */
  lemma AtHeader(d: Disk, a: Area, lh: seq<nat>, pending: map<nat, Block>)
    requires LogOk(d, a) && OnDiskEntries(d, a) == [] && EntriesOk(|d|, a, lh)
    requires forall b :: b in lh ==> b in pending
    ensures
      var r := Committed(d, a, lh, pending);
      && |r| == |d| && LogOk(r, a) && OnDiskEntries(r, a) == lh
      && (forall i :: 0 <= i < |lh| ==> r[a.start + 1 + i] == pending[lh[i]])
      && forall b :: 0 <= b < |d| && !a.Holds(b) ==> Home(r, a, b) == Outcome(d, lh, pending, true, b)
  {
    CommittedDisk(d, a, lh, pending);
    HeadRoundTrip(d[a.start], lh);
    var r := Committed(d, a, lh, pending);
    forall b | 0 <= b < |d| && !a.Holds(b) ensures Home(r, a, b) == Outcome(d, lh, pending, true, b) {
      CommittedHome(d, r, a, lh, pending, b);
    }
  }

  lemma CommittedHome(d: Disk, r: Disk, a: Area, lh: seq<nat>, pending: map<nat, Block>, b: nat)
    requires |r| == |d| && LogOk(r, a) && OnDiskEntries(r, a) == lh && b < |d| && r[b] == d[b]
    requires forall i :: 0 <= i < |lh| ==> lh[i] in pending && r[a.start + 1 + i] == pending[lh[i]]
    ensures Home(r, a, b) == Outcome(d, lh, pending, true, b)
  {}

  /** Past its header write, commit writes exactly what recovery would. */
  lemma CommitIsRecovery(d: Disk, a: Area, lh: seq<nat>, pending: map<nat, Block>)
    requires LogOk(d, a) && OnDiskEntries(d, a) == [] && EntriesOk(|d|, a, lh) && lh != []
    requires forall b :: b in lh ==> b in pending
    ensures
      var mid := Committed(d, a, lh, pending);
      && LogOk(mid, a)
      && CommitWrites(d, a, lh, pending) == (LogWrites(a, lh, pending) + HeadWrite(d, a, lh)) + RecoverWrites(mid, a)
  {
    AtHeader(d, a, lh, pending);
  }

  lemma ApplyCut(d: Disk, pre: seq<Write>, post: seq<Write>, k: nat)
    requires |pre| <= k <= |pre| + |post|
    ensures Apply(d, (pre + post)[..k]) == Apply(Apply(d, pre), post[..k - |pre|])
  {
    assert (pre + post)[..k] == pre + post[..k - |pre|];
    ApplyAppend(d, pre, post[..k - |pre|]);
  }

  /** The disk when commit is cut after k of its writes. */
  function CrashDisk(d: Disk, a: Area, lh: seq<nat>, pending: map<nat, Block>, k: nat): Disk
    requires AreaOk(|d|, a) && EntriesOk(|d|, a, lh)
    requires forall b :: b in lh ==> b in pending
    requires k <= |CommitWrites(d, a, lh, pending)|
  {
    Apply(d, CommitWrites(d, a, lh, pending)[..k])
  }

  lemma CrashRecoverable(d: Disk, a: Area, lh: seq<nat>, pending: map<nat, Block>, k: nat)
    requires LogOk(d, a) && OnDiskEntries(d, a) == [] && EntriesOk(|d|, a, lh)
    requires forall b :: b in lh ==> b in pending
    requires k <= |CommitWrites(d, a, lh, pending)|
    ensures
      var r := CrashDisk(d, a, lh, pending, k);
      && LogOk(r, a)
      && forall b :: 0 <= b < |d| && !a.Holds(b) ==> Home(r, a, b) == Outcome(d, lh, pending, k > |lh|, b)
  {
    var ws := CommitWrites(d, a, lh, pending);
    if k <= |lh| {
      assert ws[..k] == LogWrites(a, lh, pending)[..k];
      BeforeHeader(d, a, lh, pending, k);
    } else {
      var pre, mid := LogWrites(a, lh, pending) + HeadWrite(d, a, lh), Committed(d, a, lh, pending);
      CommitIsRecovery(d, a, lh, pending);
      ApplyCut(d, pre, RecoverWrites(mid, a), k);
      AtHeader(d, a, lh, pending);
      RecoverPrefix(mid, a, k - |pre|);
    }
  }

  /**
   Crash atomicity. Commit is cut after any number k of its block writes; recovery then runs,
   itself crashed and restarted any number of times. Every home block ends as in the old state
   or every one as in the new state, and it is the new state exactly when the k writes include
   the first header write (the one at index |lh|). The log ends empty, ready for the next use.
   */
  lemma CrashAtomicity(d: Disk, a: Area, lh: seq<nat>, pending: map<nat, Block>, k: nat, cuts: seq<nat>)
    requires LogOk(d, a) && OnDiskEntries(d, a) == [] && EntriesOk(|d|, a, lh)
    requires forall b :: b in lh ==> b in pending
    requires k <= |CommitWrites(d, a, lh, pending)|
    ensures LogOk(CrashDisk(d, a, lh, pending, k), a)
    ensures
      var r := RecoverRuns(CrashDisk(d, a, lh, pending, k), a, cuts);
      && LogOk(r, a) && OnDiskEntries(r, a) == []
      && forall b :: 0 <= b < |d| && !a.Holds(b) ==> r[b] == Outcome(d, lh, pending, k > |lh|, b)
  {
    CrashRecoverable(d, a, lh, pending, k);
    RecoverRunsInstall(CrashDisk(d, a, lh, pending, k), a, cuts);
  }

  /** An uninterrupted commit leaves the new state at home and the log empty. */
  lemma CommitEffect(d: Disk, a: Area, lh: seq<nat>, pending: map<nat, Block>)
    requires LogOk(d, a) && OnDiskEntries(d, a) == [] && EntriesOk(|d|, a, lh)
    requires forall b :: b in lh ==> b in pending
    ensures
      var r := Apply(d, CommitWrites(d, a, lh, pending));
      && LogOk(r, a) && OnDiskEntries(r, a) == []
      && forall b :: 0 <= b < |d| && !a.Holds(b) ==> r[b] == Outcome(d, lh, pending, true, b)
  {
    if lh != [] {
      CommitIsRecovery(d, a, lh, pending);
      var mid := Committed(d, a, lh, pending);
      ApplyAppend(d, LogWrites(a, lh, pending) + HeadWrite(d, a, lh), RecoverWrites(mid, a));
      AtHeader(d, a, lh, pending);
      RecoverRunsInstall(mid, a, []);
    }
  }

  /* Many transactions. */

  datatype Trans = Trans(lh: seq<nat>, pending: map<nat, Block>)

  ghost predicate AllCommittable(size: nat, a: Area, ts: seq<Trans>) {
    forall i :: 0 <= i < |ts| ==> Committable(size, a, ts[i].lh, ts[i].pending)
  }

  /** All the writes of the commits ts, one after the other. */
  ghost function RunWrites(d: Disk, a: Area, ts: seq<Trans>): seq<Write>
    requires AllCommittable(|d|, a, ts)
    decreases |ts|
  {
    if ts == [] then []
    else
      var ws := CommitWrites(d, a, ts[0].lh, ts[0].pending);
      ws + RunWrites(Apply(d, ws), a, ts[1..])
  }

  /** The home blocks after the transactions ts: each overwrites what it lists. */
  ghost function After(d: Disk, ts: seq<Trans>, b: nat): Block
    requires b < |d|
  {
    if ts == [] then d[b]
    else
      var t := ts[|ts| - 1];
      if b in t.lh && b in t.pending then t.pending[b] else After(d, ts[..|ts| - 1], b)
  }

  lemma {:induction false} AfterFirst(d: Disk, e: Disk, ts: seq<Trans>, b: nat)
    requires ts != [] && b < |d| == |e| && (b in ts[0].lh ==> b in ts[0].pending)
    requires e[b] == Outcome(d, if b in ts[0].lh then [b] else [], ts[0].pending, true, b)
    ensures After(d, ts, b) == After(e, ts[1..], b)
  {
    if |ts| > 1 {
      AfterFirst(d, e, ts[..|ts| - 1], b);
      assert ts[1..][..|ts| - 2] == ts[..|ts| - 1][1..];
    } else {
      assert ts[..0] == [];
    }
  }

  lemma AfterOne(d: Disk, ts: seq<Trans>, n: nat, b: nat)
    requires n <= 1 <= |ts| && b < |d| && forall x :: x in ts[0].lh ==> x in ts[0].pending
    ensures After(d, ts[..n], b) == Outcome(d, ts[0].lh, ts[0].pending, n == 1, b)
  {
    assert ts[..1][..0] == [] && ts[..1][0] == ts[0];
  }

  /** What recovery, itself cut any number of times, makes of disk e is d after the transactions ts. */
  ghost predicate RecoveredAs(e: Disk, a: Area, cuts: seq<nat>, d: Disk, ts: seq<Trans>) {
    && LogOk(e, a) && |e| == |d|
    && forall b :: 0 <= b < |d| && !a.Holds(b) ==> RecoverRuns(e, a, cuts)[b] == After(d, ts, b)
  }

  /** How many blocks a commit writes: each listed block twice, and the header twice. */
  function Size(t: Trans): nat { if t.lh == [] then 0 else 2 * |t.lh| + 2 }

  function WriteCount(ts: seq<Trans>): nat {
    if ts == [] then 0 else Size(ts[0]) + WriteCount(ts[1..])
  }

  lemma {:induction false} RunLength(d: Disk, a: Area, ts: seq<Trans>)
    requires AllCommittable(|d|, a, ts)
    ensures |RunWrites(d, a, ts)| == WriteCount(ts)
    decreases |ts|
  {
    if ts != [] {
      assert Committable(|d|, a, ts[0].lh, ts[0].pending);
      RunLength(Apply(d, CommitWrites(d, a, ts[0].lh, ts[0].pending)), a, ts[1..]);
    }
  }

  /** The disk after the first k writes of a run. */
  ghost function CutRun(d: Disk, a: Area, ts: seq<Trans>, k: nat): (r: Disk)
    requires AllCommittable(|d|, a, ts) && k <= WriteCount(ts)
    ensures |r| == |d|
  {
    RunLength(d, a, ts);
    Apply(d, RunWrites(d, a, ts)[..k])
  }

  /** Within k writes the i-th transaction has written its header; one that lists nothing has none to write. */
  predicate HeaderBy(ts: seq<Trans>, k: nat, i: nat)
    requires i < |ts|
  {
    WriteCount(ts[..i]) + |ts[i].lh| + (if ts[i].lh == [] then 0 else 1) <= k
  }

  /** The first j transactions are exactly those whose header is among the first k writes. */
  ghost predicate Counts(ts: seq<Trans>, k: nat, j: nat) {
    j <= |ts| && forall i :: 0 <= i < |ts| ==> (i < j <==> HeaderBy(ts, k, i))
  }

  /** The crash comes during the first transaction. */
  lemma FirstCut(d: Disk, a: Area, ts: seq<Trans>, ws: seq<Write>, rest: seq<Write>, k: nat, cuts: seq<nat>)
    requires LogEmpty(d, a) && ts != [] && Committable(|d|, a, ts[0].lh, ts[0].pending)
    requires ws == CommitWrites(d, a, ts[0].lh, ts[0].pending) && k < |ws|
    ensures RecoveredAs(Apply(d, (ws + rest)[..k]), a, cuts, d, ts[..if k > |ts[0].lh| then 1 else 0])
  {
    var n := if k > |ts[0].lh| then 1 else 0;
    assert (ws + rest)[..k] == ws[..k];
    CrashAtomicity(d, a, ts[0].lh, ts[0].pending, k, cuts);
    forall b | 0 <= b < |d| && !a.Holds(b)
      ensures After(d, ts[..n], b) == Outcome(d, ts[0].lh, ts[0].pending, k > |ts[0].lh|, b)
    {
      AfterOne(d, ts, n, b);
    }
  }

  lemma FirstCounts(ts: seq<Trans>, k: nat)
    requires ts != [] && k < Size(ts[0])
    ensures Counts(ts, k, if k > |ts[0].lh| then 1 else 0) == true
  {
    forall i | 0 < i < |ts| ensures !HeaderBy(ts, k, i) { assert ts[..i][0] == ts[0]; }
  }

  /** Transaction t turns the home blocks of d into those of e. */
  ghost predicate Leaves(d: Disk, a: Area, t: Trans, e: Disk) {
    && |e| == |d| && (forall x :: x in t.lh ==> x in t.pending)
    && forall b :: 0 <= b < |d| && !a.Holds(b) ==> e[b] == Outcome(d, t.lh, t.pending, true, b)
  }

  /** Past the first transaction the run goes on from the disk e that it leaves. */
  lemma NextCut(d: Disk, a: Area, ts: seq<Trans>, ws: seq<Write>, rest: seq<Write>, k: nat, cuts: seq<nat>, e: Disk,
                j: nat)
    requires |ws| <= k <= |ws| + |rest| && e == Apply(d, ws) && j < |ts| && Leaves(d, a, ts[0], e) == true
    requires RecoveredAs(Apply(e, rest[..k - |ws|]), a, cuts, e, ts[1..][..j]) == true
    ensures RecoveredAs(Apply(d, (ws + rest)[..k]), a, cuts, d, ts[..j + 1])
  {
    ApplyCut(d, ws, rest, k);
    assert ts[..j + 1][1..] == ts[1..][..j] && ts[..j + 1][0] == ts[0];
    forall b | 0 <= b < |d| && !a.Holds(b) ensures After(d, ts[..j + 1], b) == After(e, ts[1..][..j], b) {
      AfterFirst(d, e, ts[..j + 1], b);
    }
  }

  lemma NextCounts(ts: seq<Trans>, k: nat, j: nat)
    requires ts != [] && Size(ts[0]) <= k && Counts(ts[1..], k - Size(ts[0]), j)
    ensures Counts(ts, k, j + 1) == true
  {
    forall i | 0 < i < |ts| ensures HeaderBy(ts, k, i) <==> HeaderBy(ts[1..], k - Size(ts[0]), i - 1) {
      assert ts[..i][0] == ts[0] && ts[..i][1..] == ts[1..][..i - 1];
    }
  }

  lemma NoRun(d: Disk, a: Area, cuts: seq<nat>)
    requires LogEmpty(d, a)
    ensures RecoveredAs(d, a, cuts, d, []) == true && Counts([], 0, 0) == true
  {
    RecoverRunsInstall(d, a, cuts);
  }

  lemma CommitLeaves(d: Disk, a: Area, t: Trans, ws: seq<Write>, e: Disk)
    requires LogEmpty(d, a) && Committable(|d|, a, t.lh, t.pending)
    requires ws == CommitWrites(d, a, t.lh, t.pending) && e == Apply(d, ws)
    ensures LogEmpty(e, a) == true && Leaves(d, a, t, e) == true
  {
    CommitEffect(d, a, t.lh, t.pending);
  }

  /**
   Crash atomicity of a whole run. The run of commits ts is cut after any number k of its block writes, and recovery,
   itself cut any number of times, follows: the home blocks are as after the first j transactions, which are exactly
   those whose header was written.
   */
  lemma {:induction false} RunAtomicity(d: Disk, a: Area, ts: seq<Trans>, k: nat, cuts: seq<nat>) returns (j: nat)
    requires LogEmpty(d, a) == true && AllCommittable(|d|, a, ts) && k <= |RunWrites(d, a, ts)|
    ensures j <= |ts| && RecoveredAs(Apply(d, RunWrites(d, a, ts)[..k]), a, cuts, d, ts[..j]) == true
    ensures Counts(ts, k, j) == true
    decreases |ts|
  {
    if ts == [] {
      j := 0;
      NoRun(d, a, cuts);
    } else {
      var t := ts[0];
      assert Committable(|d|, a, t.lh, t.pending);
      var ws := CommitWrites(d, a, t.lh, t.pending);
      var e := Apply(d, ws);
      var rest := RunWrites(e, a, ts[1..]);
      assert |ws| == Size(t);
      if k < |ws| {
        j := if k > |t.lh| then 1 else 0;
        FirstCut(d, a, ts, ws, rest, k, cuts);
        FirstCounts(ts, k);
      } else {
        CommitLeaves(d, a, t, ws, e);
        var i := RunAtomicity(e, a, ts[1..], k - |ws|, cuts);
        j := i + 1;
        NextCut(d, a, ts, ws, rest, k, cuts, e, i);
        NextCounts(ts, k, i);
      }
    }
  }
}

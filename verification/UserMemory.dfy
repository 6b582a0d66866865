/**
 What user programs see of memory: every process has its bytes, and an operation on one process changes no other's.
 The kernel's pages, tables and free list are not in it, except that an operation may fail for want of pages.
 */
module UserMemory {
  import opened Bytes
  import opened PageTable
  import opened Vm
  import opened Growproc

  /** The memory of a process: its size in bytes, and its virtual pages from 0 on with their permissions. */
  datatype Image = Image(sz: nat, pages: seq<Want>)

  /** Operations on processes; store is what the kernel writes into a process's memory for it. */
  datatype Op =
    | Spawn(j: nat)
    | Fork(i: nat, j: nat)
    | Exit(i: nat)
    | Sbrk(i: nat, n: int)
    | Store(i: nat, va: nat, src: seq<Byte>)
  {
    /** The process whose memory it is about. */
    function Who(): nat {
      match this
      case Spawn(j) => j
      case Fork(_, j) => j
      case Exit(i) => i
      case Sbrk(i, _) => i
      case Store(i, _, _) => i
    }
  }

  function NewPages(n: nat): (r: seq<Want>)
    ensures |r| == n
  {
    seq(n, _ => Want(RWXU.(v := true), ZeroPage()))
  }

  /** More pages are zero, fewer are the first ones. */
  function Resize(m: Image, sz: nat): Image {
    Image(sz, if Up(sz) <= |m.pages| then m.pages[..Up(sz)] else m.pages + NewPages(Up(sz) - |m.pages|))
  }

  /** The user may touch address x. */
  predicate Touchable(m: Image, x: nat) { x / PGSIZE < |m.pages| && m.pages[x / PGSIZE].perm.u }

  /** How many of the n bytes at va come before the first that the user may not touch. */
  function Reach(m: Image, va: nat, n: nat): (r: nat)
    ensures r <= n && (forall x :: va <= x < va + r ==> Touchable(m, x)) && (r < n ==> !Touchable(m, va + r))
  {
    if n == 0 then 0
    else
      var r := Reach(m, va, n - 1);
      if r == n - 1 && Touchable(m, va + r) then n else r
  }

  /** Page w with src stored at va. */
  function Patched(d: PageData, w: nat, va: nat, src: seq<Byte>): PageData {
    Data(seq(PGSIZE, o requires 0 <= o < PGSIZE =>
      var x := w * PGSIZE + o;
      if va <= x < va + |src| then src[x - va] else d.bytes[o]))
  }

  function Written(m: Image, va: nat, src: seq<Byte>): Image {
    m.(pages := seq(|m.pages|, w requires 0 <= w < |m.pages| =>
      m.pages[w].(data := Patched(m.pages[w].data, w, va, src))))
  }

  /** The operation is about processes that there are, and a new one has a free place. */
  predicate Applies(ms: map<nat, Image>, op: Op) {
    match op
    case Spawn(j) => j !in ms
    case Fork(i, j) => i in ms && j !in ms
    case Exit(i) => i in ms
    case Sbrk(i, _) => i in ms
    case Store(i, _, _) => i in ms
  }

  function Effect(ms: map<nat, Image>, op: Op, ok: bool): map<nat, Image> {
    if !ok || !Applies(ms, op) then ms
    else match op
      case Spawn(j) => ms[j := Image(0, [])]
      case Fork(i, j) => ms[j := ms[i]]
      case Exit(i) => ms - {i}
      case Sbrk(i, n) => ms[i := Resize(ms[i], NewSize(ms[i].sz, n))]
      case Store(i, va, src) => ms[i := Written(ms[i], va, src[..Reach(ms[i], va, |src|)])]
  }

  /** With so many free pages it does not fail. A page takes itself and at most two tables; a process six pages more. */
  function Needs(ms: map<nat, Image>, op: Op): nat
    requires Applies(ms, op)
  {
    match op
    case Spawn(_) => 6
    case Fork(i, _) => 6 + 3 * |ms[i].pages|
    case Exit(_) => 0
    case Sbrk(i, n) =>
      var b := Up(NewSize(ms[i].sz, n));
      if b <= |ms[i].pages| then 0 else 3 * (b - |ms[i].pages|)
    case Store(_, _, _) => 0
  }

  /** What there is after the operations ops, of which those marked in oks succeeded. */
  function Outcome(ops: seq<Op>, oks: seq<bool>): map<nat, Image>
    requires |oks| == |ops|
  {
    if ops == [] then map[]
    else Effect(Outcome(ops[..|ops| - 1], oks[..|ops| - 1]), ops[|ops| - 1], oks[|ops| - 1])
  }

  /** Process j is there or not as before, and if it is it sees every byte as before. */
  predicate Keeps(ms: map<nat, Image>, ns: map<nat, Image>, j: nat) {
    (j in ns <==> j in ms) && (j in ms ==> ns[j] == ms[j])
  }

  /** An operation changes the memory of the one process it is about. */
  lemma OthersKeep(ms: map<nat, Image>, op: Op, ok: bool, j: nat)
    requires j != op.Who()
    ensures Keeps(ms, Effect(ms, op, ok), j) == true
  {}

  /** Isolation: while no operation is about process j, its memory stays. */
  lemma {:induction false} Isolated(ops: seq<Op>, oks: seq<bool>, a: nat, b: nat, j: nat)
    requires |oks| == |ops| && a <= b <= |ops| && forall n :: a <= n < b ==> ops[n].Who() != j
    ensures Keeps(Outcome(ops[..a], oks[..a]), Outcome(ops[..b], oks[..b]), j) == true
    decreases b
  {
    if a < b {
      Isolated(ops, oks, a, b - 1, j);
      assert ops[..b][..b - 1] == ops[..b - 1] && oks[..b][..b - 1] == oks[..b - 1];
      OthersKeep(Outcome(ops[..b - 1], oks[..b - 1]), ops[b - 1], oks[b - 1], j);
    }
  }

  /* The same, byte by byte. */

  predicate InMemory(m: Image, x: nat) { x / PGSIZE < |m.pages| }

  function ByteOf(m: Image, x: nat): Byte
    requires InMemory(m, x)
  {
    m.pages[x / PGSIZE].data.bytes[x % PGSIZE]
  }

  /** sbrk leaves the bytes that stay as they are, and those that come are zero; the pages are those of the new size. */
  lemma SbrkBytes(ms: map<nat, Image>, i: nat, n: int, x: nat)
    requires i in ms && |ms[i].pages| == Up(ms[i].sz)
    ensures
      var now := Effect(ms, Sbrk(i, n), true);
      && i in now && now[i].sz == NewSize(ms[i].sz, n) && (InMemory(now[i], x) <==> x / PGSIZE < Up(now[i].sz))
      && (InMemory(now[i], x) ==> ByteOf(now[i], x) == if InMemory(ms[i], x) then ByteOf(ms[i], x) else 0)
  {}

  /** A store changes the bytes of its range up to the first that the user may not touch, and no other byte. */
  lemma StoreBytes(ms: map<nat, Image>, i: nat, va: nat, src: seq<Byte>, x: nat)
    requires i in ms
    ensures
      var now, r := Effect(ms, Store(i, va, src), true), Reach(ms[i], va, |src|);
      && i in now && now[i].sz == ms[i].sz && (InMemory(now[i], x) <==> InMemory(ms[i], x))
      && (InMemory(ms[i], x) ==> ByteOf(now[i], x) == if va <= x < va + r then src[x - va] else ByteOf(ms[i], x))
  {
    assert x / PGSIZE * PGSIZE + x % PGSIZE == x;
  }

  /** fork gives the child every byte of the parent. */
  lemma ForkBytes(ms: map<nat, Image>, i: nat, j: nat, x: nat)
    requires i in ms && j !in ms
    ensures
      var now := Effect(ms, Fork(i, j), true);
      && i in now && j in now && now[i] == ms[i] && now[j].sz == ms[i].sz
      && (InMemory(now[j], x) <==> InMemory(ms[i], x))
      && (InMemory(ms[i], x) ==> ByteOf(now[j], x) == ByteOf(ms[i], x))
  {}
}

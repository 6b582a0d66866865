/**
 Files as byte sequences over the block layer: block allocation, bmap, itrunc, readi, writei, filewrite.
 A predicate that a method only hands on is written `P == true`, so that it is handed on unopened.
 */
module Files {
  import opened Basics
  import opened Bytes
  import opened Layout
  import RedoLog
  import LogProtocol

  /** Every block address an inode leads to: addrs[0..12], then the entries of its indirect block. */
  const SLOTS := NDIRECT + 1 + NINDIRECT

  datatype Tree = Tree(at: seq<nat>)
  datatype Slot = Slot(inode: nat, k: nat)

  /** Blocks and in-core inodes, with the address tree of every inode and the slot that owns each block in use. */
  datatype Snap = Snap(blocks: seq<Block>, inode: seq<Inode>, tree: seq<Tree>, owner: map<nat, Slot>)

  /** The slot of the n-th block of a file. */
  function DataSlot(n: nat): nat { if n < NDIRECT then n else n + 1 }

  function Entry(blocks: seq<Block>, a: nat, k: nat): nat
    requires NDIRECT < k < SLOTS
  {
    if a == 0 || a >= |blocks| then 0 else WordAt(blocks[a], k - NDIRECT - 1)
  }

  ghost predicate TreeOk(blocks: seq<Block>, ip: Inode, t: Tree) {
    && InodeOk(ip) && |t.at| == SLOTS
    && (forall k :: 0 <= k <= NDIRECT ==> t.at[k] == ip.addrs[k])
    && (forall k :: NDIRECT < k < SLOTS ==> t.at[k] == Entry(blocks, ip.addrs[NDIRECT], k))
  }

  ghost predicate TreesOk(s: Snap) {
    |s.tree| == |s.inode| && forall i :: 0 <= i < |s.inode| ==> TreeOk(s.blocks, s.inode[i], s.tree[i])
  }

  /** No block is reached twice. */
  ghost predicate OwnersOk(sb: Super, tree: seq<Tree>, owner: map<nat, Slot>) {
    && (forall i :: 0 <= i < |tree| ==> |tree[i].at| == SLOTS)
    && (forall i, k :: 0 <= i < |tree| && 0 <= k < SLOTS && tree[i].at[k] != 0 ==>
          tree[i].at[k] in owner && owner[tree[i].at[k]] == Slot(i, k))
    && (forall b :: b in owner ==>
          && sb.datastart <= b < sb.size
          && owner[b].inode < |tree| && owner[b].k < SLOTS && tree[owner[b].inode].at[owner[b].k] == b)
  }

  /** The bitmap marks the metadata blocks and the owned blocks, and no others. */
  ghost predicate BitmapOk(sb: Super, blocks: seq<Block>, owner: map<nat, Slot>)
    requires Shaped(sb, blocks)
  {
    forall b :: 0 <= b < sb.size ==> (Used(sb, blocks, b) <==> b < sb.datastart || b in owner)
  }

  ghost predicate Core(sb: Super, s: Snap) {
    && Shaped(sb, s.blocks) && sb.datastart > 0 && |s.inode| == sb.ninodes
    && TreesOk(s) && OwnersOk(sb, s.tree, s.owner) && BitmapOk(sb, s.blocks, s.owner)
  }

  /* Taking a block. */

  /** balloc: the bit set, the block zeroed. */
  function Alloc(sb: Super, blocks: seq<Block>, b: nat): (r: seq<Block>)
    requires Shaped(sb, blocks) && b < sb.size && !Used(sb, blocks, b)
    ensures Shaped(sb, r)
  {
    Mark(sb, blocks, b)[b := ZeroBlock()]
  }

  /** The trees when block b goes into slot k of inode i. */
  function Grow(tree: seq<Tree>, i: nat, k: nat, b: nat): seq<Tree>
    requires i < |tree| && k < |tree[i].at|
  {
    tree[i := Tree(tree[i].at[k := b])]
  }

  lemma GrowOwners(sb: Super, s: Snap, i: nat, k: nat, b: nat)
    requires OwnersOk(sb, s.tree, s.owner) && i < |s.tree| && k < SLOTS && s.tree[i].at[k] == 0
    requires 0 < sb.datastart <= b < sb.size && b !in s.owner
    ensures OwnersOk(sb, Grow(s.tree, i, k, b), s.owner[b := Slot(i, k)])
  {
    var owner, tree := s.owner[b := Slot(i, k)], Grow(s.tree, i, k, b);
    forall j, l | 0 <= j < |tree| && 0 <= l < SLOTS && tree[j].at[l] != 0
      ensures tree[j].at[l] in owner && owner[tree[j].at[l]] == Slot(j, l)
    {
      if j != i || l != k { assert tree[j].at[l] == s.tree[j].at[l]; }
    }
    forall c | c in s.owner ensures tree[s.owner[c].inode].at[s.owner[c].k] == c {
      assert s.tree[s.owner[c].inode].at[s.owner[c].k] == c;
    }
  }

  lemma AllocBitmap(sb: Super, s: Snap, b: nat, slot: Slot)
    requires Shaped(sb, s.blocks) && BitmapOk(sb, s.blocks, s.owner) && b < sb.size && !Used(sb, s.blocks, b)
    ensures BitmapOk(sb, Alloc(sb, s.blocks, b), s.owner[b := slot])
  {
    var r := Alloc(sb, s.blocks, b);
    assert !(b < sb.datastart);
    forall c | 0 <= c < sb.size ensures Used(sb, r, c) <==> c < sb.datastart || c in s.owner[b := slot] {
      AllocUsed(sb, s.blocks, b, c);
    }
  }

  lemma AllocUsed(sb: Super, blocks: seq<Block>, b: nat, c: nat)
    requires Shaped(sb, blocks) && sb.datastart <= b < sb.size && c < sb.size && !Used(sb, blocks, b)
    ensures Used(sb, Alloc(sb, blocks, b), c) <==> c == b || Used(sb, blocks, c)
  {
    MarkAt(sb, blocks, b, c);
    BitmapBelow(sb, c);
    SameUsed(sb, Mark(sb, blocks, b), Alloc(sb, blocks, b), c);
  }

  lemma BitmapBelow(sb: Super, c: nat)
    requires SuperOk(sb) && c < sb.size
    ensures sb.bmapstart <= BitmapBlock(sb, c) < sb.datastart
  {}

  lemma SameUsed(sb: Super, x: seq<Block>, y: seq<Block>, c: nat)
    requires Shaped(sb, x) && Shaped(sb, y) && c < sb.size && x[BitmapBlock(sb, c)] == y[BitmapBlock(sb, c)]
    ensures Used(sb, x, c) == Used(sb, y, c)
  {}

  /** A data block that is allocated is zeroed and marked; no other mark changes, and only its bitmap block does. */
  lemma AllocEffect(sb: Super, blocks: seq<Block>, b: nat, c: nat)
    requires Shaped(sb, blocks) && sb.datastart <= b < sb.size && c < sb.size && !Used(sb, blocks, b)
    ensures var r := Alloc(sb, blocks, b);
      && r[b] == Data(seq(BSIZE, _ => 0)) && (Used(sb, r, c) <==> c == b || Used(sb, blocks, c))
      && (c != b && c != sb.bmapstart + b / (8 * BSIZE) ==> r[c] == blocks[c])
  {
    AllocUsed(sb, blocks, b, c);
  }

  /** A free block is a data block that no inode reaches. */
  lemma FreeIsUnowned(sb: Super, s: Snap, b: nat)
    requires Core(sb, s) == true && b < sb.size && !Used(sb, s.blocks, b)
    ensures sb.datastart <= b && b !in s.owner && b > 0
  {}

  predicate Here(s: Snap, i: nat) {
    i < |s.inode| == |s.tree| && |s.inode[i].addrs| == NDIRECT + 1 && |s.tree[i].at| == SLOTS
  }

  /** The state when inode i has b in addrs[k]. */
  function TakeDirect(sb: Super, s: Snap, i: nat, k: nat, b: nat): Snap
    requires Shaped(sb, s.blocks) && Here(s, i) && k <= NDIRECT && b < sb.size && !Used(sb, s.blocks, b)
  {
    var ip := s.inode[i];
    Snap(Alloc(sb, s.blocks, b), s.inode[i := ip.(addrs := ip.addrs[k := b])], Grow(s.tree, i, k, b),
      s.owner[b := Slot(i, k)])
  }

  /** The state when inode i has b in entry k of its indirect block. */
  function TakeIndirect(sb: Super, s: Snap, i: nat, k: nat, b: nat): Snap
    requires Shaped(sb, s.blocks) && Here(s, i) && NDIRECT < k < SLOTS && b < sb.size && !Used(sb, s.blocks, b)
    requires s.inode[i].addrs[NDIRECT] < sb.size
  {
    var a := s.inode[i].addrs[NDIRECT];
    Snap(Alloc(sb, s.blocks, b)[a := PutWord(s.blocks[a], k - NDIRECT - 1, b)], s.inode,
         Grow(s.tree, i, k, b), s.owner[b := Slot(i, k)])
  }

  lemma AllocUntouched(sb: Super, blocks: seq<Block>, b: nat, a: nat)
    requires Shaped(sb, blocks) && b < sb.size && !Used(sb, blocks, b) && sb.datastart <= a < sb.size && a != b
    ensures Alloc(sb, blocks, b)[a] == blocks[a]
  {}

  /** The trees of the other inodes, and what an allocation leaves of the tree of inode i. */
  lemma AllocTrees(sb: Super, s: Snap, b: nat, i: nat)
    requires Core(sb, s) == true && b < sb.size && !Used(sb, s.blocks, b) && i < |s.inode|
    ensures TreeOk(Alloc(sb, s.blocks, b), s.inode[i], s.tree[i])
  {
    var r, a := Alloc(sb, s.blocks, b), s.inode[i].addrs[NDIRECT];
    assert TreeOk(s.blocks, s.inode[i], s.tree[i]);
    if a != 0 {
      assert s.tree[i].at[NDIRECT] == a;
      FreeIsUnowned(sb, s, b);
      AllocUntouched(sb, s.blocks, b, a);
    }
    forall k | NDIRECT < k < SLOTS ensures s.tree[i].at[k] == Entry(r, a, k) {
      assert s.tree[i].at[k] == Entry(s.blocks, a, k);
    }
  }

  lemma TakeDirectKeeps(sb: Super, s: Snap, i: nat, k: nat, b: nat)
    requires Core(sb, s) == true && i < |s.inode| && k <= NDIRECT && s.tree[i].at[k] == 0
    requires b < sb.size && !Used(sb, s.blocks, b)
    ensures Core(sb, TakeDirect(sb, s, i, k, b))
  {
    var t := TakeDirect(sb, s, i, k, b);
    FreeIsUnowned(sb, s, b);
    GrowOwners(sb, s, i, k, b);
    AllocBitmap(sb, s, b, Slot(i, k));
    forall j | 0 <= j < |t.inode| ensures TreeOk(t.blocks, t.inode[j], t.tree[j]) {
      AllocTrees(sb, s, b, j);
      if j == i && k == NDIRECT {
        forall l | NDIRECT < l < SLOTS ensures t.tree[i].at[l] == Entry(t.blocks, b, l) {
          assert s.tree[i].at[l] == Entry(s.blocks, 0, l);
          NewIndirect(t.blocks, b, l);
        }
      }
    }
  }

  /** A fresh indirect block has no entries. */
  lemma NewIndirect(blocks: seq<Block>, b: nat, k: nat)
    requires NDIRECT < k < SLOTS && b < |blocks| && blocks[b] == ZeroBlock()
    ensures Entry(blocks, b, k) == 0
  {
    ZeroWords(blocks[b], k - NDIRECT - 1);
  }

  lemma TakeIndirectTrees(sb: Super, s: Snap, i: nat, k: nat, b: nat)
    requires Core(sb, s) == true && i < |s.inode| && NDIRECT < k < SLOTS && b < sb.size && !Used(sb, s.blocks, b)
    requires 0 < s.inode[i].addrs[NDIRECT] < sb.size
    ensures TreesOk(TakeIndirect(sb, s, i, k, b))
  {
    var t := TakeIndirect(sb, s, i, k, b);
    forall j | 0 <= j < |t.inode| ensures TreeOk(t.blocks, t.inode[j], t.tree[j]) {
      if j == i {
        NewEntry(sb, s, i, k, b);
      } else {
        AllocTrees(sb, s, b, j);
        OtherIndirect(sb, s, i, j);
        StoreElsewhere(Alloc(sb, s.blocks, b), t.blocks, s.inode[j], s.tree[j]);
      }
    }
  }

  lemma TakeIndirectKeeps(sb: Super, s: Snap, i: nat, k: nat, b: nat)
    requires Core(sb, s) == true && i < |s.inode| && NDIRECT < k < SLOTS && s.tree[i].at[k] == 0
    requires s.tree[i].at[NDIRECT] != 0 && b < sb.size && !Used(sb, s.blocks, b)
    ensures s.inode[i].addrs[NDIRECT] < sb.size && Core(sb, TakeIndirect(sb, s, i, k, b))
  {
    assert TreeOk(s.blocks, s.inode[i], s.tree[i]) && s.owner[s.tree[i].at[NDIRECT]] == Slot(i, NDIRECT);
    var t := TakeIndirect(sb, s, i, k, b);
    FreeIsUnowned(sb, s, b);
    GrowOwners(sb, s, i, k, b);
    AllocBitmap(sb, s, b, Slot(i, k));
    SameBitmap(sb, Alloc(sb, s.blocks, b), t.blocks, t.owner);
    TakeIndirectTrees(sb, s, i, k, b);
  }

  lemma SameBitmap(sb: Super, x: seq<Block>, y: seq<Block>, owner: map<nat, Slot>)
    requires Shaped(sb, x) && Shaped(sb, y) && BitmapOk(sb, x, owner)
    requires forall c :: sb.bmapstart <= c < sb.datastart ==> x[c] == y[c]
    ensures BitmapOk(sb, y, owner)
  {
    forall b | 0 <= b < sb.size ensures Used(sb, y, b) <==> b < sb.datastart || b in owner {
      assert Used(sb, x, b) <==> b < sb.datastart || b in owner;
      assert x[BitmapBlock(sb, b)] == y[BitmapBlock(sb, b)];
    }
  }

  /** Two inodes do not share an indirect block. */
  lemma OtherIndirect(sb: Super, s: Snap, i: nat, j: nat)
    requires Core(sb, s) == true && i < |s.inode| && j < |s.inode| && i != j && s.inode[i].addrs[NDIRECT] != 0
    ensures s.inode[i].addrs[NDIRECT] != s.inode[j].addrs[NDIRECT]
  {
    assert TreeOk(s.blocks, s.inode[i], s.tree[i]) && TreeOk(s.blocks, s.inode[j], s.tree[j]);
    assert s.tree[i].at[NDIRECT] == s.inode[i].addrs[NDIRECT] && s.tree[j].at[NDIRECT] == s.inode[j].addrs[NDIRECT];
  }

  lemma StoreElsewhere(x: seq<Block>, y: seq<Block>, ip: Inode, t: Tree)
    requires TreeOk(x, ip, t) && |x| == |y|
    requires var a := ip.addrs[NDIRECT]; 0 < a < |x| ==> x[a] == y[a]
    ensures TreeOk(y, ip, t)
  {
    forall k | NDIRECT < k < SLOTS ensures t.at[k] == Entry(y, ip.addrs[NDIRECT], k) {
      assert t.at[k] == Entry(x, ip.addrs[NDIRECT], k);
    }
  }

  lemma NewEntry(sb: Super, s: Snap, i: nat, k: nat, b: nat)
    requires Core(sb, s) == true && i < |s.inode| && NDIRECT < k < SLOTS && b < sb.size && !Used(sb, s.blocks, b)
    requires 0 < s.inode[i].addrs[NDIRECT] < sb.size
    ensures var t := TakeIndirect(sb, s, i, k, b); TreeOk(t.blocks, t.inode[i], t.tree[i])
  {
    var t, a := TakeIndirect(sb, s, i, k, b), s.inode[i].addrs[NDIRECT];
    assert TreeOk(s.blocks, s.inode[i], s.tree[i]);
    forall l | NDIRECT < l < SLOTS ensures t.tree[i].at[l] == Entry(t.blocks, a, l) {
      assert s.tree[i].at[l] == Entry(s.blocks, a, l);
      PutWordAt(s.blocks[a], k - NDIRECT - 1, b, l - NDIRECT - 1);
    }
  }

  predicate InBitmap(sb: Super, b: nat) { sb.bmapstart <= b < sb.datastart }

  /** From s to t inode i may have gained blocks; nothing else has happened to any file. */
  ghost predicate Grown(sb: Super, s: Snap, t: Snap, i: nat)
    requires Shaped(sb, s.blocks) && Shaped(sb, t.blocks) && Here(s, i) && Here(t, i)
  {
    && |t.inode| == |s.inode|
    && (forall j :: 0 <= j < |s.inode| && j != i ==> t.inode[j] == s.inode[j] && t.tree[j] == s.tree[j])
    && t.inode[i] == s.inode[i].(addrs := t.inode[i].addrs)
    && (forall k :: 0 <= k < SLOTS && s.tree[i].at[k] != 0 ==> t.tree[i].at[k] == s.tree[i].at[k])
    && (forall b :: b in s.owner ==> b in t.owner && t.owner[b] == s.owner[b])
    && (forall b :: b in s.owner && b < sb.size && s.owner[b].k != NDIRECT ==> t.blocks[b] == s.blocks[b])
    && (forall b :: 0 <= b < sb.bmapstart ==> t.blocks[b] == s.blocks[b])
  }

  lemma TakeDirectGrows(sb: Super, s: Snap, i: nat, k: nat, b: nat)
    requires Shaped(sb, s.blocks) && Here(s, i) && k <= NDIRECT && s.tree[i].at[k] == 0
    requires sb.datastart <= b < sb.size && !Used(sb, s.blocks, b) && b !in s.owner
    requires forall c :: c in s.owner ==> sb.datastart <= c
    ensures Grown(sb, s, TakeDirect(sb, s, i, k, b), i)
  {
    var x := Alloc(sb, s.blocks, b);
    forall c | c in s.owner && c < sb.size ensures x[c] == s.blocks[c] {
      AllocUntouched(sb, s.blocks, b, c);
    }
    forall c | 0 <= c < sb.bmapstart ensures x[c] == s.blocks[c] {
      AllocBelow(sb, s.blocks, b, c);
    }
    AddressGrows(sb, s, x, i, k, b);
  }

  lemma AddressGrows(sb: Super, s: Snap, x: seq<Block>, i: nat, k: nat, b: nat)
    requires Shaped(sb, s.blocks) && Shaped(sb, x) && Here(s, i) && k <= NDIRECT
    requires s.tree[i].at[k] == 0 && b !in s.owner
    requires forall c :: c in s.owner && c < sb.size ==> x[c] == s.blocks[c]
    requires forall c :: 0 <= c < sb.bmapstart ==> x[c] == s.blocks[c]
    ensures var ip := s.inode[i].(addrs := s.inode[i].addrs[k := b]);
            Grown(sb, s, Snap(x, s.inode[i := ip], Grow(s.tree, i, k, b), s.owner[b := Slot(i, k)]), i)
  {}

  lemma TakeIndirectGrows(sb: Super, s: Snap, i: nat, k: nat, b: nat)
    requires Shaped(sb, s.blocks) && Here(s, i) && NDIRECT < k < SLOTS && s.tree[i].at[k] == 0
    requires sb.datastart <= b < sb.size && !Used(sb, s.blocks, b) && b !in s.owner
    requires forall c :: c in s.owner ==> sb.datastart <= c
    requires var a := s.inode[i].addrs[NDIRECT]; sb.datastart <= a < sb.size && a in s.owner && s.owner[a].k == NDIRECT
    ensures Grown(sb, s, TakeIndirect(sb, s, i, k, b), i)
  {
    var x, a := Alloc(sb, s.blocks, b), s.inode[i].addrs[NDIRECT];
    forall c | c in s.owner && c < sb.size ensures x[c] == s.blocks[c] {
      AllocUntouched(sb, s.blocks, b, c);
    }
    forall c | 0 <= c < sb.bmapstart ensures x[c] == s.blocks[c] {
      AllocBelow(sb, s.blocks, b, c);
    }
    EntryGrows(sb, s, x, PutWord(s.blocks[a], k - NDIRECT - 1, b), i, k, b);
  }

  lemma AllocBelow(sb: Super, blocks: seq<Block>, b: nat, c: nat)
    requires Shaped(sb, blocks) && sb.datastart <= b < sb.size && !Used(sb, blocks, b) && c < sb.bmapstart
    ensures Alloc(sb, blocks, b)[c] == blocks[c]
  {}

  lemma EntryGrows(sb: Super, s: Snap, x: seq<Block>, y: Block, i: nat, k: nat, b: nat)
    requires Shaped(sb, s.blocks) && Shaped(sb, x) && Here(s, i) && NDIRECT < k < SLOTS
    requires s.tree[i].at[k] == 0 && b !in s.owner
    requires var a := s.inode[i].addrs[NDIRECT]; sb.datastart <= a < sb.size && a in s.owner && s.owner[a].k == NDIRECT
    requires forall c :: c in s.owner && c < sb.size ==> x[c] == s.blocks[c]
    requires forall c :: 0 <= c < sb.bmapstart ==> x[c] == s.blocks[c]
    ensures Grown(sb, s, Snap(x[s.inode[i].addrs[NDIRECT] := y], s.inode, Grow(s.tree, i, k, b),
      s.owner[b := Slot(i, k)]), i)
  {}

  lemma TakeIndirectStep(sb: Super, s: Snap, i: nat, k: nat, b: nat)
    requires Core(sb, s) == true && i < |s.inode| && NDIRECT < k < SLOTS && s.tree[i].at[k] == 0
    requires s.tree[i].at[NDIRECT] != 0 && b < sb.size && !Used(sb, s.blocks, b)
    ensures s.inode[i].addrs[NDIRECT] < sb.size && b > 0
    ensures var t := TakeIndirect(sb, s, i, k, b); Core(sb, t) && Grown(sb, s, t, i)
  {
    FreeIsUnowned(sb, s, b);
    TakeIndirectKeeps(sb, s, i, k, b);
    assert TreeOk(s.blocks, s.inode[i], s.tree[i]) && s.owner[s.tree[i].at[NDIRECT]] == Slot(i, NDIRECT);
    TakeIndirectGrows(sb, s, i, k, b);
  }

  lemma GrownTwice(sb: Super, s: Snap, t: Snap, u: Snap, i: nat)
    requires Shaped(sb, s.blocks) && Shaped(sb, t.blocks) && Shaped(sb, u.blocks)
    requires Here(s, i) && Here(t, i) && Here(u, i)
    requires Grown(sb, s, t, i) == true && Grown(sb, t, u, i) == true
    ensures Grown(sb, s, u, i)
  {}

  lemma BitPlace(sb: Super, b: nat, bi: nat)
    requires SuperOk(sb) && b % BPB == 0 && bi < BPB && b + bi < sb.size
    ensures BitmapBlock(sb, b + bi) == BitmapBlock(sb, b) && (b + bi) % BPB == bi && InBitmap(sb, BitmapBlock(sb, b))
  {}

  /* Bytes of files. */

  predicate HasByte(s: Snap, i: nat, x: nat) {
    i < |s.tree| && |s.tree[i].at| == SLOTS && x < MAXFILE * BSIZE && s.tree[i].at[DataSlot(x / BSIZE)] != 0
  }

  function ByteAt(s: Snap, i: nat, x: nat): Byte {
    if HasByte(s, i, x) && s.tree[i].at[DataSlot(x / BSIZE)] < |s.blocks|
    then s.blocks[s.tree[i].at[DataSlot(x / BSIZE)]].bytes[x % BSIZE] else 0
  }

  /** What a reader of the whole file sees. */
  function Content(s: Snap, i: nat): (c: seq<Byte>)
    requires i < |s.inode|
    ensures |c| == s.inode[i].size
  {
    seq(s.inode[i].size, x requires 0 <= x < s.inode[i].size => ByteAt(s, i, x))
  }

  /** Where the n-th block of a file is, as bmap reads it from the inode and the indirect block; 0 for nowhere. */
  function Address(blocks: seq<Block>, ip: Inode, n: nat): nat
    requires InodeOk(ip) && n < MAXFILE && ip.addrs[NDIRECT] < |blocks|
  {
    if n < 12 then ip.addrs[n]
    else if ip.addrs[12] == 0 then 0
    else WordAt(blocks[ip.addrs[12]], n - 12)
  }

  lemma IndirectHere(sb: Super, s: Snap, i: nat)
    requires Core(sb, s) && i < |s.inode|
    ensures |s.tree| == |s.inode| && |s.blocks| == sb.size && TreeOk(s.blocks, s.inode[i], s.tree[i]) == true
    ensures InodeOk(s.inode[i]) && s.inode[i].addrs[NDIRECT] < sb.size
  {
    assert TreeOk(s.blocks, s.inode[i], s.tree[i]);
    assert s.tree[i].at[NDIRECT] == s.inode[i].addrs[NDIRECT];
  }

  /** The slots of a tree are those addresses. */
  lemma AddressIs(sb: Super, s: Snap, i: nat, n: nat)
    requires Core(sb, s) == true && i < |s.inode| && n < MAXFILE
    ensures InodeOk(s.inode[i]) && s.inode[i].addrs[NDIRECT] < |s.blocks| && |s.tree| == |s.inode|
    ensures |s.tree[i].at| == SLOTS && s.tree[i].at[DataSlot(n)] == Address(s.blocks, s.inode[i], n)
  {
    IndirectHere(sb, s, i);
    TreeAddress(s.blocks, s.inode[i], s.tree[i], n);
  }

  lemma TreeAddress(blocks: seq<Block>, ip: Inode, t: Tree, n: nat)
    requires TreeOk(blocks, ip, t) && ip.addrs[NDIRECT] < |blocks| && n < MAXFILE
    ensures t.at[DataSlot(n)] == Address(blocks, ip, n)
  {
    assert n >= NDIRECT ==> t.at[n + 1] == Entry(blocks, ip.addrs[NDIRECT], n + 1);
  }

  /** The bytes of a file are those of the blocks its inode leads to, in order. */
  lemma ContentAt(sb: Super, s: Snap, i: nat, x: nat)
    requires Consistent(sb, s) == true && i < |s.inode| && x < s.inode[i].size
    ensures x / BSIZE < MAXFILE && InodeOk(s.inode[i]) && s.inode[i].addrs[NDIRECT] < |s.blocks|
    ensures var a := Address(s.blocks, s.inode[i], x / BSIZE);
            0 < a < |s.blocks| && Content(s, i)[x] == s.blocks[a].bytes[x % BSIZE]
  {
    ConsistentCore(sb, s);
    DenseBelow(sb, s, i, x);
    AddressIs(sb, s, i, x / BSIZE);
    OwnedBelow(sb, s, i, DataSlot(x / BSIZE));
  }

  lemma OwnedBelow(sb: Super, s: Snap, i: nat, k: nat)
    requires Core(sb, s) && i < |s.inode| && k < SLOTS
    ensures |s.tree| == |s.inode| && |s.tree[i].at| == SLOTS && s.tree[i].at[k] < |s.blocks|
  {
    assert s.tree[i].at[k] != 0 ==> s.tree[i].at[k] in s.owner;
  }

  /** Every byte below the size of a file has a block. */
  ghost predicate Dense(s: Snap) {
    forall i, x :: 0 <= i < |s.inode| && 0 <= x < s.inode[i].size ==> HasByte(s, i, x)
  }

  /** From s to t only the blocks, the addresses and the bytes of inode i may have changed. */
  ghost predicate Only(sb: Super, s: Snap, t: Snap, i: nat) {
    && |t.inode| == |s.inode| && |t.tree| == |s.tree| == |s.inode| && i < |s.inode| && |t.blocks| == |s.blocks|
    && (forall j :: 0 <= j < |s.inode| && j != i ==> t.inode[j] == s.inode[j] && t.tree[j] == s.tree[j])
    && t.inode[i] == s.inode[i].(addrs := t.inode[i].addrs)
    && (forall b :: b in s.owner ==> b in t.owner && t.owner[b] == s.owner[b])
    && (forall b :: b in s.owner && b < |s.blocks| && s.owner[b].k != NDIRECT && s.owner[b].inode != i ==>
      t.blocks[b] == s.blocks[b])
    && (forall b :: 0 <= b < sb.bmapstart && b < |s.blocks| ==> t.blocks[b] == s.blocks[b])
  }

  /** From s to t the bytes of src have been stored in file i at off, and every other byte has its old value. */
  ghost predicate Wrote(s: Snap, t: Snap, i: nat, off: nat, src: seq<Byte>) {
    forall x :: 0 <= x && (HasByte(s, i, x) || off <= x < off + |src|) ==>
      HasByte(t, i, x) && ByteAt(t, i, x) == if off <= x < off + |src| then src[x - off] else ByteAt(s, i, x)
  }

  lemma WroteNext(s: Snap, t: Snap, u: Snap, i: nat, off: nat, a: seq<Byte>, b: seq<Byte>)
    requires Wrote(s, t, i, off, a) == true && Wrote(t, u, i, off + |a|, b) == true
    ensures Wrote(s, u, i, off, a + b)
  {}

  lemma OnlyNext(sb: Super, s: Snap, t: Snap, u: Snap, i: nat)
    requires Only(sb, s, t, i) == true && Only(sb, t, u, i) == true
    ensures Only(sb, s, u, i)
  {}

  /** Growing a file changes no byte. */
  lemma GrownWrote(sb: Super, s: Snap, t: Snap, i: nat, off: nat)
    requires Core(sb, s) == true && Core(sb, t) == true && i < sb.ninodes && Grown(sb, s, t, i) == true
    ensures Wrote(s, t, i, off, []) && Only(sb, s, t, i)
  {
    forall x | 0 <= x && HasByte(s, i, x) ensures HasByte(t, i, x) && ByteAt(t, i, x) == ByteAt(s, i, x) {
      var k := DataSlot(x / BSIZE);
      assert s.tree[i].at[k] in s.owner && s.owner[s.tree[i].at[k]] == Slot(i, k);
    }
  }

  lemma OtherByte(sb: Super, s: Snap, t: Snap, i: nat, j: nat, x: nat)
    requires OwnersOk(sb, s.tree, s.owner) == true && Only(sb, s, t, i) == true && j < |s.inode| && j != i
    ensures ByteAt(t, j, x) == ByteAt(s, j, x)
  {
    if HasByte(s, j, x) {
      var k := DataSlot(x / BSIZE);
      assert s.tree[j].at[k] in s.owner && s.owner[s.tree[j].at[k]] == Slot(j, k);
    }
  }

  /** The other files are what they were. */
  lemma OthersKept(sb: Super, s: Snap, t: Snap, i: nat, j: nat)
    requires Core(sb, s) == true && Only(sb, s, t, i) == true && j < sb.ninodes && j != i
    ensures |s.inode| == |t.inode| == sb.ninodes && Content(t, j) == Content(s, j)
  {
    forall x | 0 <= x < s.inode[j].size ensures ByteAt(t, j, x) == ByteAt(s, j, x) { OtherByte(sb, s, t, i, j, x); }
  }

  /** memmove into a buffer. */
  function Overlay(blk: Block, o: nat, data: seq<Byte>): Block
    requires o + |data| <= BSIZE
  {
    Data(blk.bytes[..o] + data + blk.bytes[o + |data|..])
  }

  function Stored(s: Snap, b: nat, y: Block): Snap
    requires b < |s.blocks|
  {
    s.(blocks := s.blocks[b := y])
  }

  /** A change to a data block leaves the structure alone. */
  lemma StoreDataKeeps(sb: Super, s: Snap, b: nat, y: Block)
    requires Core(sb, s) == true && b in s.owner && s.owner[b].k != NDIRECT
    ensures Core(sb, Stored(s, b, y))
  {
    var t := Stored(s, b, y);
    SameBitmap(sb, s.blocks, t.blocks, s.owner);
    forall j | 0 <= j < |t.inode| ensures TreeOk(t.blocks, t.inode[j], t.tree[j]) {
      assert TreeOk(s.blocks, s.inode[j], s.tree[j]);
      assert s.tree[j].at[NDIRECT] == s.inode[j].addrs[NDIRECT];
      StoreElsewhere(s.blocks, t.blocks, s.inode[j], s.tree[j]);
    }
  }

  lemma StoreDataWrote(sb: Super, s: Snap, i: nat, off: nat, data: seq<Byte>, b: nat)
    requires OwnersOk(sb, s.tree, s.owner) && i < |s.tree| == |s.inode| && |s.blocks| == sb.size
    requires HasByte(s, i, off) && b == s.tree[i].at[DataSlot(off / BSIZE)] < sb.size && off % BSIZE + |data| <= BSIZE
    ensures Wrote(s, Stored(s, b, Overlay(s.blocks[b], off % BSIZE, data)), i, off, data)
  {
    var y := Overlay(s.blocks[b], off % BSIZE, data);
    var t := Stored(s, b, y);
    assert s.owner[s.tree[i].at[DataSlot(off / BSIZE)]] == Slot(i, DataSlot(off / BSIZE));
    forall x | 0 <= x && (HasByte(s, i, x) || off <= x < off + |data|)
      ensures HasByte(t, i, x) && ByteAt(t, i, x) == if off <= x < off + |data| then data[x - off] else ByteAt(s, i, x)
    {
      SameChunk(off, |data|, x);
      if x / BSIZE == off / BSIZE {
        assert y.bytes[x % BSIZE] == if off <= x < off + |data| then data[x - off] else s.blocks[b].bytes[x % BSIZE];
      } else {
        assert s.owner[s.tree[i].at[DataSlot(x / BSIZE)]] == Slot(i, DataSlot(x / BSIZE));
      }
    }
  }

  /** Where x lies against a range inside one block. */
  lemma SameChunk(off: nat, m: nat, x: nat)
    requires off % BSIZE + m <= BSIZE
    ensures off <= x < off + m ==> x / BSIZE == off / BSIZE
    ensures x / BSIZE == off / BSIZE ==> x - off == x % BSIZE - off % BSIZE
  {}

  lemma StoreDataOnly(sb: Super, s: Snap, i: nat, b: nat, y: Block)
    requires Core(sb, s) == true && i < sb.ninodes && b in s.owner && s.owner[b].inode == i
    ensures Only(sb, s, Stored(s, b, y), i)
  {}

  lemma StoreStep(sb: Super, t: Snap, i: nat, off: nat, data: seq<Byte>, b: nat)
    requires Core(sb, t) == true && i < sb.ninodes && off / BSIZE < MAXFILE
    requires b == t.tree[i].at[DataSlot(off / BSIZE)] != 0 && b < sb.size && off % BSIZE + |data| <= BSIZE
    ensures var u := Stored(t, b, Overlay(t.blocks[b], off % BSIZE, data));
            Core(sb, u) && Only(sb, t, u, i) && Wrote(t, u, i, off, data) && HasByte(u, i, off)
  {
    var y := Overlay(t.blocks[b], off % BSIZE, data);
    assert t.owner[t.tree[i].at[DataSlot(off / BSIZE)]] == Slot(i, DataSlot(off / BSIZE));
    StoreDataKeeps(sb, t, b, y);
    StoreDataOnly(sb, t, i, b, y);
    StoreDataWrote(sb, t, i, off, data, b);
  }

  lemma ThenWrote(sb: Super, s: Snap, t: Snap, u: Snap, i: nat, off: nat, data: seq<Byte>)
    requires Only(sb, s, t, i) == true && Wrote(s, t, i, off, []) == true && Only(sb, t, u, i) == true
    requires Wrote(t, u, i, off, data) == true
    ensures Only(sb, s, u, i) && Wrote(s, u, i, off, data)
  {
    OnlyNext(sb, s, t, u, i);
    WroteNext(s, t, u, i, off, [], data);
    assert [] + data == data;
  }

  /* A whole write. */

  /** c with data at off. */
  function Splice(c: seq<Byte>, off: nat, data: seq<Byte>): seq<Byte>
    requires off <= |c|
  {
    c[..off] + data + if off + |data| <= |c| then c[off + |data|..] else []
  }

  /** Byte for byte: data at off, c everywhere else. */
  lemma SpliceIs(c: seq<Byte>, off: nat, data: seq<Byte>, x: nat)
    requires off <= |c|
    ensures |Splice(c, off, data)| == if off + |data| > |c| then off + |data| else |c|
    ensures x < |Splice(c, off, data)| ==>
      Splice(c, off, data)[x] == if off <= x < off + |data| then data[x - off] else c[x]
  {}

  function Max(a: nat, b: nat): nat { if a < b then b else a }

  /** How far writei and readi count when only `good` of n bytes can be copied: whole chunks. */
  function Counted(off: nat, n: nat, good: nat): (tot: nat)
    requires good <= n
    ensures tot <= good && (good == n ==> tot == n)
  {
    if good == n then n
    else if (off + good) / BSIZE * BSIZE <= off then 0 else (off + good) / BSIZE * BSIZE - off
  }

  /** Every block boundary that was reached counts, and nothing after the last of them. */
  lemma CountedMost(off: nat, n: nat, good: nat, c: nat)
    requires good < n
    ensures Counted(off, n, good) == 0 || (off + Counted(off, n, good)) % BSIZE == 0
    ensures off < c <= off + good && c % BSIZE == 0 ==> c <= off + Counted(off, n, good)
  {}

  /** A transfer of n bytes from off only ever pauses at the end of a block. */
  predicate AtBoundary(off: nat, tot: nat, n: nat) {
    tot == 0 || tot == n || (off + tot) % BSIZE == 0
  }

  /** `min(n - tot, BSIZE - off%BSIZE)`: to the end of the request or of the block. */
  function ChunkLen(off: nat, tot: nat, n: nat): (m: nat)
    requires tot < n
    ensures 0 < m <= n - tot && (off + tot) % BSIZE + m <= BSIZE && AtBoundary(off, tot + m, n)
  {
    if n - tot < BSIZE - (off + tot) % BSIZE then n - tot else BSIZE - (off + tot) % BSIZE
  }

  lemma ChunkInside(off: nat, n: nat, cur: nat)
    requires off <= cur < off + n
    ensures off / BSIZE <= cur / BSIZE < (off + n + BSIZE - 1) / BSIZE
  {}

  lemma CountedAll(off: nat, n: nat)
    ensures Counted(off, n, n) == n && AtBoundary(off, 0, n) == true
  {}

  lemma ChunkStops(off: nat, tot: nat, n: nat, good: nat)
    requires tot <= good < n && AtBoundary(off, tot, n) && good - tot < ChunkLen(off, tot, n)
    ensures Counted(off, n, good) == tot
  {}

  /** k bytes at cur lie in one block. */
  predicate Fits(cur: nat, k: nat) { cur % BSIZE + k <= BSIZE }

  /** The next chunk of a transfer of n bytes from off, of which only good can be had; stop when it is not whole. */
  method NextChunk(off: nat, tot: nat, n: nat, good: nat) returns (got: nat, stop: bool)
    requires tot < n && tot <= good <= n && AtBoundary(off, tot, n) == true
    ensures tot + got <= good && Fits(off + tot, got) == true
    ensures if stop then tot + got == good < n && Counted(off, n, good) == tot
            else got > 0 && AtBoundary(off, tot + got, n) == true
  {
    var m := ChunkLen(off, tot, n);
    got := if good - tot < m then good - tot else m;
    stop := got < m;
    if stop { ChunkStops(off, tot, n, good); }
  }

  function Resized(s: Snap, i: nat, size: nat): Snap
    requires i < |s.inode| && size < WORD_LIMIT
  {
    s.(inode := s.inode[i := s.inode[i].(size := size)])
  }

  lemma WroteContent(sb: Super, s: Snap, t: Snap, i: nat, off: nat, src: seq<Byte>, size: nat)
    requires Only(sb, s, t, i) == true && Wrote(s, t, i, off, src) == true && Dense(s)
    requires off <= s.inode[i].size <= size <= Max(s.inode[i].size, off + |src|) && size < WORD_LIMIT
    ensures Content(Resized(t, i, size), i) == Splice(Content(s, i), off, src)[..size]
    ensures forall x :: 0 <= x < size ==> HasByte(Resized(t, i, size), i, x)
  {
    var u, c := Resized(t, i, size), Splice(Content(s, i), off, src);
    forall x | 0 <= x < size ensures HasByte(u, i, x) && ByteAt(u, i, x) == c[x] {
      assert HasByte(s, i, x) || off <= x < off + |src|;
      assert HasByte(t, i, x) && ByteAt(t, i, x) == if off <= x < off + |src| then src[x - off] else ByteAt(s, i, x);
    }
  }

  lemma ResizedDense(sb: Super, s: Snap, t: Snap, i: nat, size: nat)
    requires Only(sb, s, t, i) == true && Dense(s) && size < WORD_LIMIT
    requires forall x :: 0 <= x < size ==> HasByte(Resized(t, i, size), i, x)
    ensures Dense(Resized(t, i, size))
  {
    var u := Resized(t, i, size);
    forall j, x | 0 <= j < |u.inode| && 0 <= x < u.inode[j].size ensures HasByte(u, j, x) {
      if j != i { assert HasByte(s, j, x); }
    }
  }

  lemma ResizedCore(sb: Super, s: Snap, i: nat, size: nat)
    requires Core(sb, s) == true && i < sb.ninodes && size < WORD_LIMIT
    ensures Core(sb, Resized(s, i, size))
  {
    var t := Resized(s, i, size);
    forall j | 0 <= j < |t.inode| ensures TreeOk(t.blocks, t.inode[j], t.tree[j]) {
      assert TreeOk(s.blocks, s.inode[j], s.tree[j]);
    }
  }

  /** iupdate: the in-core inode goes to its block. */
  function Flushed(sb: Super, s: Snap, i: nat): Snap
    requires Shaped(sb, s.blocks) && i < sb.ninodes && i < |s.inode| && InodeOk(s.inode[i])
  {
    s.(blocks := StoreInode(sb, s.blocks, i, s.inode[i]))
  }

  lemma FlushedCore(sb: Super, s: Snap, i: nat)
    requires Core(sb, s) == true && i < sb.ninodes && InodeOk(s.inode[i])
    ensures Core(sb, Flushed(sb, s, i))
  {
    var t := Flushed(sb, s, i);
    SameBitmap(sb, s.blocks, t.blocks, s.owner);
    forall j | 0 <= j < |t.inode| ensures TreeOk(t.blocks, t.inode[j], t.tree[j]) {
      assert TreeOk(s.blocks, s.inode[j], s.tree[j]);
      assert s.tree[j].at[NDIRECT] == s.inode[j].addrs[NDIRECT];
      StoreElsewhere(s.blocks, t.blocks, s.inode[j], s.tree[j]);
    }
  }

  lemma FlushedContent(sb: Super, s: Snap, i: nat, j: nat)
    requires Core(sb, s) == true && i < sb.ninodes && InodeOk(s.inode[i]) && j < sb.ninodes
    ensures Content(Flushed(sb, s, i), j) == Content(s, j)
  {
    var t := Flushed(sb, s, i);
    forall x | 0 <= x < s.inode[j].size ensures ByteAt(t, j, x) == ByteAt(s, j, x) {
      if HasByte(s, j, x) {
        assert s.tree[j].at[DataSlot(x / BSIZE)] in s.owner;
      }
    }
  }

  /** The inode blocks hold the in-core inodes. */
  ghost predicate Synced(sb: Super, s: Snap)
    requires Shaped(sb, s.blocks)
  {
    |s.inode| == sb.ninodes && forall i :: 0 <= i < sb.ninodes ==> DiskInode(sb, s.blocks, i) == s.inode[i]
  }

  lemma FlushedSynced(sb: Super, s: Snap, t: Snap, i: nat)
    requires Shaped(sb, s.blocks) && Shaped(sb, t.blocks) && Synced(sb, s) && i < sb.ninodes
    requires |t.inode| == sb.ninodes && InodeOk(t.inode[i])
    requires forall j :: 0 <= j < sb.ninodes && j != i ==> t.inode[j] == s.inode[j]
    requires forall b :: 0 <= b < sb.bmapstart ==> t.blocks[b] == s.blocks[b]
    ensures Synced(sb, Flushed(sb, t, i))
  {
    forall j | 0 <= j < sb.ninodes ensures DiskInode(sb, Flushed(sb, t, i).blocks, j) == t.inode[j] {
      StoreInodeAt(sb, t.blocks, i, t.inode[i], j);
      assert InodeBlock(sb, j) < sb.bmapstart;
      assert DiskInode(sb, s.blocks, j) == s.inode[j];
    }
  }

  ghost predicate Consistent(sb: Super, s: Snap) {
    Core(sb, s) && Dense(s) && Synced(sb, s)
  }

  /** From s to t data has been stored at off in file i, with everything else in its place. */
  ghost predicate Progress(sb: Super, s: Snap, t: Snap, i: nat, off: nat, data: seq<Byte>) {
    Core(sb, t) && Only(sb, s, t, i) && Wrote(s, t, i, off, data)
  }

  lemma WriteFinish(sb: Super, s: Snap, t: Snap, i: nat, off: nat, src: seq<Byte>, size: nat)
    requires Consistent(sb, s) == true && i < sb.ninodes && Progress(sb, s, t, i, off, src) == true
    requires off <= s.inode[i].size <= size <= Max(s.inode[i].size, off + |src|) && size < WORD_LIMIT
    ensures InodeOk(Resized(t, i, size).inode[i]) && Consistent(sb, Flushed(sb, Resized(t, i, size), i)) == true
  {
    var v := Resized(t, i, size);
    WroteContent(sb, s, t, i, off, src, size);
    ResizedDense(sb, s, t, i, size);
    ResizedCore(sb, t, i, size);
    assert TreeOk(v.blocks, v.inode[i], v.tree[i]);
    FlushedCore(sb, v, i);
    FlushedSynced(sb, s, v, i);
    FlushedDense(sb, v, i);
  }

  lemma FlushedDense(sb: Super, s: Snap, i: nat)
    requires Core(sb, s) == true && Dense(s) && i < sb.ninodes && InodeOk(s.inode[i])
    ensures Dense(Flushed(sb, s, i))
  {
    var t := Flushed(sb, s, i);
    forall j, x | 0 <= j < |t.inode| && 0 <= x < t.inode[j].size ensures HasByte(t, j, x) {
      assert HasByte(s, j, x);
    }
  }

  lemma WriteFinishContent(sb: Super, s: Snap, t: Snap, i: nat, off: nat, src: seq<Byte>, size: nat, j: nat)
    requires Consistent(sb, s) == true && i < sb.ninodes && Progress(sb, s, t, i, off, src) == true
    requires off <= s.inode[i].size <= size <= Max(s.inode[i].size, off + |src|) && size < WORD_LIMIT && j < sb.ninodes
    requires InodeOk(Resized(t, i, size).inode[i])
    ensures Content(Flushed(sb, Resized(t, i, size), i), j) ==
            if j == i then Splice(Content(s, i), off, src)[..size] else Content(s, j)
  {
    var v := Resized(t, i, size);
    ResizedCore(sb, t, i, size);
    FlushedContent(sb, v, i, j);
    if j == i {
      WroteContent(sb, s, t, i, off, src, size);
    } else {
      OthersKept(sb, s, t, i, j);
      assert Content(v, j) == Content(t, j) by {
        forall x | 0 <= x < t.inode[j].size ensures ByteAt(v, j, x) == ByteAt(t, j, x) {}
      }
    }
  }

  /* What an operation on inode i gives to log_write. */

  /** The place of a data slot in the file. */
  function Nth(k: nat): int { if k < NDIRECT then k else k - 1 }

  /** The blocks in now but not in was: bitmap blocks, the indirect block, and blocks lo..hi of file i. */
  ghost predicate Charged(sb: Super, s: Snap, i: nat, lo: nat, hi: nat, was: set<nat>, now: set<nat>) {
    forall b :: b in now ==>
      b in was || InBitmap(sb, b) ||
      (b in s.owner && s.owner[b].inode == i && (s.owner[b].k == NDIRECT || lo <= Nth(s.owner[b].k) < hi))
  }

  lemma ChargedNext(sb: Super, s: Snap, t: Snap, i: nat, lo: nat, n: nat, hi: nat, a: set<nat>, b: set<nat>,
                    c: set<nat>)
    requires Only(sb, s, t, i) == true && Charged(sb, s, i, lo, hi, a, b) == true
    requires Charged(sb, t, i, n, n + 1, b, c) == true && lo <= n < hi
    ensures Charged(sb, t, i, lo, hi, a, c)
  {}

  lemma ChargeChunk(sb: Super, t: Snap, i: nat, n: nat, b: nat, was: set<nat>, now: set<nat>)
    requires OwnersOk(sb, t.tree, t.owner) && i < |t.tree| && n < MAXFILE && b == t.tree[i].at[DataSlot(n)] != 0
    requires forall c :: c in now ==> c in was || InBitmap(sb, c) || c == b || 0 != c == t.tree[i].at[NDIRECT]
    ensures Charged(sb, t, i, n, n + 1, was, now + {b})
  {
    assert t.owner[t.tree[i].at[DataSlot(n)]] == Slot(i, DataSlot(n));
    if t.tree[i].at[NDIRECT] != 0 { assert t.owner[t.tree[i].at[NDIRECT]] == Slot(i, NDIRECT); }
  }

  lemma ChunkStep(sb: Super, s: Snap, t: Snap, i: nat, off: nat, data: seq<Byte>, b: nat)
    requires Core(sb, s) == true && Core(sb, t) == true && i < sb.ninodes
    requires Grown(sb, s, t, i) == true && off / BSIZE < MAXFILE
    requires b == t.tree[i].at[DataSlot(off / BSIZE)] != 0 && b < sb.size && off % BSIZE + |data| <= BSIZE
    ensures Progress(sb, s, Stored(t, b, Overlay(t.blocks[b], off % BSIZE, data)), i, off, data)
  {
    GrownWrote(sb, s, t, i, off);
    StoreStep(sb, t, i, off, data, b);
    ThenWrote(sb, s, t, Stored(t, b, Overlay(t.blocks[b], off % BSIZE, data)), i, off, data);
  }

  /** What writei's loop has done after tot bytes of n. */
  ghost predicate Written(sb: Super, s: Snap, t: Snap, i: nat, off: nat, src: seq<Byte>, n: nat, was: set<nat>,
                          now: set<nat>) {
    Progress(sb, s, t, i, off, src) && Charged(sb, t, i, off / BSIZE, (off + n + BSIZE - 1) / BSIZE, was, now)
  }

  lemma WrittenStart(sb: Super, s: Snap, i: nat, off: nat, src: seq<Byte>, n: nat, l: set<nat>)
    requires Core(sb, s) == true && i < sb.ninodes
    ensures Written(sb, s, s, i, off, src[..0], n, l, l)
  {}

  lemma WrittenCore(sb: Super, s: Snap, t: Snap, i: nat, off: nat, src: seq<Byte>, n: nat, was: set<nat>, now: set<nat>)
    requires Written(sb, s, t, i, off, src, n, was, now) == true
    ensures Core(sb, t) == true
  {}

  lemma WrittenNext(sb: Super, s: Snap, t: Snap, u: Snap, i: nat, off: nat, cur: nat, src: seq<Byte>, tot: nat,
                    next: nat, piece: seq<Byte>, n: nat, a: set<nat>, b: set<nat>, c: set<nat>)
    requires tot <= next <= |src| <= n && tot < n && cur == off + tot && piece == src[tot..next]
    requires Written(sb, s, t, i, off, src[..tot], n, a, b) == true && Progress(sb, t, u, i, cur, piece) == true
    requires Charged(sb, u, i, cur / BSIZE, cur / BSIZE + 1, b, c) == true
    ensures Written(sb, s, u, i, off, src[..next], n, a, c) == true
  {
    assert src[..tot] + piece == src[..next];
    ProgressNext(sb, s, t, u, i, off, cur, src[..tot], piece, src[..next]);
    ChunkInside(off, n, cur);
    ChargedNext(sb, t, u, i, off / BSIZE, cur / BSIZE, (off + n + BSIZE - 1) / BSIZE, a, b, c);
  }

  lemma InsideFile(off: nat, n: nat, cur: nat)
    requires off <= cur < off + n <= MAXFILE * BSIZE
    ensures cur / BSIZE < MAXFILE
  {}

  lemma ProgressNext(sb: Super, s: Snap, t: Snap, u: Snap, i: nat, off: nat, cur: nat, a: seq<Byte>, b: seq<Byte>,
                     c: seq<Byte>)
    requires cur == off + |a| && c == a + b && Only(sb, s, t, i) == true && Only(sb, t, u, i) == true
    requires Wrote(s, t, i, off, a) == true && Wrote(t, u, i, cur, b) == true
    ensures Only(sb, s, u, i) == true && Wrote(s, u, i, off, c) == true
  {
    OnlyNext(sb, s, t, u, i);
    WroteNext(s, t, u, i, off, a, b);
  }

  /* The write budget. */

  function Range(lo: nat, n: nat): (r: set<nat>)
    ensures |r| <= n && forall b :: b in r <==> lo <= b < lo + n
  {
    if n == 0 then {} else Range(lo, n - 1) + {lo + n - 1}
  }

  /** The addresses of blocks lo..hi of a file. */
  function FileBlocks(t: Tree, lo: nat, hi: nat): (r: set<nat>)
    requires lo <= hi <= MAXFILE && |t.at| == SLOTS
    ensures |r| <= hi - lo && forall n :: lo <= n < hi ==> t.at[DataSlot(n)] in r
    decreases hi
  {
    if lo == hi then {} else FileBlocks(t, lo, hi - 1) + {t.at[DataSlot(hi - 1)]}
  }

  lemma Within(a: set<nat>, b: set<nat>)
    requires forall x :: x in a ==> x in b
    ensures |a| <= |b|
    decreases a
  {
    if a != {} {
      var x :| x in a;
      Within(a - {x}, b - {x});
    }
  }

  /** Everything an operation on blocks lo..hi of file i logs. */
  function Allowance(sb: Super, s: Snap, i: nat, lo: nat, hi: nat): (r: set<nat>)
    requires SuperOk(sb) && i < |s.tree| && |s.tree[i].at| == SLOTS && lo <= hi <= MAXFILE
  {
    Range(sb.bmapstart, sb.datastart - sb.bmapstart) + FileBlocks(s.tree[i], lo, hi)
      + {s.tree[i].at[NDIRECT], InodeBlock(sb, i)}
  }

  lemma AllowanceSize(sb: Super, s: Snap, i: nat, lo: nat, hi: nat)
    requires SuperOk(sb) && i < |s.tree| && |s.tree[i].at| == SLOTS && lo <= hi <= MAXFILE
    ensures |Allowance(sb, s, i, lo, hi)| <= sb.datastart - sb.bmapstart + (hi - lo) + 2
  {
    var a, b := Range(sb.bmapstart, sb.datastart - sb.bmapstart), FileBlocks(s.tree[i], lo, hi);
    var c := {s.tree[i].at[NDIRECT], InodeBlock(sb, i)};
    assert |a + b| <= |a| + |b| && |a + b + c| <= |a + b| + |c|;
  }

  lemma ChargedWithin(sb: Super, s: Snap, i: nat, lo: nat, hi: nat, now: set<nat>, b: nat)
    requires Core(sb, s) == true && i < |s.tree| && lo <= hi <= MAXFILE && Charged(sb, s, i, lo, hi, {}, now) == true
    requires b in now + {InodeBlock(sb, i)}
    ensures b in Allowance(sb, s, i, lo, hi)
  {
    if b != InodeBlock(sb, i) && !InBitmap(sb, b) && s.owner[b].k != NDIRECT {
      assert s.tree[i].at[s.owner[b].k] == b && DataSlot(Nth(s.owner[b].k)) == s.owner[b].k;
    }
  }

  /** At most one block for each bitmap block, one for each file block touched, the indirect block and the inode. */
  lemma BudgetHolds(sb: Super, s: Snap, i: nat, lo: nat, hi: nat, now: set<nat>)
    requires Core(sb, s) == true && i < |s.tree| && lo <= hi <= MAXFILE && Charged(sb, s, i, lo, hi, {}, now) == true
    ensures |now + {InodeBlock(sb, i)}| <= sb.datastart - sb.bmapstart + (hi - lo) + 2
  {
    forall b | b in now + {InodeBlock(sb, i)} ensures b in Allowance(sb, s, i, lo, hi) {
      ChargedWithin(sb, s, i, lo, hi, now, b);
    }
    Within(now + {InodeBlock(sb, i)}, Allowance(sb, s, i, lo, hi));
    AllowanceSize(sb, s, i, lo, hi);
  }

  lemma SpanSize(off: nat, n: nat)
    requires n <= 3 * BSIZE
    ensures (off + n + BSIZE - 1) / BSIZE - off / BSIZE <= 4
  {}

  /**
   writei's promise: file i is spliced with src, up to the last whole chunk when src falls short of n; the other files
   are what they were.
   */
  ghost predicate FileWritten(sb: Super, s: Snap, t: Snap, i: nat, off: nat, src: seq<Byte>, n: nat)
    requires i < |s.inode| && off <= s.inode[i].size && |src| <= n
  {
    && Consistent(sb, t) && |t.inode| == |s.inode|
    && Content(t, i) == Splice(Content(s, i), off, src)[..Max(s.inode[i].size, off + Counted(off, n, |src|))]
    && forall j :: 0 <= j < |s.inode| && j != i ==> Content(t, j) == Content(s, j)
  }

  lemma SpliceBack(c: seq<Byte>, off: nat, src: seq<Byte>)
    requires off <= |c|
    ensures off + |src| <= |Splice(c, off, src)| && Splice(c, off, src)[off..off + |src|] == src
  {}

  lemma WrittenContent(sb: Super, s: Snap, t: Snap, i: nat, off: nat, src: seq<Byte>)
    requires i < |s.inode| && off <= s.inode[i].size && FileWritten(sb, s, t, i, off, src, |src|)
    ensures i < |t.inode| && Content(t, i) == Splice(Content(s, i), off, src)
  {
    CountedAll(off, |src|);
  }

  /** A read of what was written gives it back. */
  lemma ReadBack(sb: Super, s: Snap, t: Snap, i: nat, off: nat, src: seq<Byte>)
    requires i < |s.inode| && off <= s.inode[i].size && FileWritten(sb, s, t, i, off, src, |src|) == true
    ensures i < |t.inode| && off + |src| <= |Content(t, i)| && Content(t, i)[off..off + |src|] == src
  {
    WrittenContent(sb, s, t, i, off, src);
    SpliceBack(Content(s, i), off, src);
  }

  lemma FileWrittenFrom(sb: Super, s: Snap, t: Snap, i: nat, off: nat, src: seq<Byte>, n: nat, size: nat)
    requires Consistent(sb, s) == true && i < sb.ninodes && |src| <= n && off <= s.inode[i].size && off + n < WORD_LIMIT
    requires Progress(sb, s, t, i, off, src) == true && size == Max(s.inode[i].size, off + Counted(off, n, |src|))
    ensures InodeOk(Resized(t, i, size).inode[i])
    ensures FileWritten(sb, s, Flushed(sb, Resized(t, i, size), i), i, off, src, n) == true
  {
    WriteFinish(sb, s, t, i, off, src, size);
    forall j | 0 <= j < sb.ninodes
      ensures Content(Flushed(sb, Resized(t, i, size), i), j) ==
              if j == i then Splice(Content(s, i), off, src)[..size] else Content(s, j)
    {
      WriteFinishContent(sb, s, t, i, off, src, size, j);
    }
  }

  /** Nothing to write. */
  lemma FileUnwritten(sb: Super, s: Snap, i: nat, off: nat)
    requires Consistent(sb, s) == true && i < sb.ninodes && off <= s.inode[i].size
    ensures FileWritten(sb, s, s, i, off, [], 0)
  {
    SpliceNothing(Content(s, i), off);
  }

  lemma SpliceNothing(c: seq<Byte>, off: nat)
    requires off <= |c|
    ensures Splice(c, off, [])[..|c|] == c
  {}

  /** All of these are inode, bitmap or data blocks. */
  ghost predicate InRange(sb: Super, l: set<nat>) { forall b :: b in l ==> sb.inodestart <= b < sb.size }

  lemma WriteRange(sb: Super, s: Snap, t: Snap, i: nat, off: nat, src: seq<Byte>, n: nat, was: set<nat>, now: set<nat>)
    requires i < sb.ninodes && Written(sb, s, t, i, off, src, n, was, now) == true && InRange(sb, was) == true
    ensures InRange(sb, now + {InodeBlock(sb, i)}) == true
  {}

  lemma WriteBudget(sb: Super, s: Snap, t: Snap, i: nat, off: nat, src: seq<Byte>, n: nat, now: set<nat>)
    requires i < sb.ninodes && Written(sb, s, t, i, off, src, n, {}, now) == true
    requires n <= 3 * BSIZE && off + n <= MAXFILE * BSIZE
    ensures |now + {InodeBlock(sb, i)}| <= sb.datastart - sb.bmapstart + 6
  {
    SpanSize(off, n);
    BudgetHolds(sb, t, i, off / BSIZE, (off + n + BSIZE - 1) / BSIZE, now);
  }

  /* Freeing all the blocks of inode i: slots in ascending order, except that the indirect block comes last. */

  /** How far itrunc is: the slots below j, and the indirect block only when last. */
  datatype Freed = Freed(j: nat, last: bool) {
    predicate Has(k: nat) { k < j && (k != NDIRECT || last) }
  }

  /** The bitmap when the blocks in slots f of inode i have been freed. */
  ghost predicate BitmapBut(sb: Super, blocks: seq<Block>, owner: map<nat, Slot>, i: nat, f: Freed)
    requires Shaped(sb, blocks)
  {
    forall b :: 0 <= b < sb.size ==>
      (Used(sb, blocks, b) <==> b < sb.datastart || (b in owner && !(owner[b].inode == i && f.Has(owner[b].k))))
  }

  /** g frees slot k and no other that f does not. */
  ghost predicate OneMore(f: Freed, g: Freed, k: nat) {
    !f.Has(k) && g.Has(k) && forall l :: 0 <= l && l != k ==> (g.Has(l) <==> f.Has(l))
  }

  lemma FreeStep(sb: Super, s: Snap, x: seq<Block>, i: nat, k: nat, f: Freed, g: Freed)
    requires OwnersOk(sb, s.tree, s.owner) && sb.datastart > 0 && i < |s.tree| && k < SLOTS && OneMore(f, g, k)
    requires Shaped(sb, x) && BitmapBut(sb, x, s.owner, i, f) == true && s.tree[i].at[k] != 0
    ensures s.tree[i].at[k] < sb.size && Used(sb, x, s.tree[i].at[k])
    ensures BitmapBut(sb, Unmark(sb, x, s.tree[i].at[k]), s.owner, i, g) == true
  {
    var a := s.tree[i].at[k];
    assert a in s.owner && s.owner[a] == Slot(i, k);
    forall b | 0 <= b < sb.size
      ensures Used(sb, Unmark(sb, x, a), b) <==>
              b < sb.datastart || (b in s.owner && !(s.owner[b].inode == i && g.Has(s.owner[b].k)))
    {
      UnmarkAt(sb, x, a, b);
      assert b in s.owner ==> s.tree[s.owner[b].inode].at[s.owner[b].k] == b;
    }
  }

  lemma FreeSkip(sb: Super, s: Snap, x: seq<Block>, i: nat, k: nat, f: Freed, g: Freed)
    requires OwnersOk(sb, s.tree, s.owner) && sb.datastart > 0 && i < |s.tree| && k < SLOTS && OneMore(f, g, k)
    requires Shaped(sb, x) && BitmapBut(sb, x, s.owner, i, f) == true && s.tree[i].at[k] == 0
    ensures BitmapBut(sb, x, s.owner, i, g) == true
  {
    forall b | 0 <= b < sb.size
      ensures Used(sb, x, b) <==> b < sb.datastart || (b in s.owner && !(s.owner[b].inode == i && g.Has(s.owner[b].k)))
    {
      assert b in s.owner ==> s.tree[s.owner[b].inode].at[s.owner[b].k] == b;
    }
  }

  function Zeros(n: nat): seq<nat> {
    seq(n, _ => 0)
  }

  /** The owners that are left when inode i has no blocks. */
  function Without(owner: map<nat, Slot>, i: nat): map<nat, Slot> {
    map b | b in owner && owner[b].inode != i :: owner[b]
  }

  /** itrunc: inode i has no blocks and size 0. */
  function Truncated(s: Snap, x: seq<Block>, i: nat): Snap
    requires i < |s.inode| == |s.tree|
  {
    Snap(x, s.inode[i := s.inode[i].(addrs := Zeros(NDIRECT + 1), size := 0)], s.tree[i := Tree(Zeros(SLOTS))],
      Without(s.owner, i))
  }

  lemma TruncatedOwners(sb: Super, s: Snap, x: seq<Block>, i: nat)
    requires OwnersOk(sb, s.tree, s.owner) && i < |s.inode| == |s.tree|
    ensures OwnersOk(sb, Truncated(s, x, i).tree, Truncated(s, x, i).owner)
  {
    var t := Truncated(s, x, i);
    forall j, l | 0 <= j < |t.tree| && 0 <= l < SLOTS && t.tree[j].at[l] != 0
      ensures t.tree[j].at[l] in t.owner && t.owner[t.tree[j].at[l]] == Slot(j, l)
    {
      assert s.owner[s.tree[j].at[l]] == Slot(j, l);
    }
  }

  lemma TruncatedBitmap(sb: Super, s: Snap, x: seq<Block>, i: nat)
    requires Shaped(sb, x) && BitmapBut(sb, x, s.owner, i, Freed(SLOTS, true))
    requires OwnersOk(sb, s.tree, s.owner)
    ensures BitmapOk(sb, x, Without(s.owner, i))
  {}

  lemma TruncatedTrees(sb: Super, s: Snap, x: seq<Block>, i: nat)
    requires Core(sb, s) == true && i < sb.ninodes && |x| == |s.blocks|
    requires forall b :: sb.datastart <= b < sb.size ==> x[b] == s.blocks[b]
    ensures TreesOk(Truncated(s, x, i))
  {
    var t := Truncated(s, x, i);
    forall j | 0 <= j < |t.inode| ensures TreeOk(t.blocks, t.inode[j], t.tree[j]) {
      assert TreeOk(s.blocks, s.inode[j], s.tree[j]);
      if j != i {
        assert s.tree[j].at[NDIRECT] == s.inode[j].addrs[NDIRECT];
        StoreElsewhere(s.blocks, x, s.inode[j], s.tree[j]);
      }
    }
  }

  lemma TruncatedCore(sb: Super, s: Snap, x: seq<Block>, i: nat)
    requires Core(sb, s) == true && i < sb.ninodes && Shaped(sb, x)
    requires BitmapBut(sb, x, s.owner, i, Freed(SLOTS, true)) == true
    requires forall b :: sb.datastart <= b < sb.size ==> x[b] == s.blocks[b]
    ensures Core(sb, Truncated(s, x, i))
  {
    TruncatedOwners(sb, s, x, i);
    TruncatedBitmap(sb, s, x, i);
    TruncatedTrees(sb, s, x, i);
  }

  lemma TruncatedContent(sb: Super, s: Snap, x: seq<Block>, i: nat, j: nat)
    requires Core(sb, s) == true && i < sb.ninodes && j < sb.ninodes && |x| == |s.blocks|
    requires forall b :: sb.datastart <= b < sb.size ==> x[b] == s.blocks[b]
    ensures Content(Truncated(s, x, i), j) == if j == i then [] else Content(s, j)
  {
    if j != i {
      var t := Truncated(s, x, i);
      forall y | 0 <= y < s.inode[j].size ensures ByteAt(t, j, y) == ByteAt(s, j, y) {
        if HasByte(s, j, y) { assert s.tree[j].at[DataSlot(y / BSIZE)] in s.owner; }
      }
    }
  }

  /** itrunc's promise: file i is empty, all its blocks are free, the other files are what they were. */
  ghost predicate FileTruncated(sb: Super, s: Snap, t: Snap, i: nat) {
    && i < |s.inode| == |t.inode| && Consistent(sb, t)
    && (forall k :: 0 <= k < SLOTS ==> t.tree[i].at[k] == 0)
    && OwnsNothing(sb, s, t, i) && Content(t, i) == []
    && forall j :: 0 <= j < |s.inode| && j != i ==> Content(t, j) == Content(s, j)
  }

  /** The bitmap marks the metadata and the blocks of the files other than i. */
  ghost predicate OwnsNothing(sb: Super, s: Snap, t: Snap, i: nat)
    requires Shaped(sb, t.blocks)
  {
    forall b :: 0 <= b < sb.size ==>
      (Used(sb, t.blocks, b) <==> b < sb.datastart || (b in s.owner && s.owner[b].inode != i))
  }

  lemma TruncatedUsed(sb: Super, s: Snap, t: Snap, i: nat)
    requires Core(sb, t) == true && t.owner == Without(s.owner, i)
    ensures Shaped(sb, t.blocks) && OwnsNothing(sb, s, t, i) == true
  {}

  lemma ConsistentCore(sb: Super, s: Snap)
    requires Consistent(sb, s) == true
    ensures Core(sb, s) == true && |s.inode| == sb.ninodes
  {}

  lemma TruncatedDense(s: Snap, x: seq<Block>, i: nat)
    requires Dense(s) && i < |s.inode| == |s.tree|
    ensures Dense(Truncated(s, x, i))
  {
    var t := Truncated(s, x, i);
    forall j, y | 0 <= j < |t.inode| && 0 <= y < t.inode[j].size ensures HasByte(t, j, y) {
      assert HasByte(s, j, y);
    }
  }

  /** What itrunc has done to the blocks when slots f are freed; only bitmap blocks change. */
  ghost predicate Freeing(sb: Super, s: Snap, x: seq<Block>, i: nat, f: Freed, was: set<nat>, now: set<nat>) {
    && Shaped(sb, x) && |s.blocks| == sb.size && BitmapBut(sb, x, s.owner, i, f)
    && (forall b :: 0 <= b < sb.size && !InBitmap(sb, b) ==> x[b] == s.blocks[b])
    && (forall b :: b in now ==> b in was || InBitmap(sb, b))
  }

  lemma FreeingStart(sb: Super, s: Snap, i: nat, l: set<nat>)
    requires Core(sb, s) == true
    ensures Freeing(sb, s, s.blocks, i, Freed(0, false), l, l) == true
  {}

  /** The blocks after `if(a) bfree(a)`. */
  function FreedIf(sb: Super, x: seq<Block>, a: nat): seq<Block>
    requires Shaped(sb, x) && (a != 0 ==> a < sb.size && Used(sb, x, a))
  {
    if a == 0 then x else Unmark(sb, x, a)
  }

  function LoggedIf(sb: Super, l: set<nat>, a: nat): set<nat> {
    if a == 0 then l else l + {BitmapBlock(sb, a)}
  }

  lemma UnmarkElsewhere(sb: Super, x: seq<Block>, a: nat, b: nat)
    requires Shaped(sb, x) && a < sb.size && Used(sb, x, a) && b < sb.size
    ensures (!InBitmap(sb, b) ==> Unmark(sb, x, a)[b] == x[b]) && InBitmap(sb, BitmapBlock(sb, a))
  {}

  /** The next address of itrunc: bfree never finds the block already free. */
  lemma FreeingNext(sb: Super, s: Snap, x: seq<Block>, i: nat, k: nat, f: Freed, g: Freed, was: set<nat>, now: set<nat>,
                    a: nat)
    requires Freeing(sb, s, x, i, f, was, now) == true && OwnersOk(sb, s.tree, s.owner) == true && sb.datastart > 0
    requires i < |s.tree| && |s.tree[i].at| == SLOTS && k < SLOTS && OneMore(f, g, k) == true && a == s.tree[i].at[k]
    ensures Shaped(sb, x) && (a != 0 ==> a < sb.size && Used(sb, x, a))
    ensures Freeing(sb, s, FreedIf(sb, x, a), i, g, was, LoggedIf(sb, now, a)) == true
  {
    if a != 0 {
      FreeStep(sb, s, x, i, k, f, g);
      UnmarkElsewhere(sb, x, a, a);
      forall b | 0 <= b < sb.size && !InBitmap(sb, b) ensures Unmark(sb, x, a)[b] == s.blocks[b] {
        UnmarkElsewhere(sb, x, a, b);
      }
    } else {
      FreeSkip(sb, s, x, i, k, f, g);
    }
  }

  /** The address is a direct one, an entry, or the indirect block itself. */
  lemma FreeingOne(sb: Super, s: Snap, x: seq<Block>, i: nat, k: nat, f: Freed, g: Freed, was: set<nat>, now: set<nat>,
                   a: nat)
    requires Core(sb, s) == true && Freeing(sb, s, x, i, f, was, now) == true && i < sb.ninodes && k < SLOTS
    requires OneMore(f, g, k) == true
    requires InodeOk(s.inode[i])
    requires a == if k <= NDIRECT then s.inode[i].addrs[k] else Entry(s.blocks, s.inode[i].addrs[NDIRECT], k)
    ensures Shaped(sb, x) && (a != 0 ==> a < sb.size && Used(sb, x, a))
    ensures Freeing(sb, s, FreedIf(sb, x, a), i, g, was, LoggedIf(sb, now, a)) == true
  {
    assert TreeOk(s.blocks, s.inode[i], s.tree[i]);
    FreeingNext(sb, s, x, i, k, f, g, was, now, a);
  }

  lemma InodeHere(sb: Super, s: Snap, i: nat)
    requires Core(sb, s) == true && i < sb.ninodes
    ensures i < |s.inode| && InodeOk(s.inode[i])
    ensures var a := s.inode[i].addrs[NDIRECT]; a != 0 ==> sb.datastart <= a < sb.size
  {
    assert TreeOk(s.blocks, s.inode[i], s.tree[i]);
    if s.tree[i].at[NDIRECT] != 0 { assert s.owner[s.tree[i].at[NDIRECT]] == Slot(i, NDIRECT); }
  }

  /** The direct addresses when the first k are zeroed. */
  function Zeroed(addrs: seq<nat>, k: nat): seq<nat> {
    seq(|addrs|, l requires 0 <= l < |addrs| => if l < k then 0 else addrs[l])
  }

  lemma TruncatedConsistent(sb: Super, s: Snap, x: seq<Block>, i: nat, was: set<nat>, now: set<nat>)
    requires Consistent(sb, s) == true && i < sb.ninodes && Freeing(sb, s, x, i, Freed(SLOTS, true), was, now) == true
    ensures var v := Truncated(s, x, i);
            InodeOk(v.inode[i]) && Core(sb, v) == true && Consistent(sb, Flushed(sb, v, i)) == true
  {
    var v := Truncated(s, x, i);
    TruncatedCore(sb, s, x, i);
    TruncatedDense(s, x, i);
    FlushedCore(sb, v, i);
    FlushedSynced(sb, s, v, i);
    FlushedDense(sb, v, i);
  }

  lemma FileTruncatedFrom(sb: Super, s: Snap, x: seq<Block>, i: nat, was: set<nat>, now: set<nat>)
    requires Consistent(sb, s) == true && i < sb.ninodes && Freeing(sb, s, x, i, Freed(SLOTS, true), was, now) == true
    ensures InodeOk(Truncated(s, x, i).inode[i]) && FileTruncated(sb, s, Flushed(sb, Truncated(s, x, i), i), i) == true
  {
    var v := Truncated(s, x, i);
    ConsistentCore(sb, s);
    TruncatedConsistent(sb, s, x, i, was, now);
    var t := Flushed(sb, v, i);
    ConsistentCore(sb, t);
    TruncatedUsed(sb, s, t, i);
    forall j | 0 <= j < sb.ninodes ensures Content(t, j) == if j == i then [] else Content(s, j) {
      FlushedContent(sb, v, i, j);
      TruncatedContent(sb, s, x, i, j);
    }
  }

  /** The slot of the indirect block is passed over. */
  lemma FreeingPast(sb: Super, s: Snap, x: seq<Block>, i: nat, was: set<nat>, now: set<nat>)
    requires Freeing(sb, s, x, i, Freed(NDIRECT, false), was, now) == true
    ensures Freeing(sb, s, x, i, Freed(NDIRECT + 1, false), was, now) == true
  {
    forall k: nat ensures Freed(NDIRECT, false).Has(k) <==> Freed(NDIRECT + 1, false).Has(k) {}
  }

  /** With no indirect block there are no entries to free. */
  lemma FreeingNoEntries(sb: Super, s: Snap, x: seq<Block>, i: nat, was: set<nat>, now: set<nat>)
    requires Core(sb, s) == true && i < sb.ninodes && Freeing(sb, s, x, i, Freed(NDIRECT, false), was, now) == true
    requires i < |s.inode| && InodeOk(s.inode[i]) && s.inode[i].addrs[NDIRECT] == 0
    ensures Freeing(sb, s, x, i, Freed(SLOTS, true), was, now) == true
  {
    assert TreeOk(s.blocks, s.inode[i], s.tree[i]) && s.tree[i].at[NDIRECT] == 0;
    forall b | 0 <= b < sb.size
      ensures Used(sb, x, b) <==>
              b < sb.datastart || (b in s.owner && !(s.owner[b].inode == i && Freed(SLOTS, true).Has(s.owner[b].k)))
    {
      if b in s.owner && s.owner[b].inode == i {
        assert s.tree[i].at[s.owner[b].k] == b;
        if s.owner[b].k > NDIRECT { EntryNeedsIndirect(sb, s, i, s.owner[b].k); }
      }
    }
  }

  lemma ZeroedNext(addrs: seq<nat>, k: nat)
    requires k < |addrs|
    ensures Zeroed(addrs, 0) == addrs && Zeroed(addrs, k)[k := 0] == Zeroed(addrs, k + 1)
  {}

  /** The in-core inodes when the first k direct addresses of inode i are zeroed. */
  function ZeroedInode(inode: seq<Inode>, i: nat, k: nat): seq<Inode>
    requires i < |inode| && k <= |inode[i].addrs|
  {
    inode[i := inode[i].(addrs := Zeroed(inode[i].addrs, k))]
  }

  lemma ZeroedInodeNext(inode: seq<Inode>, i: nat, k: nat)
    requires i < |inode| && k < |inode[i].addrs|
    ensures ZeroedInode(inode, i, 0) == inode
    ensures var z := ZeroedInode(inode, i, k);
            && z[i].addrs[k] == inode[i].addrs[k]
            && z[i := z[i].(addrs := z[i].addrs[k := 0])] == ZeroedInode(inode, i, k + 1)
  {
    ZeroedNext(inode[i].addrs, k);
  }

  lemma ZeroedAll(addrs: seq<nat>)
    requires |addrs| == NDIRECT + 1
    ensures Zeroed(addrs, NDIRECT)[NDIRECT := 0] == Zeros(NDIRECT + 1)
    ensures Zeroed(addrs, NDIRECT)[NDIRECT] == addrs[NDIRECT]
    ensures addrs[NDIRECT] == 0 ==> Zeroed(addrs, NDIRECT) == Zeros(NDIRECT + 1)
  {}

  lemma SpliceSize(c: seq<Byte>, off: nat, a: seq<Byte>)
    requires off <= |c|
    ensures |Splice(c, off, a)| == Max(|c|, off + |a|)
  {}

  lemma SpliceTwice(c: seq<Byte>, off: nat, a: seq<Byte>, b: seq<Byte>)
    requires off <= |c| && off + |a| <= |Splice(c, off, a)|
    ensures Splice(Splice(c, off, a), off + |a|, b) == Splice(c, off, a + b)
  {}

  /** A piece of a block is a piece of the file. */
  lemma ChunkBytes(s: Snap, i: nat, cur: nat, got: nat, b: nat)
    requires i < |s.inode| && HasByte(s, i, cur) && cur % BSIZE + got <= BSIZE && cur + got <= s.inode[i].size
    requires b == s.tree[i].at[DataSlot(cur / BSIZE)] < |s.blocks| && cur + got <= MAXFILE * BSIZE
    ensures s.blocks[b].bytes[cur % BSIZE..cur % BSIZE + got] == Content(s, i)[cur..cur + got]
  {
    var p, q := s.blocks[b].bytes[cur % BSIZE..cur % BSIZE + got], Content(s, i)[cur..cur + got];
    forall x | 0 <= x < got ensures p[x] == q[x] {
      SameChunk(cur, got, cur + x);
      assert q[x] == ByteAt(s, i, cur + x);
    }
  }

  /** What a read of tot bytes at off has delivered. */
  ghost predicate Delivered(c: seq<Byte>, off: nat, tot: nat, out: seq<Byte>) {
    off + tot <= |c| && out == c[off..off + tot]
  }

  lemma DeliveredNext(c: seq<Byte>, off: nat, tot: nat, got: nat, out: seq<Byte>, piece: seq<Byte>)
    requires Delivered(c, off, tot, out) == true && Delivered(c, off + tot, got, piece) == true
    ensures Delivered(c, off, tot + got, out + piece)
  {}

  lemma DenseBelow(sb: Super, s: Snap, i: nat, x: nat)
    requires Consistent(sb, s) == true && i < |s.inode| && x < s.inode[i].size
    ensures HasByte(s, i, x) && s.inode[i].size <= MAXFILE * BSIZE
  {
    assert HasByte(s, i, x) && HasByte(s, i, s.inode[i].size - 1);
  }

  /* A file through filewrite's transactions. */

  /** filewrite's chunk, `((MAXOPBLOCKS-1-1-2) / 2) * BSIZE` for MAXOPBLOCKS 10. */
  const WRITE_MAX := 3 * BSIZE

  /** It is what is left of a transaction's blocks, halved. */
  lemma WriteMaxIs()
    ensures WRITE_MAX == ((RedoLog.MAXOPBLOCKS - 1 - 1 - 2) / 2) * BSIZE
  {}

  /** All of it when it fits; else as many whole chunks as fit, and nothing at a bad offset. */
  lemma AcceptedMost(size: nat, off: nat, n: nat)
    ensures var m := Accepted(size, off, n);
      if off > size || off > MAXFILE * BSIZE then m == 0
      else if off + n <= MAXFILE * BSIZE then m == n
      else m % WRITE_MAX == 0 && off + m <= MAXFILE * BSIZE < off + m + WRITE_MAX
  {}

  /** How many of n bytes filewrite stores at off: all, or the whole chunks below the largest file size. */
  function Accepted(size: nat, off: nat, n: nat): (m: nat)
    ensures m <= n
  {
    if off > size || off > MAXFILE * BSIZE then 0
    else if off + n <= MAXFILE * BSIZE then n
    else (MAXFILE * BSIZE - off) / WRITE_MAX * WRITE_MAX
  }

  predicate ChunkPos(k: nat, n: nat) { k == n || k % WRITE_MAX == 0 }

  /** n1 */
  function WriteLen(k: nat, n: nat): (m: nat)
    requires k < n && ChunkPos(k, n)
    ensures 0 < m <= WRITE_MAX && k + m <= n && ChunkPos(k + m, n)
  {
    if n - k > WRITE_MAX then WRITE_MAX else n - k
  }

  /** filewrite stops exactly where Accepted says. */
  lemma AcceptedStop(size: nat, off: nat, n: nat, k: nat)
    requires size <= MAXFILE * BSIZE && k < n && ChunkPos(k, n)
    requires k > 0 ==> off <= size && off + k <= MAXFILE * BSIZE
    requires (k == 0 && off > size) || off + k + WriteLen(k, n) > MAXFILE * BSIZE
    ensures Accepted(size, off, n) == k
  {}

  /** File i holds c0 with src at off, and the other files are those of s. */
  ghost predicate Through(sb: Super, s: Snap, t: Snap, i: nat, off: nat, src: seq<Byte>) {
    && Consistent(sb, t) && |t.inode| == |s.inode| && i < |s.inode|
    && (src == [] || off <= s.inode[i].size)
    && Content(t, i) == SpliceIf(Content(s, i), off, src)
    && forall j :: 0 <= j < |s.inode| && j != i ==> Content(t, j) == Content(s, j)
  }

  function SpliceIf(c: seq<Byte>, off: nat, a: seq<Byte>): seq<Byte>
    requires a == [] || off <= |c|
  {
    if a == [] then c else Splice(c, off, a)
  }

  lemma SpliceChain(c: seq<Byte>, off: nat, cur: nat, a: seq<Byte>, b: seq<Byte>)
    requires (a == [] || off <= |c|) && cur == off + |a| <= |SpliceIf(c, off, a)| && b != []
    ensures off <= |c| && a + b != [] && |Splice(SpliceIf(c, off, a), cur, b)| == Max(|SpliceIf(c, off, a)|, cur + |b|)
    ensures Splice(SpliceIf(c, off, a), cur, b) == Splice(c, off, a + b)
  {
    SpliceSize(SpliceIf(c, off, a), cur, b);
    if a == [] {
      assert a + b == b;
    } else {
      SpliceSize(c, off, a);
      SpliceTwice(c, off, a, b);
    }
  }

  lemma ThroughNext(sb: Super, s: Snap, t: Snap, u: Snap, i: nat, off: nat, cur: nat, src: seq<Byte>, k: nat, k1: nat,
                    piece: seq<Byte>)
    requires k < k1 <= |src| && piece == src[k..k1] && cur == off + k && i < |s.inode|
    requires i < |t.inode| && cur <= t.inode[i].size
    requires Through(sb, s, t, i, off, src[..k]) == true && FileWritten(sb, t, u, i, cur, piece, |piece|) == true
    ensures Through(sb, s, u, i, off, src[..k1]) == true && i < |u.inode|
    ensures off + k1 <= u.inode[i].size && off <= s.inode[i].size
  {
    assert src[..k] + piece == src[..k1];
    SpliceChain(Content(s, i), off, cur, src[..k], piece);
  }

  /** filewrite's loop when k bytes of src are stored. */
  ghost predicate Chunked(sb: Super, s: Snap, t: Snap, i: nat, off: nat, src: seq<Byte>, k: nat) {
    && k <= |src| && ChunkPos(k, |src|) && i < |s.inode| && i < |t.inode|
    && s.inode[i].size <= MAXFILE * BSIZE
    && (k > 0 ==> off <= s.inode[i].size && off + k <= t.inode[i].size && off + k <= MAXFILE * BSIZE)
    && (k == 0 ==> t.inode[i].size == s.inode[i].size)
    && Through(sb, s, t, i, off, src[..k])
  }

  lemma ChunkedHere(sb: Super, s: Snap, t: Snap, i: nat, off: nat, src: seq<Byte>, k: nat)
    requires Chunked(sb, s, t, i, off, src, k) == true && off < WORD_LIMIT
    ensures Consistent(sb, t) == true && k <= |src| && ChunkPos(k, |src|) == true && off + k < WORD_LIMIT
    ensures i < |s.inode| && i < |t.inode|
  {}

  lemma ChunkedStart(sb: Super, s: Snap, i: nat, off: nat, src: seq<Byte>)
    requires Consistent(sb, s) == true && i < sb.ninodes
    ensures Chunked(sb, s, s, i, off, src, 0) == true
  {
    if s.inode[i].size > 0 { DenseBelow(sb, s, i, 0); }
  }

  lemma ChunkedNext(sb: Super, s: Snap, t: Snap, u: Snap, i: nat, off: nat, cur: nat, src: seq<Byte>, k: nat, k1: nat,
                    piece: seq<Byte>)
    requires Chunked(sb, s, t, i, off, src, k) == true && k < k1 <= |src|
    requires ChunkPos(k1, |src|) == true && piece == src[k..k1]
    requires cur == off + k && cur <= t.inode[i].size && off + k1 <= MAXFILE * BSIZE
    requires FileWritten(sb, t, u, i, cur, piece, |piece|) == true
    ensures Chunked(sb, s, u, i, off, src, k1) == true
  {
    ThroughNext(sb, s, t, u, i, off, cur, src, k, k1, piece);
  }

  /** A chunk is refused exactly where Accepted says. */
  lemma ChunkedStop(sb: Super, s: Snap, t: Snap, i: nat, off: nat, src: seq<Byte>, k: nat)
    requires Chunked(sb, s, t, i, off, src, k) == true
    requires k < |src| ==> off + k > t.inode[i].size || off + k + WriteLen(k, |src|) > MAXFILE * BSIZE
    ensures k == Accepted(s.inode[i].size, off, |src|) && Through(sb, s, t, i, off, src[..k]) == true
  {
    if k < |src| { AcceptedStop(s.inode[i].size, off, |src|, k); }
  }

  /**
   On a log of LOGSIZE blocks, operations with the budget of one write (WriteBudget) never make log_write panic, in any
   interleaving, exactly when the bitmap has at most three blocks; then writes do not either.
   */
  lemma WritesFitLog(sb: Super, count: nat)
    requires count >= 2 && sb.bmapstart <= sb.datastart
    ensures var c := LogProtocol.Config(sb.datastart - sb.bmapstart + 6, RedoLog.LOGSIZE);
            (forall s, p, b :: LogProtocol.Reachable(c, count, s) && LogProtocol.CallsLogWrite(c, s, p, b) ==>
              LogProtocol.GuardPasses(c, s))
              <==> sb.datastart - sb.bmapstart <= 3
  {
    LogProtocol.GuardNeverPanics(LogProtocol.Config(sb.datastart - sb.bmapstart + 6, RedoLog.LOGSIZE), count);
  }

  /**
   The part of the state that only the proof needs. logged holds the blocks given to log_write, home what the blocks
   were when the transaction began.
   */
  datatype Spec = Spec(tree: seq<Tree>, owner: map<nat, Slot>, logged: set<nat>, home: seq<Block>)

  /** Every block that has changed has been given to log_write. */
  ghost predicate Covered(home: seq<Block>, blocks: seq<Block>, logged: set<nat>) {
    |home| == |blocks| && forall b :: 0 <= b < |blocks| && b !in logged ==> blocks[b] == home[b]
  }

  lemma CoveredNext(home: seq<Block>, blocks: seq<Block>, logged: set<nat>, b: nat, data: Block)
    requires Covered(home, blocks, logged) == true && b < |blocks|
    ensures Covered(home, blocks[b := data], logged + {b}) == true
  {}

  /** From s to t in one transaction that logs the blocks l. */
  ghost predicate Transaction(sb: Super, s: Snap, t: Snap, l: set<nat>) {
    && Consistent(sb, t) && Covered(s.blocks, t.blocks, l) && InRange(sb, l)
    && |l| <= sb.datastart - sb.bmapstart + 6
  }

  /** How many of n bytes filewrite has stored after m transactions. */
  function Upto(m: nat, n: nat): (k: nat)
    ensures k <= n
  {
    if m * WRITE_MAX <= n then m * WRITE_MAX else n
  }

  lemma UptoNext(m: nat, n: nat)
    requires Upto(m, n) < n
    ensures Upto(m + 1, n) == Upto(m, n) + WriteLen(Upto(m, n), n)
  {}

  /** filewrite's transactions so far: ss[m] is the state after m of them, ls[m] what the next one logs. */
  ghost predicate Run(sb: Super, ss: seq<Snap>, ls: seq<set<nat>>, i: nat, off: nat, src: seq<Byte>) {
    && |ss| == |ls| + 1 && (forall m :: 0 <= m < |ls| ==> Transaction(sb, ss[m], ss[m + 1], ls[m]))
    && forall m :: 0 <= m <= |ls| ==> Through(sb, ss[0], ss[m], i, off, src[..Upto(m, |src|)])
  }

  lemma RunStart(sb: Super, s: Snap, i: nat, off: nat, src: seq<Byte>)
    requires Chunked(sb, s, s, i, off, src, 0) == true
    ensures Run(sb, [s], [], i, off, src) == true
  {}

  lemma RunNext(sb: Super, ss: seq<Snap>, ls: seq<set<nat>>, i: nat, off: nat, src: seq<Byte>, u: Snap, l: set<nat>,
                k: nat)
    requires Run(sb, ss, ls, i, off, src) == true && |ss| == |ls| + 1 && Transaction(sb, ss[|ls|], u, l) == true
    requires Chunked(sb, ss[0], u, i, off, src, k) == true && k == Upto(|ls| + 1, |src|)
    ensures Run(sb, ss + [u], ls + [l], i, off, src) == true
  {}

  /** An inode without an indirect block has no indirect entries. */
  lemma EntryNeedsIndirect(sb: Super, s: Snap, i: nat, k: nat)
    requires Core(sb, s) == true && i < sb.ninodes && NDIRECT < k < SLOTS && s.tree[i].at[NDIRECT] == 0
    ensures s.tree[i].at[k] == 0
  {
    assert TreeOk(s.blocks, s.inode[i], s.tree[i]);
  }

  class Fs {
    const sb: Super
    var blocks: seq<Block>
    var inode: seq<Inode>
    ghost var spec: Spec

    ghost function Now(): Snap
      reads this
    {
      Snap(blocks, inode, spec.tree, spec.owner)
    }

    ghost predicate Tracked()
      reads this
    {
      Covered(spec.home, blocks, spec.logged)
    }

    ghost predicate Full()
      requires Shaped(sb, blocks)
      reads this
    {
      forall b :: 0 <= b < sb.size ==> Used(sb, blocks, b)
    }

    /** balloc's inner loop: the first bit that is clear in the bitmap block for blocks from b on. */
    method ClearBitIn(b: nat, data: Block) returns (r: Option<nat>)
      requires Shaped(sb, blocks) && b < sb.size && b % BPB == 0 && data == blocks[BitmapBlock(sb, b)]
      ensures r.Some? ==>
        r.value < BPB && b + r.value < sb.size && !Used(sb, blocks, b + r.value) && !Bit(data, r.value)
      ensures r.Some? ==> forall c :: b <= c < b + r.value ==> Used(sb, blocks, c)
      ensures r.None? ==> forall c :: b <= c < b + BPB && c < sb.size ==> Used(sb, blocks, c)
    {
      var bi := 0;
      while bi < BPB && b + bi < sb.size
        invariant bi <= BPB && forall c :: b <= c < b + bi && c < sb.size ==> Used(sb, blocks, c)
      {
        BitPlace(sb, b, bi);
        if !Bit(data, bi) { return Some(bi); }
        assert Used(sb, blocks, b + bi);
        bi := bi + 1;
      }
      return None;
    }

    /** Allocates the first free block, zeroed; None is the panic for a full disk. */
    method Balloc() returns (r: Option<nat>)
      requires Shaped(sb, blocks)
      modifies this`blocks, this`spec
      ensures spec == old(spec).(logged := spec.logged)
      ensures old(Tracked()) ==> Tracked() == true
      ensures r.None? ==> blocks == old(blocks) && Full()
      ensures r.Some? ==>
        && r.value < sb.size && !Used(sb, old(blocks), r.value)
        && (forall c :: 0 <= c < r.value ==> Used(sb, old(blocks), c))
        && blocks == Alloc(sb, old(blocks), r.value)
        && (forall b :: b in spec.logged ==> b in old(spec).logged || InBitmap(sb, b) || b == r.value)
    {
      var b := 0;
      while b < sb.size
        invariant b % BPB == 0 && blocks == old(blocks) && spec == old(spec)
        invariant forall c :: 0 <= c < b && c < sb.size ==> Used(sb, old(blocks), c)
      {
        var data := blocks[BitmapBlock(sb, b)];
        var bi := ClearBitIn(b, data);
        if bi.Some? {
          BitPlace(sb, b, bi.value);
          LogWrite(BitmapBlock(sb, b), SetBit(data, bi.value), spec.tree, spec.owner);
          Bzero(b + bi.value);
          return Some(b + bi.value);
        }
        b := b + BPB;
      }
      return None;
    }

    method Bzero(b: nat)
      requires b < |blocks|
      modifies this`blocks, this`spec
      ensures blocks == old(blocks)[b := ZeroBlock()] && spec == old(spec).(logged := old(spec).logged + {b})
      ensures old(Tracked()) ==> Tracked() == true
    {
      LogWrite(b, ZeroBlock(), spec.tree, spec.owner);
    }

    /** bread, a change to the data, log_write and brelse, with what the change means for the trees. */
    method LogWrite(b: nat, data: Block, ghost tree: seq<Tree>, ghost owner: map<nat, Slot>)
      requires b < |blocks|
      modifies this`blocks, this`spec
      ensures blocks == old(blocks)[b := data] && spec == Spec(tree, owner, old(spec).logged + {b}, old(spec).home)
      ensures old(Tracked()) ==> Tracked() == true
    {
      if Tracked() { CoveredNext(spec.home, blocks, spec.logged, b, data); }
      blocks := blocks[b := data];
      spec := Spec(tree, owner, spec.logged + {b}, spec.home);
    }

    /** Frees block b; false is the panic for a block that is already free. */
    method Bfree(b: nat) returns (ok: bool)
      requires Shaped(sb, blocks) && b < sb.size
      modifies this`blocks, this`spec
      ensures ok == Used(sb, old(blocks), b)
      ensures blocks == if ok then Unmark(sb, old(blocks), b) else old(blocks)
      ensures spec == if ok then old(spec).(logged := old(spec).logged + {BitmapBlock(sb, b)}) else old(spec)
      ensures old(Tracked()) ==> Tracked() == true
    {
      var data := blocks[BitmapBlock(sb, b)];
      var bi := b % BPB;
      if !Bit(data, bi) { return false; }
      LogWrite(BitmapBlock(sb, b), ClearBit(data, bi), spec.tree, spec.owner);
      return true;
    }

    /** ip->addrs[k], allocated when it is zero. */
    method DirectBlock(i: nat, k: nat) returns (r: Option<nat>)
      requires Core(sb, Now()) == true && i < sb.ninodes && k <= NDIRECT
      modifies this
      ensures r.Some? ==> Core(sb, Now()) && Grown(sb, old(Now()), Now(), i)
      ensures r.Some? ==> r.value == spec.tree[i].at[k] == inode[i].addrs[k] != 0
      ensures r.Some? && old(spec).tree[i].at[k] != 0 ==> Now() == old(Now()) && spec.logged == old(spec).logged
      ensures r.Some? ==> forall l :: 0 <= l < SLOTS && l != k ==> spec.tree[i].at[l] == old(spec).tree[i].at[l]
      ensures r.Some? ==> r.value < sb.size
      ensures r.Some? ==> forall b :: b in spec.logged ==> b in old(spec).logged || InBitmap(sb, b) || b == r.value
      ensures r.None? ==> old(spec).tree[i].at[k] == 0 && Shaped(sb, blocks) && Full()
      ensures r.Some? ==> spec.home == old(spec).home && (old(Tracked()) ==> Tracked() == true)
    {
      assert TreeOk(blocks, inode[i], spec.tree[i]);
      var addr := inode[i].addrs[k];
      if addr == 0 {
        r := Balloc();
        if r.None? { return; }
        ghost var s := old(Now());
        FreeIsUnowned(sb, s, r.value);
        TakeDirectKeeps(sb, s, i, k, r.value);
        TakeDirectGrows(sb, s, i, k, r.value);
        inode := inode[i := inode[i].(addrs := inode[i].addrs[k := r.value])];
        spec := spec.(tree := Grow(s.tree, i, k, r.value), owner := s.owner[r.value := Slot(i, k)]);
        assert Now() == TakeDirect(sb, s, i, k, r.value);
      } else {
        r := Some(addr);
      }
    }

    /** Entry k of the indirect block, allocated when it is zero. */
    method IndirectBlock(i: nat, k: nat) returns (r: Option<nat>)
      requires Core(sb, Now()) == true && i < sb.ninodes && NDIRECT < k < SLOTS && spec.tree[i].at[NDIRECT] != 0
      modifies this
      ensures r.Some? ==> Core(sb, Now()) && Grown(sb, old(Now()), Now(), i)
      ensures r.Some? ==> r.value == spec.tree[i].at[k] != 0 && r.value < sb.size
      ensures r.Some? && old(spec).tree[i].at[k] != 0 ==> Now() == old(Now()) && spec.logged == old(spec).logged
      ensures r.Some? ==> spec.tree[i].at[NDIRECT] == old(spec).tree[i].at[NDIRECT]
      ensures r.Some? ==> forall b :: b in spec.logged ==>
                b in old(spec).logged || InBitmap(sb, b) || b == r.value || 0 != b == spec.tree[i].at[NDIRECT]
      ensures r.None? ==> old(spec).tree[i].at[k] == 0 && Shaped(sb, blocks) && Full()
      ensures r.Some? ==> spec.home == old(spec).home && (old(Tracked()) ==> Tracked() == true)
    {
      assert TreeOk(blocks, inode[i], spec.tree[i]);
      var a := inode[i].addrs[NDIRECT];
      assert spec.owner[spec.tree[i].at[NDIRECT]] == Slot(i, NDIRECT);
      var data := blocks[a];
      var addr := WordAt(data, k - NDIRECT - 1);
      assert spec.tree[i].at[k] == Entry(blocks, a, k) == addr;
      if addr == 0 {
        r := NewIndirectBlock(i, k, a, data);
        if r.Some? { TakeIndirectStep(sb, old(Now()), i, k, r.value); }
      } else {
        r := Some(addr);
      }
    }

    /** balloc for an entry of the indirect block a, whose buffer is held across the call. */
    method NewIndirectBlock(i: nat, k: nat, a: nat, data: Block) returns (r: Option<nat>)
      requires Shaped(sb, blocks) && Here(Now(), i) && NDIRECT < k < SLOTS
      requires a == inode[i].addrs[NDIRECT] && a < sb.size && data == blocks[a]
      modifies this`blocks, this`spec
      ensures r.Some? ==> r.value < sb.size && !Used(sb, old(blocks), r.value)
      ensures r.Some? ==> Now() == TakeIndirect(sb, old(Now()), i, k, r.value)
      ensures r.Some? ==>
        forall b :: b in spec.logged ==> b in old(spec).logged || InBitmap(sb, b) || b == r.value || b == a
      ensures r.None? ==> Shaped(sb, blocks) && Full()
      ensures r.Some? ==> spec.home == old(spec).home && (old(Tracked()) ==> Tracked() == true)
    {
      ghost var s := Now();
      r := Balloc();
      if r.None? { return; }
      LogWrite(a, PutWord(data, k - NDIRECT - 1, r.value), Grow(s.tree, i, k, r.value), s.owner[r.value := Slot(i, k)]);
    }

    /** Entry k of the indirect block, with the indirect block itself allocated when there is none. */
    method ThroughIndirect(i: nat, k: nat) returns (r: Option<nat>)
      requires Core(sb, Now()) == true && i < sb.ninodes && NDIRECT < k < SLOTS
      modifies this
      ensures r.Some? ==> Core(sb, Now()) && Grown(sb, old(Now()), Now(), i)
      ensures r.Some? ==> r.value == spec.tree[i].at[k] != 0 && r.value < sb.size
      ensures r.Some? && old(spec).tree[i].at[k] != 0 ==> Now() == old(Now()) && spec.logged == old(spec).logged
      ensures r.Some? ==> forall b :: b in spec.logged ==>
                b in old(spec).logged || InBitmap(sb, b) || b == r.value || 0 != b == spec.tree[i].at[NDIRECT]
      ensures r.None? ==> old(spec).tree[i].at[k] == 0 && Shaped(sb, blocks) && Full()
      ensures r.Some? ==> spec.home == old(spec).home && (old(Tracked()) ==> Tracked() == true)
    {
      if spec.tree[i].at[NDIRECT] == 0 { EntryNeedsIndirect(sb, Now(), i, k); }
      r := DirectBlock(i, NDIRECT);
      if r.None? { return; }
      ghost var s := Now();
      r := IndirectBlock(i, k);
      if r.Some? { GrownTwice(sb, old(Now()), s, Now(), i); }
    }

    /** The n-th block of inode i, allocated when there is none; None is a panic. */
    method Bmap(i: nat, n: nat) returns (r: Option<nat>)
      requires Core(sb, Now()) == true && i < sb.ninodes
      modifies this
      ensures r.Some? ==> n < MAXFILE && Core(sb, Now()) && Grown(sb, old(Now()), Now(), i)
      ensures r.Some? ==> r.value == spec.tree[i].at[DataSlot(n)] != 0 && r.value < sb.size
      ensures r.Some? ==> i < |inode| && InodeOk(inode[i]) && inode[i].addrs[NDIRECT] < |blocks|
      ensures r.Some? ==> r.value == Address(blocks, inode[i], n)
      ensures r.Some? && old(spec).tree[i].at[DataSlot(n)] != 0 ==>
        Now() == old(Now()) && spec.logged == old(spec).logged
      ensures r.Some? ==> forall b :: b in spec.logged ==>
                b in old(spec).logged || InBitmap(sb, b) || b == r.value || 0 != b == spec.tree[i].at[NDIRECT]
      ensures r.None? && n < MAXFILE ==> old(spec).tree[i].at[DataSlot(n)] == 0 && Shaped(sb, blocks) && Full()
      ensures r.Some? ==> spec.home == old(spec).home && (old(Tracked()) ==> Tracked() == true)
    {
      if n < NDIRECT {
        r := DirectBlock(i, n);
      } else if n < MAXFILE {
        r := ThroughIndirect(i, n + 1);
      } else {
        r := None;
      }
      if r.Some? { AddressIs(sb, Now(), i, n); }
    }

    /** The block that holds byte off of file i gets data there; whole is false when the copy fell short. */
    method WriteChunk(i: nat, off: nat, data: seq<Byte>, whole: bool) returns (ok: bool)
      requires Core(sb, Now()) == true && i < sb.ninodes && Fits(off, |data|)
      modifies this
      ensures ok ==> Progress(sb, old(Now()), Now(), i, off, data) == true
      ensures ok ==> Charged(sb, Now(), i, off / BSIZE, off / BSIZE + 1, old(spec).logged, spec.logged) == true
      ensures !ok && off / BSIZE < MAXFILE ==> Shaped(sb, blocks) && Full()
      ensures ok && whole ==> spec.home == old(spec).home && (old(Tracked()) ==> Tracked() == true)
    {
      var r := Bmap(i, off / BSIZE);
      if r.None? { return false; }
      ghost var s := Now();
      ChunkStep(sb, old(Now()), s, i, off, data, r.value);
      ChargeChunk(sb, s, i, off / BSIZE, r.value, old(spec).logged, spec.logged);
      StoreChunk(r.value, Overlay(blocks[r.value], off % BSIZE, data), whole);
      assert Now() == Stored(s, r.value, Overlay(s.blocks[r.value], off % BSIZE, data));
      return true;
    }

    method StoreChunk(b: nat, data: Block, whole: bool)
      requires b < |blocks|
      modifies this`blocks, this`spec
      ensures blocks == old(blocks)[b := data]
      ensures spec == if whole then old(spec).(logged := old(spec).logged + {b}) else old(spec)
      ensures whole && old(Tracked()) ==> Tracked() == true
    {
      if whole {
        LogWrite(b, data, spec.tree, spec.owner);
      } else {
        blocks := blocks[b := data];
      }
    }

    /** The bytes from tot up to next of writei's source, inside one block. */
    method WriteSome(i: nat, off: nat, src: seq<Byte>, n: nat, tot: nat, next: nat, whole: bool, ghost s0: Snap,
                     ghost l0: set<nat>)
      returns (ok: bool)
      requires i < sb.ninodes && tot <= next <= |src| <= n && tot < n && off + n <= MAXFILE * BSIZE
      requires Fits(off + tot, next - tot) == true
      requires Core(sb, Now()) == true && Written(sb, s0, Now(), i, off, src[..tot], n, l0, spec.logged) == true
      modifies this
      ensures !ok ==> Shaped(sb, blocks) && Full()
      ensures ok ==> Core(sb, Now()) == true && Written(sb, s0, Now(), i, off, src[..next], n, l0, spec.logged) == true
      ensures ok && whole ==> spec.home == old(spec).home && (old(Tracked()) ==> Tracked() == true)
    {
      ghost var s, l := Now(), spec.logged;
      var cur, piece := off + tot, src[tot..next];
      InsideFile(off, n, cur);
      ok := WriteChunk(i, cur, piece, whole);
      if ok {
        WrittenNext(sb, s0, s, Now(), i, off, cur, src, tot, next, piece, n, l0, l, spec.logged);
        WrittenCore(sb, s0, Now(), i, off, src[..next], n, l0, spec.logged);
      }
    }

    /** One turn of writei's loop, after tot bytes. It stops when the source does not deliver a whole chunk. */
    method WriteNextChunk(i: nat, off: nat, src: seq<Byte>, n: nat, tot: nat, ghost s0: Snap, ghost l0: set<nat>)
      returns (ok: bool, next: nat, stop: bool)
      requires i < sb.ninodes && |src| <= n && tot < n && tot <= |src| && off + n <= MAXFILE * BSIZE
      requires AtBoundary(off, tot, n) == true
      requires Core(sb, Now()) == true && Written(sb, s0, Now(), i, off, src[..tot], n, l0, spec.logged) == true
      modifies this
      ensures !ok ==> Shaped(sb, blocks) && Full()
      ensures ok && stop ==> |src| < n && tot == Counted(off, n, |src|)
      ensures ok && stop ==> Written(sb, s0, Now(), i, off, src, n, l0, spec.logged) == true
      ensures ok && !stop ==> tot < next <= |src| && AtBoundary(off, next, n) == true && Core(sb, Now()) == true
      ensures ok && !stop ==> Written(sb, s0, Now(), i, off, src[..next], n, l0, spec.logged) == true
      ensures ok && !stop ==> spec.home == old(spec).home && (old(Tracked()) ==> Tracked() == true)
    {
      var got;
      got, stop := NextChunk(off, tot, n, |src|);
      next := tot + got;
      if stop { assert src[..next] == src; }
      ok := WriteSome(i, off, src, n, tot, next, !stop, s0, l0);
    }

    /** writei's loop; src holds the bytes of the source that can be read, at most n of them. */
    method WriteLoop(i: nat, off: nat, src: seq<Byte>, n: nat) returns (tot: nat, ok: bool)
      requires Core(sb, Now()) == true && i < sb.ninodes && |src| <= n && off + n <= MAXFILE * BSIZE
      modifies this
      ensures ok ==> Written(sb, old(Now()), Now(), i, off, src, n, old(spec).logged, spec.logged) == true
      ensures ok ==> tot == Counted(off, n, |src|)
      ensures !ok ==> Shaped(sb, blocks) && Full()
      ensures ok && |src| == n ==> spec.home == old(spec).home && (old(Tracked()) ==> Tracked() == true)
    {
      ghost var s0, l0 := Now(), spec.logged;
      tot := 0;
      WrittenStart(sb, s0, i, off, src, n, l0);
      CountedAll(off, n);
      while tot < n
        invariant tot <= |src| && AtBoundary(off, tot, n) == true && Core(sb, Now()) == true
        invariant Written(sb, s0, Now(), i, off, src[..tot], n, l0, spec.logged) == true
        invariant spec.home == old(spec).home && (old(Tracked()) ==> Tracked() == true)
      {
        var next, stop;
        ok, next, stop := WriteNextChunk(i, off, src, n, tot, s0, l0);
        if !ok || stop { return; }
        tot := next;
      }
      assert src[..tot] == src;
      ok := true;
    }

    /** The in-core inode goes to disk. */
    method Iupdate(i: nat)
      requires Shaped(sb, blocks) && i < sb.ninodes && i < |inode| && InodeOk(inode[i])
      modifies this`blocks, this`spec
      ensures Now() == Flushed(sb, old(Now()), i)
      ensures spec == old(spec).(logged := old(spec).logged + {InodeBlock(sb, i)})
      ensures old(Tracked()) ==> Tracked() == true
    {
      var data := blocks[InodeBlock(sb, i)];
      LogWrite(InodeBlock(sb, i), PutWords(data, 16 * (i % IPB), Encode(inode[i])), spec.tree, spec.owner);
    }

    /** The end of writei: the size and the inode. */
    method FinishWrite(i: nat, end: nat, ghost s: Snap, ghost size: nat)
      requires Shaped(sb, blocks) && i < sb.ninodes && i < |inode| && InodeOk(inode[i]) && end < WORD_LIMIT
      requires s == Now() && size == Max(inode[i].size, end)
      modifies this
      ensures Now() == Flushed(sb, Resized(s, i, size), i)
      ensures spec == old(spec).(logged := old(spec).logged + {InodeBlock(sb, i)})
      ensures old(Tracked()) ==> Tracked() == true
    {
      if end > inode[i].size {
        inode := inode[i := inode[i].(size := end)];
      }
      assert Now() == Resized(s, i, size);
      Iupdate(i);
    }

    /** writei past its checks, for n > 0; false is the panic for a full disk. */
    method WriteAt(i: nat, off: nat, src: seq<Byte>, n: nat) returns (ok: bool)
      requires Consistent(sb, Now()) == true && i < sb.ninodes && |src| <= n
      requires off <= inode[i].size && off + n <= MAXFILE * BSIZE
      modifies this
      ensures ok ==> FileWritten(sb, old(Now()), Now(), i, off, src, n) == true
      ensures ok && old(spec).logged == {} && n <= 3 * BSIZE ==> |spec.logged| <= sb.datastart - sb.bmapstart + 6
      ensures !ok ==> Shaped(sb, blocks) && Full()
      ensures ok && |src| == n ==> spec.home == old(spec).home && (old(Tracked()) ==> Tracked() == true)
      ensures ok && InRange(sb, old(spec).logged) ==> InRange(sb, spec.logged) == true
    {
      ghost var s := Now();
      var tot;
      tot, ok := WriteLoop(i, off, src, n);
      if !ok { return; }
      ghost var t, size := Now(), Max(inode[i].size, off + tot);
      FileWrittenFrom(sb, s, t, i, off, src, n, size);
      if old(spec).logged == {} && n <= 3 * BSIZE { WriteBudget(sb, s, t, i, off, src, n, spec.logged); }
      if InRange(sb, old(spec).logged) { WriteRange(sb, s, t, i, off, src, n, old(spec).logged, spec.logged); }
      FinishWrite(i, off + tot, t, size);
    }

    /** writei: n bytes at off, of which the source can deliver src. None is the panic for a full disk. */
    method Writei(i: nat, off: nat, src: seq<Byte>, n: nat) returns (r: Option<int>)
      requires Consistent(sb, Now()) == true && i < sb.ninodes && |src| <= n < WORD_LIMIT && off < WORD_LIMIT
      modifies this
      ensures r == Some(-1) <==> off > old(inode)[i].size || off + n > MAXFILE * BSIZE
      ensures r == Some(-1) ==> Now() == old(Now()) && spec == old(spec)
      ensures r.None? ==> Shaped(sb, blocks) && Full()
      ensures r.Some? && r != Some(-1) ==>
        r == Some(n as int) && FileWritten(sb, old(Now()), Now(), i, off, src, n) == true
      ensures r.Some? && old(spec).logged == {} && n <= 3 * BSIZE ==> |spec.logged| <= sb.datastart - sb.bmapstart + 6
      ensures r.Some? && |src| == n ==> spec.home == old(spec).home && (old(Tracked()) ==> Tracked() == true)
      ensures r.Some? && InRange(sb, old(spec).logged) ==> InRange(sb, spec.logged) == true
    {
      if off > inode[i].size || (off + n) % WORD_LIMIT < off { return Some(-1); }
      if (off + n) % WORD_LIMIT > MAXFILE * BSIZE { return Some(-1); }
      if n == 0 {
        FileUnwritten(sb, Now(), i, off);
        return Some(n);
      }
      var ok := WriteAt(i, off, src, n);
      if ok { return Some(n); }
      return None;
    }

    /** One address of itrunc, for slot k: bfree when it is not zero. */
    method FreeAddr(i: nat, a: nat, ghost s: Snap, ghost k: nat, ghost f: Freed, ghost g: Freed, ghost l0: set<nat>)
      returns (ok: bool)
      requires Core(sb, s) == true && Freeing(sb, s, blocks, i, f, l0, spec.logged) == true
      requires i < sb.ninodes && k < SLOTS
      requires OneMore(f, g, k) == true && i < |s.inode| && InodeOk(s.inode[i])
      requires a == if k <= NDIRECT then s.inode[i].addrs[k] else Entry(s.blocks, s.inode[i].addrs[NDIRECT], k)
      modifies this`blocks, this`spec
      ensures ok && Freeing(sb, s, blocks, i, g, l0, spec.logged) == true
      ensures spec == old(spec).(logged := spec.logged)
      ensures old(Tracked()) ==> Tracked() == true
    {
      FreeingOne(sb, s, blocks, i, k, f, g, l0, spec.logged, a);
      ok := true;
      if a != 0 { ok := Bfree(a); }
    }

    /** itrunc's loop over the direct addresses. */
    method FreeDirect(i: nat, ghost s: Snap) returns (ok: bool)
      requires Core(sb, Now()) == true && s == Now() && i < sb.ninodes
      modifies this
      ensures ok && Freeing(sb, s, blocks, i, Freed(NDIRECT, false), old(spec).logged, spec.logged) == true
      ensures i < |s.inode| && InodeOk(s.inode[i]) && inode == ZeroedInode(s.inode, i, NDIRECT)
      ensures spec == old(spec).(logged := spec.logged)
      ensures old(Tracked()) ==> Tracked() == true
    {
      ghost var l0 := spec.logged;
      InodeHere(sb, s, i);
      FreeingStart(sb, s, i, l0);
      ZeroedInodeNext(s.inode, i, 0);
      ok := true;
      var k := 0;
      while k < NDIRECT
        invariant k <= NDIRECT && ok && Freeing(sb, s, blocks, i, Freed(k, false), l0, spec.logged) == true
        invariant inode == ZeroedInode(s.inode, i, k) && spec == old(spec).(logged := spec.logged)
        invariant old(Tracked()) ==> Tracked() == true
      {
        ZeroedInodeNext(s.inode, i, k);
        var a := inode[i].addrs[k];
        ok := FreeAddr(i, a, s, k, Freed(k, false), Freed(k + 1, false), l0);
        inode := inode[i := inode[i].(addrs := inode[i].addrs[k := 0])];
        k := k + 1;
      }
    }

    /** One entry of the indirect block data. */
    method FreeEntry(i: nat, data: Block, j: nat, ghost k: nat, ghost s: Snap, ghost l0: set<nat>) returns (ok: bool)
      requires j < NINDIRECT && k == NDIRECT + 1 + j && Core(sb, s) == true && i < sb.ninodes
      requires Freeing(sb, s, blocks, i, Freed(k, false), l0, spec.logged) == true
      requires i < |s.inode| && InodeOk(s.inode[i]) && 0 < s.inode[i].addrs[NDIRECT] < |s.blocks|
      requires data == s.blocks[s.inode[i].addrs[NDIRECT]]
      modifies this`blocks, this`spec
      ensures ok && Freeing(sb, s, blocks, i, Freed(k + 1, false), l0, spec.logged) == true
      ensures spec == old(spec).(logged := spec.logged) && (old(Tracked()) ==> Tracked() == true)
    {
      ok := FreeAddr(i, WordAt(data, j), s, k, Freed(k, false), Freed(k + 1, false), l0);
    }

    /** itrunc's loop over the entries of the indirect block data; they keep their values. */
    method FreeEntries(i: nat, data: Block, ghost s: Snap, ghost l0: set<nat>) returns (ok: bool)
      requires Core(sb, s) == true && i < sb.ninodes
      requires Freeing(sb, s, blocks, i, Freed(NDIRECT, false), l0, spec.logged) == true
      requires i < |s.inode| && InodeOk(s.inode[i]) && 0 < s.inode[i].addrs[NDIRECT] < |s.blocks|
      requires data == s.blocks[s.inode[i].addrs[NDIRECT]]
      modifies this`blocks, this`spec
      ensures ok && Freeing(sb, s, blocks, i, Freed(SLOTS, false), l0, spec.logged) == true
      ensures spec == old(spec).(logged := spec.logged)
      ensures old(Tracked()) ==> Tracked() == true
    {
      FreeingPast(sb, s, blocks, i, l0, spec.logged);
      ok := true;
      var j := 0;
      while j < NINDIRECT
        invariant j <= NINDIRECT && ok
        invariant Freeing(sb, s, blocks, i, Freed(NDIRECT + 1 + j, false), l0, spec.logged) == true
        invariant spec == old(spec).(logged := spec.logged) && (old(Tracked()) ==> Tracked() == true)
      {
        ok := FreeEntry(i, data, j, NDIRECT + 1 + j, s, l0);
        j := j + 1;
      }
    }

    /** itrunc's treatment of the indirect block. */
    method FreeIndirect(i: nat, ghost s: Snap, ghost l0: set<nat>) returns (ok: bool)
      requires Core(sb, s) == true && i < sb.ninodes
      requires Freeing(sb, s, blocks, i, Freed(NDIRECT, false), l0, spec.logged) == true
      requires i < |s.inode| && InodeOk(s.inode[i]) && inode == ZeroedInode(s.inode, i, NDIRECT)
      modifies this
      ensures ok && Freeing(sb, s, blocks, i, Freed(SLOTS, true), l0, spec.logged) == true
      ensures inode == s.inode[i := s.inode[i].(addrs := Zeros(NDIRECT + 1))]
      ensures spec == old(spec).(logged := spec.logged)
      ensures old(Tracked()) ==> Tracked() == true
    {
      InodeHere(sb, s, i);
      ZeroedAll(s.inode[i].addrs);
      var a := inode[i].addrs[NDIRECT];
      ok := true;
      if a != 0 {
        ok := FreeEntries(i, blocks[a], s, l0);
        ok := FreeAddr(i, a, s, NDIRECT, Freed(SLOTS, false), Freed(SLOTS, true), l0);
        inode := inode[i := inode[i].(addrs := inode[i].addrs[NDIRECT := 0])];
      } else {
        FreeingNoEntries(sb, s, blocks, i, l0, spec.logged);
      }
    }

    /** itrunc; false would be bfree's panic, which never comes. */
    method Itrunc(i: nat) returns (ok: bool)
      requires Consistent(sb, Now()) == true && i < sb.ninodes
      modifies this
      ensures ok && FileTruncated(sb, old(Now()), Now(), i) == true
      ensures forall b :: b in spec.logged ==> b in old(spec).logged || InBitmap(sb, b) || b == InodeBlock(sb, i)
      ensures old(Tracked()) ==> Tracked() == true
    {
      ghost var s, l0 := Now(), spec.logged;
      ok := FreeDirect(i, s);
      ok := FreeIndirect(i, s, l0);
      FileTruncatedFrom(sb, s, blocks, i, l0, spec.logged);
      inode := inode[i := inode[i].(size := 0)];
      spec := spec.(tree := s.tree[i := Tree(Zeros(SLOTS))], owner := Without(s.owner, i));
      assert Now() == Truncated(s, blocks, i);
      Iupdate(i);
    }

    /** One iteration of readi's loop: got bytes at cur, all inside one block. */
    method ReadChunk(i: nat, cur: nat, got: nat) returns (out: seq<Byte>)
      requires Consistent(sb, Now()) == true && i < sb.ninodes
      requires Fits(cur, got) && cur + got <= inode[i].size && cur < inode[i].size
      modifies this
      ensures Now() == old(Now()) && spec == old(spec) && Delivered(Content(Now(), i), cur, got, out) == true
    {
      ghost var s := Now();
      DenseBelow(sb, s, i, cur);
      var b := Bmap(i, cur / BSIZE);
      ChunkBytes(s, i, cur, got, b.value);
      out := blocks[b.value].bytes[cur % BSIZE..cur % BSIZE + got];
    }

    /** readi: n bytes at off into a destination that takes room bytes; r is what it returns. */
    method Readi(i: nat, off: nat, n: nat, room: nat) returns (r: nat, out: seq<Byte>)
      requires Consistent(sb, Now()) == true && i < sb.ninodes && off < WORD_LIMIT && n < WORD_LIMIT
      modifies this
      ensures Now() == old(Now()) && spec == old(spec)
      ensures off > inode[i].size || off + n >= WORD_LIMIT ==> r == 0 && out == []
      ensures off <= inode[i].size && off + n < WORD_LIMIT ==>
        var m := if off + n > inode[i].size then inode[i].size - off else n;
        var good := if room < m then room else m;
        out == Content(Now(), i)[off..off + good] && r == Counted(off, m, good)
    {
      r, out := 0, [];
      if off > inode[i].size || (off + n) % WORD_LIMIT < off { return; }
      var m := if off + n > inode[i].size then inode[i].size - off else n;
      r, out := ReadLoop(i, off, m, if room < m then room else m);
    }

    method ReadLoop(i: nat, off: nat, n: nat, good: nat) returns (tot: nat, out: seq<Byte>)
      requires Consistent(sb, Now()) == true && i < sb.ninodes && good <= n && off + n <= inode[i].size
      modifies this
      ensures Now() == old(Now()) && spec == old(spec)
      ensures Delivered(Content(Now(), i), off, good, out) == true && tot == Counted(off, n, good)
    {
      ghost var s := Now();
      tot, out := 0, [];
      CountedAll(off, n);
      while tot < n
        invariant tot <= good && AtBoundary(off, tot, n) == true
        invariant Now() == s && spec == old(spec)
        invariant Delivered(Content(s, i), off, tot, out) == true
      {
        var got, stop := NextChunk(off, tot, n, good);
        var piece := ReadChunk(i, off + tot, got);
        DeliveredNext(Content(s, i), off, tot, got, out, piece);
        out := out + piece;
        if stop { return; }
        tot := tot + got;
      }
    }

    /** One transaction of filewrite; what it logs fits its reservation and is all that it changes. */
    method WriteOp(i: nat, off: nat, src: seq<Byte>) returns (r: Option<int>)
      requires Consistent(sb, Now()) == true && i < sb.ninodes && |src| <= WRITE_MAX && off < WORD_LIMIT
      modifies this
      ensures r == Some(-1) <==> off > old(inode)[i].size || off + |src| > MAXFILE * BSIZE
      ensures r == Some(-1) ==> Now() == old(Now())
      ensures r.Some? && r != Some(-1) ==>
        r.value >= 0 && FileWritten(sb, old(Now()), Now(), i, off, src, |src|) == true
      ensures r.Some? ==> |spec.logged| <= sb.datastart - sb.bmapstart + 6 && InRange(sb, spec.logged) == true
      ensures r.Some? ==> Covered(old(blocks), blocks, spec.logged) == true
    {
      spec := spec.(logged := {}, home := blocks);
      r := Writei(i, off, src, |src|);
    }

    /** One turn of filewrite's loop: the bytes k..k1 in a transaction. r is what writei returns; None is a panic. */
    method WriteNext(i: nat, off: nat, src: seq<Byte>, k: nat, k1: nat, ghost s: Snap) returns (r: Option<int>)
      requires Chunked(sb, s, Now(), i, off, src, k) == true && k < |src|
      requires ChunkPos(k, |src|) && k1 == k + WriteLen(k, |src|)
      requires i < sb.ninodes && i < |s.inode| && off < WORD_LIMIT && |src| < WORD_LIMIT
      modifies this
      ensures r.Some? && r.value >= 0 ==>
        Chunked(sb, s, Now(), i, off, src, k1) == true && Transaction(sb, old(Now()), Now(), spec.logged) == true
      ensures r.Some? && r.value < 0 ==>
        k == Accepted(s.inode[i].size, off, |src|) && Through(sb, s, Now(), i, off, src[..k]) == true
    {
      ghost var t := Now();
      var cur, piece := off + k, src[k..k1];
      ChunkedHere(sb, s, t, i, off, src, k);
      r := WriteOp(i, cur, piece);
      if r.Some? {
        if r.value < 0 {
          ChunkedStop(sb, s, t, i, off, src, k);
        } else {
          ChunkedNext(sb, s, t, Now(), i, off, cur, src, k, k1, piece);
        }
      }
    }

    /**
     filewrite's loop: one transaction for each chunk. k bytes are stored when it ends; ok is false for a panic. ss and
     ls record the transactions that were completed.
     */
    method WriteChunks(i: nat, off: nat, src: seq<Byte>)
      returns (k: nat, ok: bool, ghost ss: seq<Snap>, ghost ls: seq<set<nat>>)
      requires Consistent(sb, Now()) == true && i < sb.ninodes && off < WORD_LIMIT && |src| < WORD_LIMIT
      modifies this
      ensures Run(sb, ss, ls, i, off, src) == true && |ss| == |ls| + 1 && ss[0] == old(Now())
      ensures ok ==> k == Accepted(old(inode)[i].size, off, |src|)
      ensures ok ==> Through(sb, old(Now()), Now(), i, off, src[..k]) == true && k == Upto(|ls|, |src|)
    {
      ghost var s := Now();
      ChunkedStart(sb, s, i, off, src);
      RunStart(sb, s, i, off, src);
      k, ss, ls := 0, [s], [];
      while k < |src|
        invariant Chunked(sb, s, Now(), i, off, src, k) == true
        invariant Run(sb, ss, ls, i, off, src) == true && |ss| == |ls| + 1 && ss[0] == s && ss[|ls|] == Now()
        invariant k == Upto(|ls|, |src|)
      {
        ChunkedHere(sb, s, Now(), i, off, src, k);
        var k1 := k + WriteLen(k, |src|);
        UptoNext(|ls|, |src|);
        var r := WriteNext(i, off, src, k, k1, s);
        if r.None? { ok := false; return; }
        if r.value < 0 { ok := true; return; }
        RunNext(sb, ss, ls, i, off, src, Now(), spec.logged, k1);
        k, ss, ls := k1, ss + [Now()], ls + [spec.logged];
      }
      ChunkedStop(sb, s, Now(), i, off, src, k);
      ok := true;
    }

    /** filewrite on an inode: ret is what it returns, end the new f->off. None is a panic. */
    method Filewrite(i: nat, off: nat, src: seq<Byte>, n: int)
      returns (ret: Option<int>, end: nat, ghost ss: seq<Snap>, ghost ls: seq<set<nat>>)
      requires Consistent(sb, Now()) == true && i < sb.ninodes && off < WORD_LIMIT && n < WORD_LIMIT
      requires |src| == if n < 0 then 0 else n
      modifies this
      ensures ret.Some? ==>
        Through(sb, old(Now()), Now(), i, off, src[..Accepted(old(inode)[i].size, off, |src|)]) == true
      ensures ret.Some? ==> end == off + Accepted(old(inode)[i].size, off, |src|)
      ensures ret.Some? ==> ret.value == if Accepted(old(inode)[i].size, off, |src|) == n then n else -1
      ensures Run(sb, ss, ls, i, off, src) == true && |ss| == |ls| + 1 && ss[0] == old(Now())
      ensures ret.Some? ==> Upto(|ls|, |src|) == Accepted(old(inode)[i].size, off, |src|)
    {
      var k, ok;
      k, ok, ss, ls := WriteChunks(i, off, src);
      end := off + k;
      ret := if !ok then None else Some(if k == n then n else -1);
    }
  }
}

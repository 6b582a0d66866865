/**
 Pipes: a ring of PIPESIZE bytes with 32-bit counters that wrap. A call of pipewrite or piperead is a row of turns,
 each run under the pipe's lock from the point where the lock is taken or sleep returns to the point where the call
 sleeps or ends.
 A predicate that a method only hands on is written `P == true`, so that it is handed on unopened.
 */
module Pipe {
  import opened Basics
  import opened Bytes

  const PIPESIZE := 512

  /* The ring. put and got are all the bytes ever put into it and taken out of it. */

  predicate SlotOk(data: seq<Byte>, put: seq<Byte>, k: nat) {
    |data| == PIPESIZE && k < |put| && data[k % PIPESIZE] == put[k]
  }

  predicate RingOk(data: seq<Byte>, put: seq<Byte>, got: seq<Byte>) {
    && |data| == PIPESIZE && |got| <= |put| <= |got| + PIPESIZE && got == put[..|got|]
    && forall k :: |got| <= k < |put| ==> SlotOk(data, put, k)
  }

  predicate CountersOk(nread: Word, nwrite: Word, put: seq<Byte>, got: seq<Byte>) {
    nread == |got| % WORD_LIMIT && nwrite == |put| % WORD_LIMIT
  }

  lemma SlotsDiffer(a: nat, b: nat)
    requires a < b < a + PIPESIZE
    ensures a % PIPESIZE != b % PIPESIZE
  {}

  lemma PutKeeps(data: seq<Byte>, put: seq<Byte>, got: seq<Byte>, ch: Byte)
    requires RingOk(data, put, got) && |put| < |got| + PIPESIZE
    ensures RingOk(data[|put| % PIPESIZE := ch], put + [ch], got)
  {
    var now := data[|put| % PIPESIZE := ch];
    assert got == (put + [ch])[..|got|];
    forall k | |got| <= k < |put| + 1
      ensures SlotOk(now, put + [ch], k)
    {
      if k < |put| {
        SlotsDiffer(k, |put|);
        assert SlotOk(data, put, k);
      }
    }
  }

  lemma TakeKeeps(data: seq<Byte>, put: seq<Byte>, got: seq<Byte>)
    requires RingOk(data, put, got) && |got| < |put|
    ensures RingOk(data, put, got + [data[|got| % PIPESIZE]])
  {
    assert SlotOk(data, put, |got|);
    assert put[..|got| + 1] == put[..|got|] + [put[|got|]];
  }

  /** A counter that wraps counts modulo 2^32, and still gives the slot. */
  lemma CounterStep(count: nat)
    ensures (count % WORD_LIMIT + 1) % WORD_LIMIT == (count + 1) % WORD_LIMIT
    ensures (count % WORD_LIMIT) % PIPESIZE == count % PIPESIZE
  {
    var q, w := count / WORD_LIMIT, count % WORD_LIMIT;
    assert count == PIPESIZE * (WORD_LIMIT / PIPESIZE * q) + w;
    WholeRounds(WORD_LIMIT / PIPESIZE * q, w);
  }

  lemma WholeRounds(q: nat, w: nat)
    ensures (PIPESIZE * q + w) % PIPESIZE == w % PIPESIZE
  {}

  lemma SameCount(a: nat, b: nat)
    requires a <= b < a + WORD_LIMIT && a % WORD_LIMIT == b % WORD_LIMIT
    ensures a == b
  {}

  lemma AheadCount(a: nat)
    ensures (a % WORD_LIMIT + PIPESIZE) % WORD_LIMIT == (a + PIPESIZE) % WORD_LIMIT
  {
    var q, w := a / WORD_LIMIT, a % WORD_LIMIT;
    assert a + PIPESIZE == WORD_LIMIT * q + (w + PIPESIZE);
    if w + PIPESIZE >= WORD_LIMIT { assert a + PIPESIZE == WORD_LIMIT * (q + 1) + (w + PIPESIZE - WORD_LIMIT); }
  }

  /** Wrapped counts that are the same are counts that are the same. */
  lemma SameWrapped(a: nat, b: nat)
    requires a <= b < a + WORD_LIMIT
    ensures a % WORD_LIMIT == b % WORD_LIMIT <==> a == b
  {
    if a % WORD_LIMIT == b % WORD_LIMIT { SameCount(a, b); }
  }

  /** The tests on the wrapped counters say whether the ring is empty and whether it is full, and never both. */
  lemma CounterTests(nread: Word, nwrite: Word, data: seq<Byte>, put: seq<Byte>, got: seq<Byte>)
    requires RingOk(data, put, got) && CountersOk(nread, nwrite, put, got)
    ensures nread == nwrite <==> |put| == |got|
    ensures nwrite == (nread + PIPESIZE) % WORD_LIMIT <==> |put| == |got| + PIPESIZE
  {
    CountTests(nread, nwrite, |put|, |got|);
  }

  lemma CountTests(nread: Word, nwrite: Word, put: nat, got: nat)
    requires got <= put <= got + PIPESIZE && nread == got % WORD_LIMIT && nwrite == put % WORD_LIMIT
    ensures nread == nwrite <==> put == got
    ensures nwrite == (nread + PIPESIZE) % WORD_LIMIT <==> put == got + PIPESIZE
  {
    SameWrapped(got, put);
    SameWrapped(put, got + PIPESIZE);
    AheadCount(got);
  }

  /* Turns. src is what copyin finds at each address of the source, nothing where it fails. */

  /** How many bytes of src a turn moves from index i on into a ring with room for so many. */
  function Moved(room: nat, src: seq<Option<Byte>>, i: nat): nat
    decreases |src| - i
  {
    if i >= |src| || room == 0 || src[i].None? then 0 else 1 + Moved(room - 1, src, i + 1)
  }

  predicate Readable(src: seq<Option<Byte>>, i: nat, k: nat) {
    i + k <= |src| && forall x :: i <= x < i + k ==> src[x].Some?
  }

  /** It is as many as there is room for and can be read, and no fewer. */
  lemma {:induction false} MovedMost(room: nat, src: seq<Option<Byte>>, i: nat)
    requires i <= |src|
    ensures var k := Moved(room, src, i);
      && k <= room && Readable(src, i, k)
      && (k == room || i + k == |src| || src[i + k].None?)
    decreases |src| - i
  {
    if i < |src| && room > 0 && src[i].Some? { MovedMost(room - 1, src, i + 1); }
  }

  function Values(src: seq<Option<Byte>>, i: nat, k: nat): seq<Byte>
    requires Readable(src, i, k)
  {
    seq(k, x requires 0 <= x < k => src[i + x].value)
  }

  /** A turn ends asleep, to go on at index i, or with a result; woke tells whether it woke the other side. */
  datatype Outcome = Asleep(i: nat) | Returned(r: int, woke: bool)

  function WriteEnd(room: nat, src: seq<Option<Byte>>, i: nat, readopen: bool, killed: bool): Outcome
    requires i <= |src|
  {
    var k := Moved(room, src, i);
    if i + k >= |src| || k < room then Returned(i + k, true)
    else if !readopen || killed then Returned(-1, false)
    else Asleep(i + k)
  }

  /** How many bytes a read takes out of a ring that holds so many: one more than it delivers when copyout fails. */
  function Pulled(held: nat, ok: seq<bool>, i: nat): nat
    decreases |ok| - i
  {
    if i >= |ok| || held == 0 then 0 else if !ok[i] then 1 else 1 + Pulled(held - 1, ok, i + 1)
  }

  function Delivered(held: nat, ok: seq<bool>, i: nat): nat
    decreases |ok| - i
  {
    if i >= |ok| || held == 0 || !ok[i] then 0 else 1 + Delivered(held - 1, ok, i + 1)
  }

  /** A byte is lost exactly when copyout fails, and then it is one. */
  lemma {:induction false} PulledMost(held: nat, ok: seq<bool>, i: nat)
    requires i <= |ok|
    ensures var d := Delivered(held, ok, i); var t := Pulled(held, ok, i);
      && d <= t <= held && i + t <= |ok| && (forall x :: i <= x < i + d ==> ok[x])
      && t == (if d < held && i + d < |ok| then d + 1 else d) && (d < t ==> !ok[i + d])
    decreases |ok| - i
  {
    if i < |ok| && held > 0 && ok[i] { PulledMost(held - 1, ok, i + 1); }
  }

  ghost predicate WriteTurned(room: nat, src: seq<Option<Byte>>, i: nat, put: seq<Byte>, now: seq<Byte>) {
    var k := Moved(room, src, i);
    Readable(src, i, k) && now == put + Values(src, i, k)
  }

  ghost predicate ReadTurned(q: seq<Byte>, writeopen: bool, ok: seq<bool>, killed: bool, got: seq<Byte>, now: seq<Byte>,
                             dst: seq<Byte>, o: Outcome)
  {
    if q == [] && writeopen
    then now == got && dst == [] && o == if killed then Returned(-1, false) else Asleep(0)
    else var d := Delivered(|q|, ok, 0); var t := Pulled(|q|, ok, 0);
      && d <= t <= |q| && now == got + q[..t] && dst == q[..d] && o == Returned(d, true)
  }

  /** The copying loop of a read has taken and delivered i bytes, and goes on. */
  predicate Draining(held: nat, ok: seq<bool>, i: nat) {
    && i <= |ok| && i <= held && Pulled(held, ok, 0) == i + Pulled(held - i, ok, i)
    && Delivered(held, ok, 0) == i + Delivered(held - i, ok, i)
  }

  lemma DrainEnd(held: nat, ok: seq<bool>, i: nat)
    requires Draining(held, ok, i) == true
    ensures i == |ok| || i == held ==> Pulled(held, ok, 0) == Delivered(held, ok, 0) == i
    ensures i < |ok| && i < held && !ok[i] ==> Pulled(held, ok, 0) == i + 1 && Delivered(held, ok, 0) == i
  {}

  lemma DrainNext(held: nat, ok: seq<bool>, i: nat)
    requires Draining(held, ok, i) && i < held && i < |ok| && ok[i]
    ensures Draining(held, ok, i + 1) == true
  {}

  class Ring {
    var data: seq<Byte>
    var nread: Word
    var nwrite: Word
    var readopen: bool
    var writeopen: bool
    ghost var put: seq<Byte>
    ghost var got: seq<Byte>

    ghost predicate Valid()
      reads this
    {
      RingOk(data, put, got) && CountersOk(nread, nwrite, put, got)
    }

    /** What is buffered. */
    ghost function Queue(): seq<Byte>
      requires Valid()
      reads this
    {
      put[|got|..]
    }

    constructor (page: seq<Byte>)
      requires |page| == PIPESIZE
      ensures Valid() && put == [] && got == [] && readopen && writeopen
    {
      data, nread, nwrite, readopen, writeopen := page, 0, 0, true, true;
      put, got := [], [];
    }

    method Put(ch: Byte)
      requires Valid() && |put| < |got| + PIPESIZE
      modifies `data, `nwrite, `put
      ensures Valid() && put == old(put) + [ch]
    {
      PutKeeps(data, put, got, ch);
      CounterStep(|put|);
      data := data[nwrite % PIPESIZE := ch];
      nwrite := (nwrite + 1) % WORD_LIMIT;
      put := put + [ch];
    }

    method Take() returns (ch: Byte)
      requires Valid() && |got| < |put|
      modifies `nread, `got
      ensures Valid() && got == old(got) + [ch] && ch == put[|old(got)|]
    {
      TakeKeeps(data, put, got);
      assert SlotOk(data, put, |got|);
      CounterStep(|got|);
      ch := data[nread % PIPESIZE];
      nread := (nread + 1) % WORD_LIMIT;
      got := got + [ch];
    }
  
    /** A turn of pipewrite. The lock keeps the test for room true until the byte is in. */
    method WriteTurn(src: seq<Option<Byte>>, from: nat, killed: bool) returns (o: Outcome)
      requires Valid() && from <= |src|
      modifies `data, `nwrite, `put
      ensures Valid()
      ensures var room := |old(got)| + PIPESIZE - |old(put)|; room >= 0 && WriteTurned(room, src, from, old(put), put)
      ensures o == WriteEnd(|old(got)| + PIPESIZE - |old(put)|, src, from, readopen, killed)
    {
      var i := from;
      ghost var room := |got| + PIPESIZE - |put|;
      ghost var was := put;
      MovedMost(room, src, from);
      while i < |src|
        invariant from <= i <= |src| && Valid() && |put| == |was| + (i - from) && got == old(got)
        invariant i - from <= room && Moved(room, src, from) == i - from + Moved(room - (i - from), src, i)
        invariant Readable(src, from, i - from) && put == was + Values(src, from, i - from)
      {
        CounterTests(nread, nwrite, data, put, got);
        if nwrite == (nread + PIPESIZE) % WORD_LIMIT {
          if !readopen || killed {
            return Returned(-1, false);
          }
          return Asleep(i);
        }
        if src[i].None? {
          break;
        }
        Put(src[i].value);
        i := i + 1;
      }
      o := Returned(i, true);
    }

    /** The copying loop of piperead. ok tells at which addresses copyout succeeds; dst is what it stores. */
    method Drain(ok: seq<bool>) returns (dst: seq<Byte>)
      requires Valid()
      modifies `nread, `got
      ensures Valid()
      ensures var q := old(Queue());
        && Delivered(|q|, ok, 0) <= Pulled(|q|, ok, 0) <= |q|
        && got == old(got) + q[..Pulled(|q|, ok, 0)] && dst == q[..Delivered(|q|, ok, 0)]
    {
      ghost var q := Queue();
      PulledMost(|q|, ok, 0);
      dst := [];
      var i := 0;
      while i < |ok|
        invariant 0 <= i <= |ok| && i <= |q| && Draining(|q|, ok, i) == true
        invariant Valid() && got == old(got) + q[..i] && dst == q[..i]
      {
        CounterTests(nread, nwrite, data, put, got);
        DrainEnd(|q|, ok, i);
        if nread == nwrite {
          return;
        }
        var ch := Take();
        assert q[..i + 1] == q[..i] + [q[i]];
        if !ok[i] {
          return;
        }
        dst := dst + [ch];
        DrainNext(|q|, ok, i);
        i := i + 1;
      }
      DrainEnd(|q|, ok, i);
    }

    /** A turn of piperead. */
    method ReadTurn(ok: seq<bool>, killed: bool) returns (o: Outcome, dst: seq<Byte>)
      requires Valid()
      modifies `nread, `got
      ensures Valid()
      ensures ReadTurned(old(Queue()), writeopen, ok, killed, old(got), got, dst, o)
    {
      CounterTests(nread, nwrite, data, put, got);
      if nread == nwrite && writeopen {
        if killed {
          return Returned(-1, false), [];
        }
        return Asleep(0), [];
      }
      dst := Drain(ok);
      o := Returned(|dst|, true);
    }

    method Close(writable: bool)
      modifies `readopen, `writeopen
      ensures writeopen == (old(writeopen) && !writable) && readopen == (old(readopen) && writable)
    {
      if writable {
        writeopen := false;
      } else {
        readopen := false;
      }
    }
  }

  /* Any number of processes on one pipe. */

  /** A pipewrite in progress: it goes on at index i, and its turns have put the bytes mine into the ring. */
  datatype Call = Call(src: seq<Option<Byte>>, i: nat, mine: seq<Byte>)

  /** A pipewrite that has returned r. */
  datatype Written = Written(src: seq<Option<Byte>>, r: int, mine: seq<Byte>)

  /** seen is what reads have delivered, in order; calls has the writers between two turns, done those that returned. */
  datatype Sys = Sys(put: seq<Byte>, got: seq<Byte>, seen: seq<Byte>, readopen: bool, writeopen: bool,
                     readers: set<nat>, writers: set<nat>, calls: map<nat, Call>, done: seq<Written>)

  const START := Sys([], [], [], true, true, {}, {}, map[], [])

  /** Turns of the process p, a close, or a kill that makes the sleeping process p run. */
  datatype Event = Write(p: nat, src: seq<Option<Byte>>, i: nat, killed: bool)
                 | Read(p: nat, ok: seq<bool>, killed: bool)
                 | Close(writable: bool)
                 | Kill(p: nat)

  ghost predicate Flow(s: Sys) { |s.got| <= |s.put| <= |s.got| + PIPESIZE && s.got == s.put[..|s.got|] }

  function Room(s: Sys): nat { if |s.put| <= |s.got| + PIPESIZE then |s.got| + PIPESIZE - |s.put| else 0 }

  function Held(s: Sys): seq<Byte> { if |s.got| <= |s.put| then s.put[|s.got|..] else [] }

  /** The call that a turn of writer p with source src belongs to. */
  function CallOf(s: Sys, p: nat, src: seq<Option<Byte>>): Call {
    if p in s.calls then s.calls[p] else Call(src, 0, [])
  }

  /** A turn ends with outcome o, after its bytes more. */
  function Ended(s: Sys, p: nat, c: Call, more: seq<Byte>, o: Outcome): Sys {
    match o
    case Asleep(i) => s.(calls := s.calls[p := Call(c.src, i, c.mine + more)])
    case Returned(r, _) => s.(calls := s.calls - {p}, done := s.done + [Written(c.src, r, c.mine + more)])
  }

  ghost predicate WriteStep(s: Sys, e: Event, t: Sys)
    requires e.Write?
  {
    var c := CallOf(s, e.p, e.src);
    && e.p !in s.readers + s.writers && e.src == c.src && e.i == c.i <= |e.src|
    && WriteTurned(Room(s), e.src, e.i, s.put, t.put) && |s.put| <= |t.put|
    && var o := WriteEnd(Room(s), e.src, e.i, s.readopen, e.killed);
      t == Ended(s, e.p, c, t.put[|s.put|..], o).(put := t.put,
        readers := if o.Asleep? || o.woke then {} else s.readers,
        writers := if o.Asleep? then s.writers + {e.p} else s.writers)
  }

  ghost predicate ReadStep(s: Sys, e: Event, t: Sys, dst: seq<Byte>, o: Outcome)
    requires e.Read?
  {
    && e.p !in s.readers + s.writers && e.p !in s.calls
    && ReadTurned(Held(s), s.writeopen, e.ok, e.killed, s.got, t.got, dst, o)
    && t == s.(got := t.got, seen := s.seen + dst, readers := if o.Asleep? then s.readers + {e.p} else s.readers,
               writers := if o.Returned? && o.woke then {} else s.writers)
  }

  ghost predicate Step(s: Sys, e: Event, t: Sys) {
    match e
    case Write(_, _, _, _) => WriteStep(s, e, t)
    case Read(_, _, _) => exists dst, o :: ReadStep(s, e, t, dst, o)
    case Close(writable) =>
      if writable then t == s.(writeopen := false, readers := {}) else t == s.(readopen := false, writers := {})
    case Kill(p) => t == s.(readers := s.readers - {p}, writers := s.writers - {p})
  }

  ghost predicate Run(states: seq<Sys>, events: seq<Event>) {
    && |states| == |events| + 1 && states[0] == START
    && forall i :: 0 <= i < |events| ==> Step(states[i], events[i], states[i + 1])
  }

  lemma ReadFlow(s: Sys, e: Event, t: Sys, dst: seq<Byte>, o: Outcome)
    requires Flow(s) && e.Read? && ReadStep(s, e, t, dst, o)
    ensures Flow(t) && s.got <= t.got && s.put == t.put && |dst| <= |t.got| - |s.got|
    ensures (forall x :: 0 <= x < |e.ok| ==> e.ok[x]) ==> t.got == s.got + dst
  {
    var q := Held(s);
    var k := |t.got| - |s.got|;
    PulledMost(|q|, e.ok, 0);
    assert t.got == s.got + q[..k];
    assert s.put[..|s.got| + k] == s.put[..|s.got|] + q[..k];
  }

  lemma StepFlow(s: Sys, e: Event, t: Sys)
    requires Flow(s) && Step(s, e, t)
    ensures Flow(t) && s.got <= t.got && s.put <= t.put
  {
    match e
    case Write(_, src, i, _) =>
      MovedMost(Room(s), src, i);
      assert t.put[..|s.put|] == s.put;
      assert t.put[..|s.got|] == s.put[..|s.got|];
    case Read(_, _, _) =>
      var dst, o :| ReadStep(s, e, t, dst, o);
      ReadFlow(s, e, t, dst, o);
    case Close(_) =>
    case Kill(_) =>
  }

  /**
   First in, first out, over runs of any length, wrapped counters or not: what has been taken is always a beginning
   of what has been put in, and at most PIPESIZE bytes are in between.
   */
  lemma {:induction false} Fifo(states: seq<Sys>, events: seq<Event>, i: nat)
    requires Run(states, events) && i <= |events|
    ensures Flow(states[i])
  {
    if i > 0 {
      Fifo(states, events, i - 1);
      StepFlow(states[i - 1], events[i - 1], states[i]);
    }
  }

  /* Sleepers. */

  /** A reader sleeps only before an empty ring that can still be written; a writer only before a full one. */
  ghost predicate Justified(s: Sys) {
    && (s.readers != {} ==> |s.put| == |s.got| && s.writeopen)
    && (s.writers != {} ==> |s.put| == |s.got| + PIPESIZE && s.readopen)
  }

  /** The one turn that puts bytes in and wakes nobody: it fills the ring and finds itself killed, or nobody to read. */
  ghost predicate Strands(s: Sys, e: Event) {
    && e.Write? && e.i <= |e.src| && s.readers != {} && (e.killed || !s.readopen)
    && Moved(Room(s), e.src, e.i) == PIPESIZE && e.i + PIPESIZE < |e.src|
  }

  /** Each step keeps sleepers justified exactly when it is not that turn. */
  lemma StepJustified(s: Sys, e: Event, t: Sys)
    requires Flow(s) && Step(s, e, t) && Justified(s)
    ensures Justified(t) <==> !Strands(s, e)
  {
    match e
    case Write(_, src, i, _) =>
      MovedMost(Room(s), src, i);
    case Read(_, _, _) =>
      var dst, o :| ReadStep(s, e, t, dst, o);
      PulledMost(|Held(s)|, e.ok, 0);
    case Close(_) =>
    case Kill(_) =>
  }

  /**
   Over a run, no reader sleeps over bytes and no writer over room, and so never one of each, exactly when no step
   is that turn.
   */
  lemma SleepersJustified(states: seq<Sys>, events: seq<Event>)
    requires Run(states, events)
    ensures (forall i :: 0 <= i < |states| ==> Justified(states[i])) <==>
            (forall i :: 0 <= i < |events| ==> !Strands(states[i], events[i]))
    ensures forall i :: 0 <= i < |states| && Justified(states[i]) ==> states[i].readers == {} || states[i].writers == {}
  {
    if forall i :: 0 <= i < |events| ==> !Strands(states[i], events[i]) {
      forall i | 0 <= i < |states| ensures Justified(states[i]) {
        CalmUntil(states, events, i);
      }
    } else {
      var i :| 0 <= i < |events| && Strands(states[i], events[i]);
      Fifo(states, events, i);
      if Justified(states[i]) { StepJustified(states[i], events[i], states[i + 1]); }
    }
  }

  lemma {:induction false} CalmUntil(states: seq<Sys>, events: seq<Event>, i: nat)
    requires Run(states, events) && i <= |events| && forall k :: 0 <= k < i ==> !Strands(states[k], events[k])
    ensures Justified(states[i])
  {
    if i > 0 {
      CalmUntil(states, events, i - 1);
      Fifo(states, events, i - 1);
      StepJustified(states[i - 1], events[i - 1], states[i]);
    }
  }

  /** The turn is there to be had: a killed writer leaves a reader asleep before a full ring. */
  lemma KilledWriterStrands(src: seq<Option<Byte>>) returns (states: seq<Sys>, events: seq<Event>)
    requires |src| > PIPESIZE && Readable(src, 0, |src|)
    ensures Run(states, events) && |events| == 2
    ensures states[2].readers != {} && states[2].readopen && |states[2].put| == |states[2].got| + PIPESIZE
  {
    var s0 := START;
    var s1 := s0.(readers := {0});
    MovedMost(PIPESIZE, src, 0);
    var bytes := Values(src, 0, PIPESIZE);
    var s2 := s1.(put := bytes, done := [Written(src, -1, bytes)]);
    assert [] + bytes == bytes && bytes[0..] == bytes;
    states, events := [s0, s1, s2], [Read(0, [true], false), Write(1, src, 0, true)];
    assert ReadStep(s0, events[0], s1, [], Asleep(0));
    assert Step(s0, events[0], s1) && Step(s1, events[1], s2);
  }

  predicate Sound(e: Event) { e.Read? ==> forall x :: 0 <= x < |e.ok| ==> e.ok[x] }

  /** As long as copyout succeeds, what readers are given is what was put in, from its first byte on. */
  lemma {:induction false} NothingLost(states: seq<Sys>, events: seq<Event>, i: nat)
    requires Run(states, events) && i <= |events| && forall k :: 0 <= k < |events| ==> Sound(events[k])
    ensures states[i].seen == states[i].got && states[i].seen <= states[i].put
  {
    Fifo(states, events, i);
    if i > 0 {
      Fifo(states, events, i - 1);
      NothingLost(states, events, i - 1);
      var s, e, t := states[i - 1], events[i - 1], states[i];
      assert Step(s, e, t) && Sound(e);
      if e.Read? {
        var dst, o :| ReadStep(s, e, t, dst, o);
        ReadFlow(s, e, t, dst, o);
      }
    }
  }

  /* Whole calls. */

  /** The bytes a call in progress has put are those before the index it goes on at, which is not the end. */
  ghost predicate CallOk(c: Call) { c.i < |c.src| && Readable(c.src, 0, c.i) && c.mine == Values(c.src, 0, c.i) }

  /**
   A call that returns r >= 0 has put exactly the first r bytes, and r is the end or the first byte that cannot be read.
   One that returns -1 has put a beginning of them.
   */
  ghost predicate WrittenOk(w: Written) {
    var n := |w.mine|;
    && n <= |w.src| && Readable(w.src, 0, n) && w.mine == Values(w.src, 0, n)
    && if w.r >= 0 then w.r == n && (n == |w.src| || w.src[n].None?) else w.r == -1 && n < |w.src|
  }

  lemma ValuesNext(src: seq<Option<Byte>>, i: nat, k: nat)
    requires Readable(src, 0, i) && Readable(src, i, k)
    ensures Readable(src, 0, i + k) && Values(src, 0, i) + Values(src, i, k) == Values(src, 0, i + k)
  {}

  ghost predicate CallsOk(s: Sys) {
    (forall p :: p in s.calls ==> CallOk(s.calls[p])) && forall x :: 0 <= x < |s.done| ==> WrittenOk(s.done[x])
  }

  lemma TurnCall(c: Call, room: nat, readopen: bool, killed: bool, more: seq<Byte>)
    requires c.i <= |c.src| && Readable(c.src, 0, c.i) && c.mine == Values(c.src, 0, c.i)
    requires var k := Moved(room, c.src, c.i); Readable(c.src, c.i, k) && more == Values(c.src, c.i, k)
    ensures
      match WriteEnd(room, c.src, c.i, readopen, killed)
      case Asleep(i) => CallOk(Call(c.src, i, c.mine + more))
      case Returned(r, _) => WrittenOk(Written(c.src, r, c.mine + more))
  {
    MovedMost(room, c.src, c.i);
    ValuesNext(c.src, c.i, Moved(room, c.src, c.i));
  }

  lemma StepCalls(s: Sys, e: Event, t: Sys)
    requires CallsOk(s) && Step(s, e, t)
    ensures CallsOk(t)
  {
    if e.Write? {
      var c, more := CallOf(s, e.p, e.src), t.put[|s.put|..];
      assert more == Values(e.src, e.i, Moved(Room(s), e.src, e.i));
      TurnCall(c, Room(s), s.readopen, e.killed, more);
    }
  }

  /**
   Over any run, whatever turns of others come between the turns of a call: what a pipewrite puts into the pipe is a
   beginning of its source, each byte once and in order, and what it returns says how much.
   */
  lemma {:induction false} WholeCalls(states: seq<Sys>, events: seq<Event>, i: nat)
    requires Run(states, events) && i <= |events|
    ensures CallsOk(states[i])
  {
    if i > 0 {
      WholeCalls(states, events, i - 1);
      StepCalls(states[i - 1], events[i - 1], states[i]);
    }
  }

  /** A process that has been killed does not go to sleep. */
  lemma KilledReturns(s: Sys, e: Event, t: Sys)
    requires Step(s, e, t) && (e.Write? || e.Read?) && e.killed
    ensures e.p !in t.readers + t.writers
  {}

  /**
   What piperead returns: the number of bytes it delivers, which is 0 only when none are wanted, the first cannot be
   stored or the ring is empty with no writer left; or -1 for a killed process that would have to wait.
   */
  lemma ReadResult(q: seq<Byte>, writeopen: bool, ok: seq<bool>, killed: bool, got: seq<Byte>, now: seq<Byte>,
                   dst: seq<Byte>, o: Outcome)
    requires ReadTurned(q, writeopen, ok, killed, got, now, dst, o)
    ensures o.Asleep? <==> q == [] && writeopen && !killed
    ensures o.Returned? ==> o.r == |dst| || (o.r == -1 && q == [] && writeopen && killed && dst == [])
    ensures o.Returned? && o.r == 0 ==> ok == [] || !ok[0] || (q == [] && !writeopen)
  {
    PulledMost(|q|, ok, 0);
  }
}

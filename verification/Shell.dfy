/**
 The shell's parser. The grammar says which stretches of a line are which commands; the recursive descent finds such a
 reading or panics, and nulterminate then cuts the line up into C strings.
 A predicate that a method only hands on is written `P == true`, so that it is handed on unopened.
 */
module Shell {
  import opened Basics

  const MAXARGS := 10
  const NUL := '\0'

  const O_RDONLY := 0x000
  const O_WRONLY := 0x001
  const O_CREATE := 0x200
  const O_TRUNC := 0x400

  /** A stretch of the line: q and eq. */
  datatype Tok = Tok(start: nat, end: nat)

  datatype Redirect = Redirect(file: Tok, mode: nat, fd: nat)

  datatype Cmd =
    | Exec(args: seq<Tok>)
    | Redir(cmd: Cmd, how: Redirect)
    | Pipe(left: Cmd, right: Cmd)
    | List(left: Cmd, right: Cmd)
    | Back(cmd: Cmd)

  /** What gettoken returns: 0, a symbol, '+' for >>, or 'a' with its word. */
  datatype Token = End | Symbol(c: char) | Append | Word(t: Tok)

  predicate IsBlank(c: char) { c in [' ', '\t', '\r', '\n', '\U{0B}'] }

  predicate IsSymbol(c: char) { c in ['<', '|', '>', '&', ';', '(', ')'] }

  predicate IsWord(c: char) { !IsBlank(c) && !IsSymbol(c) && c != NUL }

  /** `*s`; the line ends in a NUL. */
  function At(line: seq<char>, i: nat): char { if i < |line| then line[i] else NUL }

  /* Pieces of a line. A piece ends where the next token starts, so the blanks after it belong to it. */

  /** `while(s < es && strchr(whitespace, *s)) s++` */
  function Skip(line: seq<char>, i: nat): (j: nat)
    requires i <= |line|
    ensures i <= j <= |line| && !IsBlank(At(line, j)) && forall x :: i <= x < j ==> IsBlank(line[x])
    decreases |line| - i
  {
    if i < |line| && IsBlank(line[i]) then Skip(line, i + 1) else i
  }

  lemma SkipThere(line: seq<char>, i: nat, k: nat)
    requires i <= k <= |line| && forall x :: i <= x < k ==> IsBlank(line[x])
    ensures Skip(line, k) == Skip(line, i)
    decreases k - i
  {
    if i < k { SkipThere(line, i + 1, k); }
  }

  /** A run of word characters that cannot be made longer on its right. */
  predicate WordRun(line: seq<char>, t: Tok) {
    && t.start < t.end <= |line| && (forall x :: t.start <= x < t.end ==> IsWord(line[x]))
    && !IsWord(At(line, t.end))
  }

  predicate IsSym(line: seq<char>, i: nat, j: nat, c: char) {
    i < |line| && line[i] == c && j == Skip(line, i + 1)
  }

  predicate IsAppend(line: seq<char>, i: nat, j: nat) {
    i + 1 < |line| && line[i] == '>' && line[i + 1] == '>' && j == Skip(line, i + 2)
  }

  predicate IsArg(line: seq<char>, i: nat, j: nat, t: Tok) {
    t.start == i && WordRun(line, t) && j == Skip(line, t.end)
  }

  /* The grammar. Each predicate says that line[i..j] reads as the given thing. */

  predicate IsRedirect(line: seq<char>, i: nat, k: nat, j: nat, r: Redirect) {
    && i < k < j <= |line| && IsArg(line, k, j, r.file)
    && (|| (IsSym(line, i, k, '<') && r.mode == O_RDONLY && r.fd == 0)
        || (IsSym(line, i, k, '>') && r.mode == O_WRONLY + O_CREATE + O_TRUNC && r.fd == 1)
        || (IsAppend(line, i, k) && r.mode == O_WRONLY + O_CREATE && r.fd == 1))
  }

  /** A word or a redirection. */
  datatype Item = Arg(t: Tok) | How(r: Redirect)

  ghost predicate IsItem(line: seq<char>, i: nat, j: nat, x: Item) {
    i < j <= |line| &&
    match x
    case Arg(t) => IsArg(line, i, j, t)
    case How(r) => exists k :: IsRedirect(line, i, k, j, r)
  }

  ghost predicate IsItems(line: seq<char>, i: nat, j: nat, xs: seq<Item>)
    decreases |xs|
  {
    if xs == [] then i == j <= |line|
    else exists k :: i < k <= j && IsItem(line, i, k, xs[0]) && IsItems(line, k, j, xs[1..])
  }

  function Words(xs: seq<Item>): seq<Tok> {
    if xs == [] then [] else (if xs[0].Arg? then [xs[0].t] else []) + Words(xs[1..])
  }

  function Hows(xs: seq<Item>): seq<Redirect> {
    if xs == [] then [] else (if xs[0].How? then [xs[0].r] else []) + Hows(xs[1..])
  }

  function Front<T>(s: seq<T>): (r: seq<T>)
    requires s != []
    ensures |r| == |s| - 1
  {
    s[..|s|-1]
  }

  /** redircmd for each redirection in turn. */
  function Wrapped(c: Cmd, rs: seq<Redirect>): Cmd {
    if rs == [] then c else Redir(Wrapped(c, Front(rs)), rs[|rs|-1])
  }

  ghost predicate IsPlain(line: seq<char>, i: nat, j: nat, c: Cmd) {
    exists xs: seq<Item> :: IsItems(line, i, j, xs) && |Words(xs)| < MAXARGS && c == Wrapped(Exec(Words(xs)), Hows(xs))
  }

  ghost predicate BlockAt(line: seq<char>, i: nat, a: nat, b: nat, e: nat, j: nat, inner: Cmd, xs: seq<Item>)
    decreases j - i, 0
  {
    && i < a <= b < e <= j && IsSym(line, i, a, '(') && IsLine(line, a, b, inner) && IsSym(line, b, e, ')')
    && IsItems(line, e, j, xs) && Words(xs) == []
  }

  ghost predicate IsBlock(line: seq<char>, i: nat, j: nat, c: Cmd)
    decreases j - i, 1
  {
    exists a: nat, b: nat, e: nat, inner: Cmd, xs: seq<Item> ::
      BlockAt(line, i, a, b, e, j, inner, xs) && c == Wrapped(inner, Hows(xs))
  }

  ghost predicate IsExec(line: seq<char>, i: nat, j: nat, c: Cmd)
    decreases j - i, 2
  {
    IsPlain(line, i, j, c) || IsBlock(line, i, j, c)
  }

  ghost predicate IsPipe(line: seq<char>, i: nat, j: nat, c: Cmd)
    decreases j - i, 3
  {
    || IsExec(line, i, j, c)
    || (c.Pipe? && exists a: nat, b: nat ::
          i <= a < b <= j && IsExec(line, i, a, c.left) && IsSym(line, a, b, '|') && IsPipe(line, b, j, c.right))
  }

  ghost predicate IsBacks(line: seq<char>, i: nat, j: nat, c: Cmd)
    decreases j - i, 4
  {
    || IsPipe(line, i, j, c)
    || (c.Back? && exists a: nat :: i <= a < j && IsBacks(line, i, a, c.cmd) && IsSym(line, a, j, '&'))
  }

  ghost predicate IsLine(line: seq<char>, i: nat, j: nat, c: Cmd)
    decreases j - i, 5
  {
    || IsBacks(line, i, j, c)
    || (c.List? && exists a: nat, b: nat ::
          i <= a < b <= j && IsBacks(line, i, a, c.left) && IsSym(line, a, b, ';') && IsLine(line, b, j, c.right))
  }

  /** The whole line reads as c. */
  ghost predicate IsCommand(line: seq<char>, c: Cmd) {
    IsLine(line, Skip(line, 0), |line|, c)
  }

  /* What a reading says about its tokens. */

  function Args(args: seq<Tok>): set<Tok> { set t | t in args }

  function Files(rs: seq<Redirect>): set<Tok> { set r | r in rs :: r.file }

  function Toks(c: Cmd): set<Tok> {
    match c
    case Exec(args) => Args(args)
    case Redir(cmd, how) => Toks(cmd) + {how.file}
    case Pipe(l, r) => Toks(l) + Toks(r)
    case List(l, r) => Toks(l) + Toks(r)
    case Back(cmd) => Toks(cmd)
  }

  predicate Inside(t: Tok, x: nat) { t.start <= x < t.end }

  /** toks are runs of words inside line[i..j], and they hold every word character there. */
  ghost predicate Covers(line: seq<char>, i: nat, j: nat, toks: set<Tok>) {
    && i <= j <= |line|
    && (forall t :: t in toks ==> WordRun(line, t) && i <= t.start && t.end <= j)
    && (forall x :: i <= x < j && IsWord(line[x]) ==> exists t :: t in toks && Inside(t, x))
  }

  lemma CoversBoth(line: seq<char>, i: nat, k: nat, j: nat, a: set<Tok>, b: set<Tok>)
    requires Covers(line, i, k, a) == true && Covers(line, k, j, b) == true
    ensures Covers(line, i, j, a + b) == true
  {
    forall x | i <= x < j && IsWord(line[x]) ensures exists t :: t in a + b && Inside(t, x) {
      if x < k {
        var t :| t in a && Inside(t, x);
        assert t in a + b;
      } else {
        var t :| t in b && Inside(t, x);
        assert t in a + b;
      }
    }
  }

  lemma SymCovers(line: seq<char>, i: nat, j: nat, c: char)
    requires IsSym(line, i, j, c) && IsSymbol(c)
    ensures Covers(line, i, j, {}) == true
  {}

  lemma AppendCovers(line: seq<char>, i: nat, j: nat)
    requires IsAppend(line, i, j)
    ensures Covers(line, i, j, {}) == true
  {}

  lemma ArgCovers(line: seq<char>, i: nat, j: nat, t: Tok)
    requires IsArg(line, i, j, t)
    ensures Covers(line, i, j, {t}) == true
  {
    forall x | i <= x < j && IsWord(line[x]) ensures exists u :: u in {t} && Inside(u, x) {
      assert Inside(t, x);
    }
  }

  function ItemToks(xs: seq<Item>): set<Tok> { Args(Words(xs)) + Files(Hows(xs)) }

  lemma ItemCovers(line: seq<char>, i: nat, j: nat, x: Item)
    requires IsItem(line, i, j, x)
    ensures Covers(line, i, j, {if x.Arg? then x.t else x.r.file}) == true
  {
    match x
    case Arg(t) => ArgCovers(line, i, j, t);
    case How(r) =>
      var k :| IsRedirect(line, i, k, j, r);
      ArgCovers(line, k, j, r.file);
      if IsAppend(line, i, k) { AppendCovers(line, i, k); }
      CoversBoth(line, i, k, j, {}, {r.file});
      assert {} + {r.file} == {r.file};
  }

  lemma ItemToksFirst(xs: seq<Item>)
    requires xs != []
    ensures ItemToks(xs) == {if xs[0].Arg? then xs[0].t else xs[0].r.file} + ItemToks(xs[1..])
  {
    var ws, hs := if xs[0].Arg? then [xs[0].t] else [], if xs[0].How? then [xs[0].r] else [];
    assert Args(ws + Words(xs[1..])) == Args(ws) + Args(Words(xs[1..]));
    assert Files(hs + Hows(xs[1..])) == Files(hs) + Files(Hows(xs[1..]));
  }

  lemma {:induction false} ItemsCover(line: seq<char>, i: nat, j: nat, xs: seq<Item>)
    requires IsItems(line, i, j, xs)
    ensures Covers(line, i, j, ItemToks(xs)) == true
    decreases |xs|
  {
    if xs == [] {
      assert ItemToks(xs) == {};
    } else {
      var k :| i < k <= j && IsItem(line, i, k, xs[0]) && IsItems(line, k, j, xs[1..]);
      ItemCovers(line, i, k, xs[0]);
      ItemsCover(line, k, j, xs[1..]);
      CoversBoth(line, i, k, j, {if xs[0].Arg? then xs[0].t else xs[0].r.file}, ItemToks(xs[1..]));
      ItemToksFirst(xs);
    }
  }

  lemma {:induction false} WrappedToks(c: Cmd, rs: seq<Redirect>)
    ensures Toks(Wrapped(c, rs)) == Toks(c) + Files(rs)
    decreases |rs|
  {
    if rs != [] {
      WrappedToks(c, Front(rs));
      assert rs == Front(rs) + [rs[|rs|-1]];
      assert Files(rs) == Files(Front(rs)) + {rs[|rs|-1].file};
    }
  }

  lemma PlainCovers(line: seq<char>, i: nat, j: nat, c: Cmd)
    requires IsPlain(line, i, j, c)
    ensures Covers(line, i, j, Toks(c)) == true
  {
    var xs: seq<Item> :| IsItems(line, i, j, xs) && |Words(xs)| < MAXARGS && c == Wrapped(Exec(Words(xs)), Hows(xs));
    ItemsCover(line, i, j, xs);
    WrappedToks(Exec(Words(xs)), Hows(xs));
  }

  lemma {:induction false} BlockCovers(line: seq<char>, i: nat, j: nat, c: Cmd)
    requires IsBlock(line, i, j, c)
    ensures Covers(line, i, j, Toks(c)) == true
    decreases j - i, 1
  {
    var a: nat, b: nat, e: nat, inner: Cmd, xs: seq<Item> :|
      BlockAt(line, i, a, b, e, j, inner, xs) && c == Wrapped(inner, Hows(xs));
    BlockAtCovers(line, i, a, b, e, j, inner, xs);
  }

  lemma {:induction false} BlockAtCovers(line: seq<char>, i: nat, a: nat, b: nat, e: nat, j: nat, inner: Cmd,
                                         xs: seq<Item>)
    requires BlockAt(line, i, a, b, e, j, inner, xs)
    ensures Covers(line, i, j, Toks(Wrapped(inner, Hows(xs)))) == true
    decreases j - i, 0
  {
    LineCovers(line, a, b, inner);
    ItemsCover(line, e, j, xs);
    ParenCovers(line, i, a, b, e, Toks(inner));
    CoversBoth(line, i, e, j, Toks(inner), ItemToks(xs));
    WrappedToks(inner, Hows(xs));
    assert Toks(inner) + ItemToks(xs) == Toks(Wrapped(inner, Hows(xs)));
  }

  lemma ParenCovers(line: seq<char>, i: nat, a: nat, b: nat, e: nat, toks: set<Tok>)
    requires IsSym(line, i, a, '(') && Covers(line, a, b, toks) == true && IsSym(line, b, e, ')')
    ensures Covers(line, i, e, toks) == true
  {
    SymCovers(line, i, a, '(');
    SymCovers(line, b, e, ')');
    CoversBoth(line, i, a, b, {}, toks);
    assert {} + toks == toks;
    CoversBoth(line, i, b, e, toks, {});
    assert toks + {} == toks;
  }

  lemma {:induction false} ExecCovers(line: seq<char>, i: nat, j: nat, c: Cmd)
    requires IsExec(line, i, j, c)
    ensures Covers(line, i, j, Toks(c)) == true
    decreases j - i, 2
  {
    if IsPlain(line, i, j, c) { PlainCovers(line, i, j, c); } else { BlockCovers(line, i, j, c); }
  }

  lemma {:induction false} PipeCovers(line: seq<char>, i: nat, j: nat, c: Cmd)
    requires IsPipe(line, i, j, c)
    ensures Covers(line, i, j, Toks(c)) == true
    decreases j - i, 3
  {
    if IsExec(line, i, j, c) {
      ExecCovers(line, i, j, c);
    } else {
      var a: nat, b: nat :| i <= a < b <= j && IsExec(line, i, a, c.left) && IsSym(line, a, b, '|') &&
        IsPipe(line, b, j, c.right);
      ExecCovers(line, i, a, c.left);
      PipeCovers(line, b, j, c.right);
      JoinCovers(line, i, a, b, j, c.left, c.right, '|');
    }
  }

  lemma JoinCovers(line: seq<char>, i: nat, a: nat, b: nat, j: nat, l: Cmd, r: Cmd, c: char)
    requires Covers(line, i, a, Toks(l)) == true && IsSym(line, a, b, c) && IsSymbol(c)
    requires Covers(line, b, j, Toks(r)) == true
    ensures Covers(line, i, j, Toks(l) + Toks(r)) == true
  {
    SymCovers(line, a, b, c);
    CoversBoth(line, i, a, b, Toks(l), {});
    assert Toks(l) + {} == Toks(l);
    CoversBoth(line, i, b, j, Toks(l), Toks(r));
  }

  lemma {:induction false} BacksCover(line: seq<char>, i: nat, j: nat, c: Cmd)
    requires IsBacks(line, i, j, c)
    ensures Covers(line, i, j, Toks(c)) == true
    decreases j - i, 4
  {
    if IsPipe(line, i, j, c) {
      PipeCovers(line, i, j, c);
    } else {
      var a: nat :| i <= a < j && IsBacks(line, i, a, c.cmd) && IsSym(line, a, j, '&');
      BacksCover(line, i, a, c.cmd);
      SymCovers(line, a, j, '&');
      CoversBoth(line, i, a, j, Toks(c.cmd), {});
      assert Toks(c.cmd) + {} == Toks(c);
    }
  }

  lemma {:induction false} LineCovers(line: seq<char>, i: nat, j: nat, c: Cmd)
    requires IsLine(line, i, j, c)
    ensures Covers(line, i, j, Toks(c)) == true
    decreases j - i, 5
  {
    if IsBacks(line, i, j, c) {
      BacksCover(line, i, j, c);
    } else {
      var a: nat, b: nat :| i <= a < b <= j && IsBacks(line, i, a, c.left) && IsSym(line, a, b, ';') &&
        IsLine(line, b, j, c.right);
      BacksCover(line, i, a, c.left);
      LineCovers(line, b, j, c.right);
      JoinCovers(line, i, a, b, j, c.left, c.right, ';');
    }
  }

  lemma CommandCovers(line: seq<char>, c: Cmd)
    requires IsCommand(line, c) == true
    ensures Covers(line, 0, |line|, Toks(c)) == true
  {
    LineCovers(line, Skip(line, 0), |line|, c);
    assert Covers(line, 0, Skip(line, 0), {}) == true;
    CoversBoth(line, 0, Skip(line, 0), |line|, {}, Toks(c));
    assert {} + Toks(c) == Toks(c);
  }

  /* What a reading says about the order of things. */

  /** The last character before i that is not blank is no redirection. */
  predicate Fresh(line: seq<char>, i: nat) {
    forall p :: 0 <= p < i && p < |line| && line[p] in ['<', '>'] ==>
      exists x :: p < x < i && x < |line| && !IsBlank(line[x])
  }

  /** The mode and descriptor are those of the symbol before the file. */
  ghost predicate KindAt(line: seq<char>, h: Redirect, p: nat) {
    && p < h.file.start <= |line| && (forall x :: p < x < h.file.start ==> IsBlank(line[x]))
    && (|| (line[p] == '<' && h.mode == 0 && h.fd == 0)
        || (line[p] == '>' && h.fd == 1 && h.mode == if p > 0 && line[p - 1] == '>' then 0x201 else 0x601))
  }

  ghost predicate KindIs(line: seq<char>, h: Redirect) { exists p :: KindAt(line, h, p) }

  predicate Ascending(ts: seq<Tok>) { forall p, q :: 0 <= p < q < |ts| ==> ts[p].end <= ts[q].start }

  predicate Before(toks: set<Tok>, p: nat) { forall t :: t in toks ==> t.end <= p }

  predicate After(toks: set<Tok>, p: nat) { forall t :: t in toks ==> p < t.start }

  /** The symbol c stands between the tokens of a and those of b. */
  ghost predicate Between(line: seq<char>, a: set<Tok>, c: char, b: set<Tok>) {
    exists p :: 0 <= p < |line| && line[p] == c && Before(a, p) && After(b, p)
  }

  function Base(c: Cmd): Cmd { if c.Redir? then Base(c.cmd) else c }

  /**
   The words of a command are in the order of the line, and none of them follows a redirection symbol; a redirection is
   of the kind its symbol says, and around those that come before it; what a symbol joins stands on its two sides.
   */
  ghost predicate Placed(line: seq<char>, c: Cmd) {
    match c
    case Exec(args) => Ascending(args) && forall t :: t in args ==> Fresh(line, t.start)
    case Redir(cmd, how) =>
      && Placed(line, cmd) && KindIs(line, how) && (cmd.Redir? ==> cmd.how.file.end <= how.file.start)
      && (Base(cmd).Exec? || Before(Toks(cmd), how.file.start))
    case Pipe(l, r) => Placed(line, l) && Placed(line, r) && Between(line, Toks(l), '|', Toks(r))
    case List(l, r) => Placed(line, l) && Placed(line, r) && Between(line, Toks(l), ';', Toks(r))
    case Back(cmd) => Placed(line, cmd) && Between(line, Toks(cmd), '&', {})
  }

  lemma WordFresh(line: seq<char>, t: Tok)
    requires WordRun(line, t)
    ensures Fresh(line, Skip(line, t.end)) == true
  {
    assert IsWord(line[t.end - 1]);
  }

  lemma SymFresh(line: seq<char>, i: nat, j: nat, c: char)
    requires IsSym(line, i, j, c) && c in ['(', ')', '|', '&', ';']
    ensures Fresh(line, j) == true
  {
    assert !IsBlank(line[i]);
  }

  function Filed(rs: seq<Redirect>): seq<Tok> { seq(|rs|, i requires 0 <= i < |rs| => rs[i].file) }

  /** All of ts lie in line[i..j]. */
  predicate Spread(ts: seq<Tok>, i: nat, j: nat) { forall t :: t in ts ==> i <= t.start && t.end <= j }

  /** The redirections of a piece, from i on. */
  ghost predicate HowsOk(line: seq<char>, i: nat, j: nat, rs: seq<Redirect>) {
    && Ascending(Filed(rs)) && Spread(Filed(rs), i, j) && forall x :: 0 <= x < |rs| ==> KindIs(line, rs[x])
  }

  ghost predicate WordsOk(line: seq<char>, i: nat, j: nat, ts: seq<Tok>) {
    Ascending(ts) && Spread(ts, i, j) && forall t :: t in ts ==> Fresh(line, t.start)
  }

  lemma RedirectKind(line: seq<char>, i: nat, k: nat, j: nat, r: Redirect)
    requires IsRedirect(line, i, k, j, r) && Fresh(line, i)
    ensures KindIs(line, r) == true && i <= r.file.start && r.file.end <= j && Fresh(line, j) == true
  {
    WordFresh(line, r.file);
    if IsAppend(line, i, k) {
      assert KindAt(line, r, i + 1);
    } else {
      assert i > 0 ==> line[i - 1] != '>';
      assert KindAt(line, r, i);
    }
  }

  lemma {:induction false} ItemsPlaced(line: seq<char>, i: nat, j: nat, xs: seq<Item>)
    requires IsItems(line, i, j, xs) && Fresh(line, i)
    ensures WordsOk(line, i, j, Words(xs)) == true && HowsOk(line, i, j, Hows(xs)) == true
    decreases |xs|
  {
    if xs != [] {
      var k :| i < k <= j && IsItem(line, i, k, xs[0]) && IsItems(line, k, j, xs[1..]);
      match xs[0]
      case Arg(t) =>
        WordFresh(line, t);
        ItemsPlaced(line, k, j, xs[1..]);
        WordsNext(line, i, k, j, t, Words(xs[1..]));
        HowsLater(line, i, k, j, Hows(xs[1..]));
      case How(r) =>
        var m :| IsRedirect(line, i, m, k, r);
        RedirectKind(line, i, m, k, r);
        ItemsPlaced(line, k, j, xs[1..]);
        HowsNext(line, i, k, j, r, Hows(xs[1..]));
        WordsLater(line, i, k, j, Words(xs[1..]));
    }
  }

  lemma WordsNext(line: seq<char>, i: nat, k: nat, j: nat, t: Tok, ts: seq<Tok>)
    requires WordsOk(line, k, j, ts) && i <= t.start && t.end <= k <= j && Fresh(line, t.start) && i <= k
    ensures WordsOk(line, i, j, [t] + ts) == true
  {}

  lemma WordsLater(line: seq<char>, i: nat, k: nat, j: nat, ts: seq<Tok>)
    requires WordsOk(line, k, j, ts) && i <= k
    ensures WordsOk(line, i, j, [] + ts) == true
  {
    assert [] + ts == ts;
  }

  lemma HowsNext(line: seq<char>, i: nat, k: nat, j: nat, r: Redirect, rs: seq<Redirect>)
    requires HowsOk(line, k, j, rs) && i <= r.file.start && r.file.end <= k <= j && KindIs(line, r) && i <= k
    ensures HowsOk(line, i, j, [r] + rs) == true
  {
    assert Filed([r] + rs) == [r.file] + Filed(rs);
  }

  lemma HowsLater(line: seq<char>, i: nat, k: nat, j: nat, rs: seq<Redirect>)
    requires HowsOk(line, k, j, rs) && i <= k
    ensures HowsOk(line, i, j, [] + rs) == true
  {
    assert [] + rs == rs;
  }

  lemma {:induction false} WrappedBase(c: Cmd, rs: seq<Redirect>)
    ensures Base(Wrapped(c, rs)) == Base(c)
    decreases |rs|
  {
    if rs != [] { WrappedBase(c, Front(rs)); }
  }

  /** Redirections around c, which lies before them unless it is a simple command. */
  lemma {:induction false} WrappedPlaced(line: seq<char>, i: nat, j: nat, c: Cmd, rs: seq<Redirect>)
    requires Placed(line, c) && HowsOk(line, i, j, rs) && (c.Exec? || Before(Toks(c), i))
    ensures Placed(line, Wrapped(c, rs)) == true
    decreases |rs|
  {
    if rs != [] {
      var n, fs := |rs| - 1, Filed(rs);
      var front, how := Front(rs), rs[n];
      HowsFront(line, i, j, rs);
      WrappedPlaced(line, i, j, c, front);
      WrappedBase(c, front);
      WrappedToks(c, front);
      assert fs[n] == how.file && fs[n] in fs;
      forall t | t in Files(front) ensures t.end <= how.file.start {
        var r :| r in front && r.file == t;
        var x :| 0 <= x < |front| && front[x] == r;
        assert fs[x] == t;
      }
      if front != [] { assert fs[n - 1] == front[n - 1].file; }
      if c.Redir? { assert c.how.file in Toks(c); }
      assert KindIs(line, rs[n]);
    }
  }

  lemma HowsFront(line: seq<char>, i: nat, j: nat, rs: seq<Redirect>)
    requires HowsOk(line, i, j, rs) && rs != []
    ensures HowsOk(line, i, j, Front(rs)) == true
  {
    assert Filed(Front(rs)) == Filed(rs)[..|rs| - 1];
    forall t | t in Filed(Front(rs)) ensures t in Filed(rs) {}
  }

  lemma PlainPlaced(line: seq<char>, i: nat, j: nat, c: Cmd)
    requires IsPlain(line, i, j, c) && Fresh(line, i)
    ensures Placed(line, c) == true
  {
    var xs: seq<Item> :| IsItems(line, i, j, xs) && |Words(xs)| < MAXARGS && c == Wrapped(Exec(Words(xs)), Hows(xs));
    ItemsPlaced(line, i, j, xs);
    WrappedPlaced(line, i, j, Exec(Words(xs)), Hows(xs));
  }

  lemma {:induction false} BlockPlaced(line: seq<char>, i: nat, j: nat, c: Cmd)
    requires IsBlock(line, i, j, c)
    ensures Placed(line, c) == true
    decreases j - i, 1
  {
    var a: nat, b: nat, e: nat, inner: Cmd, xs: seq<Item> :|
      BlockAt(line, i, a, b, e, j, inner, xs) && c == Wrapped(inner, Hows(xs));
    SymFresh(line, i, a, '(');
    LinePlaced(line, a, b, inner);
    LineCovers(line, a, b, inner);
    SymFresh(line, b, e, ')');
    ItemsPlaced(line, e, j, xs);
    WrappedPlaced(line, e, j, inner, Hows(xs));
  }

  lemma {:induction false} ExecPlaced(line: seq<char>, i: nat, j: nat, c: Cmd)
    requires IsExec(line, i, j, c) && Fresh(line, i)
    ensures Placed(line, c) == true
    decreases j - i, 2
  {
    if IsPlain(line, i, j, c) { PlainPlaced(line, i, j, c); } else { BlockPlaced(line, i, j, c); }
  }

  lemma {:induction false} PipePlaced(line: seq<char>, i: nat, j: nat, c: Cmd)
    requires IsPipe(line, i, j, c) && Fresh(line, i)
    ensures Placed(line, c) == true
    decreases j - i, 3
  {
    if IsExec(line, i, j, c) {
      ExecPlaced(line, i, j, c);
    } else {
      var a: nat, b: nat :| i <= a < b <= j && IsExec(line, i, a, c.left) && IsSym(line, a, b, '|') &&
        IsPipe(line, b, j, c.right);
      ExecPlaced(line, i, a, c.left);
      ExecCovers(line, i, a, c.left);
      SymFresh(line, a, b, '|');
      PipePlaced(line, b, j, c.right);
      PipeCovers(line, b, j, c.right);
      JoinBetween(line, i, a, b, j, Toks(c.left), '|', Toks(c.right));
    }
  }

  lemma JoinBetween(line: seq<char>, i: nat, a: nat, b: nat, j: nat, l: set<Tok>, c: char, r: set<Tok>)
    requires Covers(line, i, a, l) && IsSym(line, a, b, c) && Covers(line, b, j, r)
    ensures Between(line, l, c, r) == true
  {
    assert line[a] == c && Before(l, a) && After(r, a);
  }

  lemma {:induction false} BacksPlaced(line: seq<char>, i: nat, j: nat, c: Cmd)
    requires IsBacks(line, i, j, c) && Fresh(line, i)
    ensures Placed(line, c) == true
    decreases j - i, 4
  {
    if IsPipe(line, i, j, c) {
      PipePlaced(line, i, j, c);
    } else {
      var a: nat :| i <= a < j && IsBacks(line, i, a, c.cmd) && IsSym(line, a, j, '&');
      BacksPlaced(line, i, a, c.cmd);
      BacksCover(line, i, a, c.cmd);
      assert line[a] == '&' && Before(Toks(c.cmd), a) && After({}, a);
    }
  }

  lemma {:induction false} LinePlaced(line: seq<char>, i: nat, j: nat, c: Cmd)
    requires IsLine(line, i, j, c) && Fresh(line, i)
    ensures Placed(line, c) == true
    decreases j - i, 5
  {
    if IsBacks(line, i, j, c) {
      BacksPlaced(line, i, j, c);
    } else {
      var a: nat, b: nat :| i <= a < b <= j && IsBacks(line, i, a, c.left) && IsSym(line, a, b, ';') &&
        IsLine(line, b, j, c.right);
      BacksPlaced(line, i, a, c.left);
      BacksCover(line, i, a, c.left);
      SymFresh(line, a, b, ';');
      LinePlaced(line, b, j, c.right);
      LineCovers(line, b, j, c.right);
      JoinBetween(line, i, a, b, j, Toks(c.left), ';', Toks(c.right));
    }
  }

  lemma CommandPlaced(line: seq<char>, c: Cmd)
    requires IsCommand(line, c) == true
    ensures Placed(line, c) == true
  {
    assert Fresh(line, Skip(line, 0));
    LinePlaced(line, Skip(line, 0), |line|, c);
  }

  /* Readings are unique: what may follow a piece tells where it ends. */

  predicate StopsLine(line: seq<char>, j: nat) { j <= |line| && (j == |line| || line[j] == ')') }

  predicate StopsBacks(line: seq<char>, j: nat) { j <= |line| && (j == |line| || line[j] in [')', ';']) }

  predicate StopsPipe(line: seq<char>, j: nat) { j <= |line| && (j == |line| || line[j] in [')', ';', '&']) }

  predicate StopsExec(line: seq<char>, j: nat) { j <= |line| && (j == |line| || line[j] in [')', ';', '&', '|']) }

  datatype Error = MissingFile | MissingParen | Syntax | TooManyArgs

  datatype Result<+T> = Ok(value: T) | Err(error: Error)

  /** The result r at position p is the only reading from i, or r is an error and there is none. */
  ghost predicate OnlyExec(line: seq<char>, i: nat, p: nat, r: Result<Cmd>) {
    forall j: nat, c: Cmd :: IsExec(line, i, j, c) && StopsExec(line, j) ==> r == Ok(c) && p == j
  }

  ghost predicate OnlyBlock(line: seq<char>, i: nat, p: nat, r: Result<Cmd>) {
    forall j: nat, c: Cmd :: IsBlock(line, i, j, c) && StopsExec(line, j) ==> r == Ok(c) && p == j
  }

  ghost predicate OnlyPipe(line: seq<char>, i: nat, p: nat, r: Result<Cmd>) {
    forall j: nat, c: Cmd :: IsPipe(line, i, j, c) && StopsPipe(line, j) ==> r == Ok(c) && p == j
  }

  ghost predicate OnlyLine(line: seq<char>, i: nat, p: nat, r: Result<Cmd>) {
    forall j: nat, c: Cmd :: IsLine(line, i, j, c) && StopsLine(line, j) ==> r == Ok(c) && p == j
  }

  /** Every list of items from i that ends where a command may end starts with those in done, which lead to p. */
  ghost predicate OnlyItems(line: seq<char>, i: nat, p: nat, done: seq<Item>) {
    forall j: nat, all: seq<Item> :: IsItems(line, i, j, all) && StopsExec(line, j) ==> Continues(line, p, j, done, all)
  }

  ghost predicate Continues(line: seq<char>, p: nat, j: nat, done: seq<Item>, all: seq<Item>) {
    |done| <= |all| && all[..|done|] == done && IsItems(line, p, j, all[|done|..])
  }

  lemma OnlyItemsStart(line: seq<char>, i: nat)
    ensures OnlyItems(line, i, i, []) == true
  {
    forall j: nat, all: seq<Item> | IsItems(line, i, j, all) && StopsExec(line, j)
      ensures Continues(line, i, j, [], all)
    {
      assert all[0..] == all;
    }
  }

  lemma RunUnique(line: seq<char>, t: Tok, u: Tok)
    requires WordRun(line, t) && WordRun(line, u) && t.start == u.start
    ensures t == u
  {}

  lemma ItemUnique(line: seq<char>, i: nat, j: nat, x: Item, k: nat, y: Item)
    requires IsItem(line, i, j, x) && IsItem(line, i, k, y)
    ensures x == y && j == k
  {
    if x.Arg? && y.Arg? {
      RunUnique(line, x.t, y.t);
    } else if x.How? && y.How? {
      var a :| IsRedirect(line, i, a, j, x.r);
      var b :| IsRedirect(line, i, b, k, y.r);
      OpUnique(line, i, a, j, x.r, b, k, y.r);
    }
  }

  /** A redirection read as `>` has no second `>`. */
  lemma SingleGreater(line: seq<char>, i: nat, a: nat, j: nat, x: Redirect)
    requires IsRedirect(line, i, a, j, x)
    ensures IsSym(line, i, a, '>') ==> At(line, i + 1) != '>'
  {}

  lemma OpUnique(line: seq<char>, i: nat, a: nat, j: nat, x: Redirect, b: nat, k: nat, y: Redirect)
    requires IsRedirect(line, i, a, j, x) && IsRedirect(line, i, b, k, y)
    ensures x == y && j == k
  {
    SingleGreater(line, i, a, j, x);
    SingleGreater(line, i, b, k, y);
    assert a == b && x.mode == y.mode && x.fd == y.fd;
    RunUnique(line, x.file, y.file);
  }

  lemma {:induction false} ItemsSnoc(line: seq<char>, i: nat, p: nat, q: nat, done: seq<Item>, x: Item)
    requires IsItems(line, i, p, done) && IsItem(line, p, q, x)
    ensures IsItems(line, i, q, done + [x])
    decreases |done|
  {
    if done == [] {
      assert (done + [x])[1..] == [];
      assert IsItems(line, q, q, []);
    } else {
      var k :| i < k <= p && IsItem(line, i, k, done[0]) && IsItems(line, k, p, done[1..]);
      ItemsSnoc(line, k, p, q, done[1..], x);
      assert (done + [x])[1..] == done[1..] + [x];
    }
  }

  /** An item at p is the next one of every list. */
  lemma OnlyItemsNext(line: seq<char>, i: nat, p: nat, q: nat, done: seq<Item>, x: Item)
    requires OnlyItems(line, i, p, done) == true && IsItem(line, p, q, x) && !StopsExec(line, p)
    ensures OnlyItems(line, i, q, done + [x]) == true
  {
    forall j: nat, all: seq<Item> | IsItems(line, i, j, all) && StopsExec(line, j)
      ensures Continues(line, q, j, done + [x], all)
    {
      assert Continues(line, p, j, done, all);
      var rest := all[|done|..];
      assert rest != [];
      var k :| p < k <= j && IsItem(line, p, k, rest[0]) && IsItems(line, k, j, rest[1..]);
      ItemUnique(line, p, k, rest[0], q, x);
      assert all[..|done| + 1] == done + [x];
      assert all[|done| + 1..] == rest[1..];
    }
  }

  /** No item at p and no stop: there is no list at all. */
  lemma NoItemsFrom(line: seq<char>, i: nat, p: nat, done: seq<Item>, j: nat, all: seq<Item>)
    requires OnlyItems(line, i, p, done) == true && !StopsExec(line, p)
    requires forall k: nat, x: Item :: !IsItem(line, p, k, x)
    ensures !(IsItems(line, i, j, all) && StopsExec(line, j))
  {
    assert IsItems(line, i, j, all) && StopsExec(line, j) ==> Continues(line, p, j, done, all);
  }

  /** At a stop there is no item. */
  lemma StopIsNoItem(line: seq<char>, p: nat, k: nat, x: Item)
    requires StopsExec(line, p)
    ensures !IsItem(line, p, k, x)
  {}

  lemma EmptyAtStop(line: seq<char>, p: nat, j: nat, rest: seq<Item>)
    requires StopsExec(line, p) && IsItems(line, p, j, rest)
    ensures rest == [] && j == p
  {
    forall k: nat, x: Item ensures !IsItem(line, p, k, x) { StopIsNoItem(line, p, k, x); }
  }

  lemma OnlyItemsEnd(line: seq<char>, i: nat, p: nat, done: seq<Item>, j: nat, all: seq<Item>)
    requires OnlyItems(line, i, p, done) == true && StopsExec(line, p) && IsItems(line, i, j, all) && StopsExec(line, j)
    ensures all == done && j == p
  {
    assert Continues(line, p, j, done, all);
    EmptyAtStop(line, p, j, all[|done|..]);
    assert all == all[..|done|] + all[|done|..];
  }

  lemma {:induction false} WordsSnoc(a: seq<Item>, x: Item)
    ensures Words(a + [x]) == if x.Arg? then Words(a) + [x.t] else Words(a)
    ensures Hows(a + [x]) == if x.How? then Hows(a) + [x.r] else Hows(a)
    decreases |a|
  {
    if a != [] {
      WordsSnoc(a[1..], x);
      assert (a + [x])[1..] == a[1..] + [x];
    }
  }

  lemma {:induction false} WordsPrefix(a: seq<Item>, k: nat)
    requires k <= |a|
    ensures |Words(a[..k])| <= |Words(a)|
    decreases k
  {
    if k > 0 {
      WordsPrefix(a[1..], k - 1);
      assert a[..k][1..] == a[1..][..k - 1];
    }
  }

  /* The recursive descent. */

  /** What gettoken reads from a token's first character at i up to j. */
  predicate Reads(line: seq<char>, i: nat, j: nat, t: Token) {
    match t
    case End => i == j == |line|
    case Symbol(c) => IsSym(line, i, j, c) && IsSymbol(c) && (c == '>' ==> At(line, i + 1) != '>')
    case Append => IsAppend(line, i, j)
    case Word(w) => IsArg(line, i, j, w)
  }

  class Parser {
    const line: seq<char>
    var pos: nat

    constructor (line: seq<char>)
      ensures this.line == line && pos == 0
    {
      this.line := line;
      pos := 0;
    }

    method SkipBlanks()
      requires pos <= |line|
      modifies this
      ensures pos == Skip(line, old(pos))
    {
      while pos < |line| && IsBlank(line[pos])
        invariant old(pos) <= pos <= |line| && Skip(line, pos) == Skip(line, old(pos))
      {
        pos := pos + 1;
      }
    }

    /** peek; toks are symbols. */
    method Peek(toks: seq<char>) returns (r: bool)
      requires pos <= |line|
      modifies this
      ensures pos == Skip(line, old(pos)) && (r <==> pos < |line| && line[pos] != NUL && line[pos] in toks)
    {
      SkipBlanks();
      r := At(line, pos) != NUL && At(line, pos) in toks;
    }

    /** gettoken; the line holds no NUL of its own. */
    method Gettoken() returns (t: Token)
      requires pos <= |line| && NUL !in line
      modifies this
      ensures pos <= |line| && Reads(line, Skip(line, old(pos)), pos, t) && pos == Skip(line, pos)
      ensures !t.End? ==> Skip(line, old(pos)) < pos
    {
      SkipBlanks();
      var q := pos;
      if pos == |line| {
        t := End;
      } else if line[pos] in ['|', '(', ')', ';', '&', '<'] {
        t := Symbol(line[pos]);
        pos := pos + 1;
      } else if line[pos] == '>' {
        pos := pos + 1;
        t := Symbol('>');
        if At(line, pos) == '>' {
          t := Append;
          pos := pos + 1;
        }
      } else {
        while pos < |line| && !IsBlank(line[pos]) && !IsSymbol(line[pos])
          invariant q <= pos <= |line| && (forall x :: q <= x < pos ==> IsWord(line[x]))
          invariant pos == q ==> IsWord(line[pos])
        {
          pos := pos + 1;
        }
        t := Word(Tok(q, pos));
      }
      SkipBlanks();
    }

    /**
     parseredirs: the redirections that follow the items done since i; the caller wraps the command in them. On
     failure no reading from i exists.
     */
    method Parseredirs(ghost i: nat, ghost done: seq<Item>, rs0: seq<Redirect>)
      returns (r: Result<seq<Redirect>>, ghost xs: seq<Item>)
      requires NUL !in line && pos <= |line| && pos == Skip(line, pos) && i <= pos && rs0 == Hows(done)
      requires IsItems(line, i, pos, done) == true && OnlyItems(line, i, pos, done) == true
      modifies this
      ensures old(pos) <= pos <= |line|
      ensures r.Ok? ==>
        IsItems(line, i, pos, xs) == true && OnlyItems(line, i, pos, xs) == true && pos == Skip(line, pos)
      ensures r.Ok? ==> Words(xs) == Words(done) && r.value == Hows(xs) && At(line, pos) !in ['<', '>']
      ensures r.Err? ==> NoItems(line, i) == true
    {
      var rs := rs0;
      xs := done;
      var more := Peek(['<', '>']);
      while more
        invariant old(pos) <= pos <= |line| && pos == Skip(line, pos) && rs == Hows(xs) && Words(xs) == Words(done)
        invariant IsItems(line, i, pos, xs) == true && OnlyItems(line, i, pos, xs) == true
        invariant more <==> At(line, pos) in ['<', '>']
        decreases |line| - pos
      {
        ghost var a := pos;
        var op := Gettoken();
        ghost var b := pos;
        var file := Gettoken();
        if !file.Word? {
          NoFile(line, i, a, b, pos, xs, op, file);
          return Err(MissingFile), xs;
        }
        var how := if op == Symbol('<') then Redirect(file.t, O_RDONLY, 0)
                   else if op == Symbol('>') then Redirect(file.t, O_WRONLY + O_CREATE + O_TRUNC, 1)
                   else Redirect(file.t, O_WRONLY + O_CREATE, 1);
        assert IsRedirect(line, a, b, pos, how);
        ItemsNext(line, i, a, pos, xs, How(how));
        xs, rs := xs + [How(how)], rs + [how];
        more := Peek(['<', '>']);
      }
      return Ok(rs), xs;
    }

    /** parseexec: a block, or words and redirections. */
    method Parseexec() returns (r: Result<Cmd>)
      requires NUL !in line && pos <= |line|
      modifies this
      ensures Skip(line, old(pos)) <= pos <= |line| && OnlyExec(line, Skip(line, old(pos)), pos, r) == true
      ensures r.Ok? ==> IsExec(line, Skip(line, old(pos)), pos, r.value) == true && pos == Skip(line, pos)
      decreases |line| - pos, 2
    {
      var block := Peek(['(']);
      if block {
        ghost var i := pos;
        r := Parseblock();
        BlockOnly(line, i, pos, r);
      } else {
        r := Parseplain();
      }
    }

    /** parseexec past its test for a block. */
    method Parseplain() returns (r: Result<Cmd>)
      requires NUL !in line && pos <= |line| && pos == Skip(line, pos) && At(line, pos) != '('
      modifies this
      ensures old(pos) <= pos <= |line| && OnlyExec(line, old(pos), pos, r) == true
      ensures r.Ok? ==> IsExec(line, old(pos), pos, r.value) == true && pos == Skip(line, pos)
    {
      ghost var i := pos;
      ghost var xs: seq<Item> := [];
      OnlyItemsStart(line, i);
      var args: seq<Tok> := [];
      var redirs;
      redirs, xs := Parseredirs(i, xs, []);
      if redirs.Err? {
        NoItemsOnly(line, i, pos, redirs.error);
        return Err(redirs.error);
      }
      var rs := redirs.value;
      var stop := Peek(['|', ')', '&', ';']);
      while !stop
        invariant i <= pos <= |line| && pos == Skip(line, pos) && args == Words(xs)
        invariant rs == Hows(xs) && |args| < MAXARGS
        invariant IsItems(line, i, pos, xs) == true && OnlyItems(line, i, pos, xs) == true
        invariant At(line, pos) !in ['<', '>']
        invariant stop <==> pos < |line| && line[pos] in ['|', ')', '&', ';']
        decreases |line| - pos
      {
        ghost var a := pos;
        var tok := Gettoken();
        if tok.End? { break; }
        if !tok.Word? {
          NotAnItem(line, i, a, pos, xs, tok);
          NoItemsOnly(line, i, pos, Syntax);
          return Err(Syntax);
        }
        ItemsNext(line, i, a, pos, xs, Arg(tok.t));
        args, xs := args + [tok.t], xs + [Arg(tok.t)];
        if |args| >= MAXARGS {
          TooMany(line, i, pos, xs);
          return Err(TooManyArgs);
        }
        redirs, xs := Parseredirs(i, xs, rs);
        if redirs.Err? {
          NoItemsOnly(line, i, pos, redirs.error);
          return Err(redirs.error);
        }
        rs := redirs.value;
        stop := Peek(['|', ')', '&', ';']);
      }
      PlainOnly(line, i, pos, xs);
      return Ok(Wrapped(Exec(args), rs));
    }

    /** parseblock, with the opening parenthesis at pos. */
    method Parseblock() returns (r: Result<Cmd>)
      requires NUL !in line && pos < |line| && line[pos] == '('
      modifies this
      ensures old(pos) <= pos <= |line| && OnlyBlock(line, old(pos), pos, r) == true
      ensures r.Ok? ==> IsBlock(line, old(pos), pos, r.value) == true && pos == Skip(line, pos)
      decreases |line| - pos, 1
    {
      ghost var i := pos;
      var tok := Gettoken();
      ghost var a := pos;
      var inner := Parseline();
      ghost var b := pos;
      if inner.Err? {
        NoBlock(line, i, a, b, inner, pos, inner);
        return inner;
      }
      var close := Peek([')']);
      if !close {
        NoBlock(line, i, a, b, inner, pos, Err(MissingParen));
        return Err(MissingParen);
      }
      tok := Gettoken();
      ghost var e := pos;
      OnlyItemsStart(line, e);
      var redirs;
      ghost var xs;
      redirs, xs := Parseredirs(e, [], []);
      r := if redirs.Err? then Err(redirs.error) else Ok(Wrapped(inner.value, redirs.value));
      if redirs.Err? {
        BlockNoItems(line, i, a, b, e, inner.value, pos, r);
      } else {
        BlockOnlyFrom(line, i, a, b, e, pos, inner.value, xs);
      }
    }

    /** parsepipe */
    method Parsepipe() returns (r: Result<Cmd>)
      requires NUL !in line && pos <= |line|
      modifies this
      ensures Skip(line, old(pos)) <= pos <= |line| && OnlyPipe(line, Skip(line, old(pos)), pos, r) == true
      ensures r.Ok? ==> IsPipe(line, Skip(line, old(pos)), pos, r.value) == true && pos == Skip(line, pos)
      decreases |line| - pos, 3
    {
      ghost var i := Skip(line, pos);
      var left := Parseexec();
      ghost var a := pos;
      if left.Err? {
        PipeNoLeft(line, i, a, left);
        return left;
      }
      var more := Peek(['|']);
      if !more {
        PipeSingle(line, i, a, left.value);
        return left;
      }
      var tok := Gettoken();
      ghost var b := pos;
      var right := Parsepipe();
      r := if right.Err? then right else Ok(Pipe(left.value, right.value));
      PipeJoined(line, i, a, b, pos, left.value, right, r);
    }

    /** parseline */
    method Parseline() returns (r: Result<Cmd>)
      requires NUL !in line && pos <= |line|
      modifies this
      ensures Skip(line, old(pos)) <= pos <= |line| && OnlyLine(line, Skip(line, old(pos)), pos, r) == true
      ensures r.Ok? ==> IsLine(line, Skip(line, old(pos)), pos, r.value) == true && pos == Skip(line, pos)
      decreases |line| - pos, 4
    {
      ghost var i := Skip(line, pos);
      var left := Parsepipe();
      if left.Err? {
        LineNoLeft(line, i, pos, left);
        return left;
      }
      BacksStart(line, i, pos, left.value);
      var more := Peek(['&']);
      while more
        invariant i <= pos <= |line| && pos == Skip(line, pos) && left.Ok? && IsBacks(line, i, pos, left.value) == true
        invariant OnlyBacks(line, i, pos, left.value) == true && (more <==> At(line, pos) == '&')
        decreases |line| - pos
      {
        ghost var a := pos;
        var tok := Gettoken();
        BacksNext(line, i, a, pos, left.value);
        left := Ok(Back(left.value));
        more := Peek(['&']);
      }
      ghost var a := pos;
      more := Peek([';']);
      if !more {
        LineSingle(line, i, a, left.value);
        return left;
      }
      var tok := Gettoken();
      ghost var b := pos;
      var right := Parseline();
      r := if right.Err? then right else Ok(List(left.value, right.value));
      LineJoined(line, i, a, b, pos, left.value, right, r);
    }
  }

  /** No list of items from i ends where a command may end. */
  ghost predicate NoItems(line: seq<char>, i: nat) {
    forall j: nat, all: seq<Item> :: !(IsItems(line, i, j, all) && StopsExec(line, j))
  }

  lemma ItemsNext(line: seq<char>, i: nat, p: nat, q: nat, done: seq<Item>, x: Item)
    requires IsItems(line, i, p, done) == true && OnlyItems(line, i, p, done) == true
    requires IsItem(line, p, q, x) && !StopsExec(line, p)
    ensures IsItems(line, i, q, done + [x]) == true && OnlyItems(line, i, q, done + [x]) == true
    ensures Words(done + [x]) == (if x.Arg? then Words(done) + [x.t] else Words(done))
    ensures Hows(done + [x]) == if x.How? then Hows(done) + [x.r] else Hows(done)
  {
    ItemsSnoc(line, i, p, q, done, x);
    OnlyItemsNext(line, i, p, q, done, x);
    WordsSnoc(done, x);
  }

  /** An operator without a word after it. */
  lemma NoFile(line: seq<char>, i: nat, a: nat, b: nat, e: nat, done: seq<Item>, op: Token, file: Token)
    requires OnlyItems(line, i, a, done) == true && a <= |line| && At(line, a) in ['<', '>']
    requires Reads(line, a, b, op) && !op.End?
    requires b <= |line| && Reads(line, b, e, file) && !file.Word?
    ensures NoItems(line, i) == true
  {
    forall k: nat, x: Item ensures !IsItem(line, a, k, x) {
      NoRedirect(line, a, b, e, op, file, k, x);
    }
    forall j: nat, all: seq<Item> ensures !(IsItems(line, i, j, all) && StopsExec(line, j)) {
      NoItemsFrom(line, i, a, done, j, all);
    }
  }

  lemma NoRedirect(line: seq<char>, a: nat, b: nat, e: nat, op: Token, file: Token, k: nat, x: Item)
    requires a <= |line| && At(line, a) in ['<', '>'] && Reads(line, a, b, op) && !op.End?
    requires b <= |line| && Reads(line, b, e, file) && !file.Word?
    ensures !IsItem(line, a, k, x)
  {
    forall m: nat, r: Redirect ensures !IsRedirect(line, a, m, k, r) {
      if m == b { NotAWord(line, b, e, file, r.file); } else { NotTheOp(line, a, b, op, m, k, r); }
    }
  }

  lemma NotAWord(line: seq<char>, b: nat, e: nat, t: Token, w: Tok)
    requires b <= |line| && Reads(line, b, e, t) && !t.Word?
    ensures !(w.start == b && WordRun(line, w))
  {}

  lemma NotTheOp(line: seq<char>, a: nat, b: nat, op: Token, m: nat, k: nat, r: Redirect)
    requires Reads(line, a, b, op) && !op.End? && m != b
    ensures !IsRedirect(line, a, m, k, r)
  {
    if IsRedirect(line, a, m, k, r) { SingleGreater(line, a, m, k, r); }
  }

  /* Exec. */

  lemma BlockParts(line: seq<char>, i: nat, j: nat, c: Cmd) returns (a: nat, b: nat, e: nat, inner: Cmd, xs: seq<Item>)
    requires IsBlock(line, i, j, c)
    ensures BlockAt(line, i, a, b, e, j, inner, xs) && c == Wrapped(inner, Hows(xs)) && i < |line| && line[i] == '('
  {
    a, b, e, inner, xs :| BlockAt(line, i, a, b, e, j, inner, xs) && c == Wrapped(inner, Hows(xs));
  }

  lemma PlainParts(line: seq<char>, i: nat, j: nat, c: Cmd) returns (xs: seq<Item>)
    requires IsExec(line, i, j, c) && i <= |line| && At(line, i) != '('
    ensures IsItems(line, i, j, xs) && |Words(xs)| < MAXARGS && c == Wrapped(Exec(Words(xs)), Hows(xs))
  {
    if IsBlock(line, i, j, c) { var a, b, e, inner, ys := BlockParts(line, i, j, c); }
    xs :| IsItems(line, i, j, xs) && |Words(xs)| < MAXARGS && c == Wrapped(Exec(Words(xs)), Hows(xs));
  }

  /** A parenthesis starts no list of items. */
  lemma ParenNoItems(line: seq<char>, i: nat, j: nat, xs: seq<Item>)
    requires i < |line| && line[i] == '(' && StopsExec(line, j)
    ensures !IsItems(line, i, j, xs)
  {
    forall k: nat, x: Item ensures !IsItem(line, i, k, x) {}
  }

  lemma NoItemsOnly(line: seq<char>, i: nat, p: nat, e: Error)
    requires NoItems(line, i) == true && i <= |line| && At(line, i) != '('
    ensures OnlyExec(line, i, p, Err(e)) == true
  {
    forall j: nat, c: Cmd ensures !(IsExec(line, i, j, c) && StopsExec(line, j)) {
      if IsExec(line, i, j, c) { var xs := PlainParts(line, i, j, c); }
    }
  }

  /** A symbol that starts no item and ends no command. */
  lemma NotAnItem(line: seq<char>, i: nat, a: nat, b: nat, done: seq<Item>, t: Token)
    requires OnlyItems(line, i, a, done) == true && a < |line| && Reads(line, a, b, t) && !t.Word?
    requires line[a] !in ['<', '>', '|', ')', '&', ';']
    ensures NoItems(line, i) == true
  {
    forall k: nat, x: Item ensures !IsItem(line, a, k, x) {}
    forall j: nat, all: seq<Item> ensures !(IsItems(line, i, j, all) && StopsExec(line, j)) {
      NoItemsFrom(line, i, a, done, j, all);
    }
  }

  lemma TooMany(line: seq<char>, i: nat, p: nat, done: seq<Item>)
    requires OnlyItems(line, i, p, done) == true && |Words(done)| >= MAXARGS && i <= |line| && At(line, i) != '('
    ensures OnlyExec(line, i, p, Err(TooManyArgs)) == true
  {
    forall j: nat, all: seq<Item> | IsItems(line, i, j, all) && StopsExec(line, j) ensures |Words(all)| >= MAXARGS {
      assert Continues(line, p, j, done, all);
      WordsPrefix(all, |done|);
    }
    forall j: nat, c: Cmd ensures !(IsExec(line, i, j, c) && StopsExec(line, j)) {
      if IsExec(line, i, j, c) { var xs := PlainParts(line, i, j, c); }
    }
  }

  lemma PlainOnly(line: seq<char>, i: nat, p: nat, xs: seq<Item>)
    requires IsItems(line, i, p, xs) == true && OnlyItems(line, i, p, xs) == true && |Words(xs)| < MAXARGS
    requires StopsExec(line, p) && i <= |line| && At(line, i) != '('
    ensures IsExec(line, i, p, Wrapped(Exec(Words(xs)), Hows(xs))) == true
    ensures OnlyExec(line, i, p, Ok(Wrapped(Exec(Words(xs)), Hows(xs)))) == true
  {
    assert IsPlain(line, i, p, Wrapped(Exec(Words(xs)), Hows(xs)));
    forall j: nat, c: Cmd | IsExec(line, i, j, c) && StopsExec(line, j)
      ensures c == Wrapped(Exec(Words(xs)), Hows(xs)) && p == j
    {
      var all := PlainParts(line, i, j, c);
      OnlyItemsEnd(line, i, p, xs, j, all);
    }
  }

  /** What starts with a parenthesis is a block or nothing. */
  lemma BlockOnly(line: seq<char>, i: nat, p: nat, r: Result<Cmd>)
    requires i < |line| && line[i] == '(' && OnlyBlock(line, i, p, r) == true
    ensures OnlyExec(line, i, p, r) == true
  {
    forall j: nat, c: Cmd | IsExec(line, i, j, c) && StopsExec(line, j) ensures r == Ok(c) && p == j {
      NotPlain(line, i, j, c);
      assert IsBlock(line, i, j, c);
    }
  }

  lemma NotPlain(line: seq<char>, i: nat, j: nat, c: Cmd)
    requires i < |line| && line[i] == '(' && StopsExec(line, j)
    ensures !IsPlain(line, i, j, c)
  {
    forall xs: seq<Item> ensures !IsItems(line, i, j, xs) { ParenNoItems(line, i, j, xs); }
  }

  lemma NoBlock(line: seq<char>, i: nat, a: nat, b: nat, inner: Result<Cmd>, p: nat, r: Result<Cmd>)
    requires i < |line| && IsSym(line, i, a, '(') && a <= |line| && OnlyLine(line, a, b, inner) == true
    requires inner.Err? || b > |line| || At(line, b) != ')'
    ensures OnlyBlock(line, i, p, r) == true
  {
    forall j: nat, c: Cmd ensures !IsBlock(line, i, j, c) {
      if IsBlock(line, i, j, c) {
        var a1, b1, e1, d, xs := BlockParts(line, i, j, c);
        BlockLine(line, i, a, a1, b1, e1, j, d, xs);
      }
    }
  }

  lemma BlockLine(line: seq<char>, i: nat, a: nat, a1: nat, b1: nat, e1: nat, j: nat, c: Cmd, xs: seq<Item>)
    requires IsSym(line, i, a, '(') && BlockAt(line, i, a1, b1, e1, j, c, xs)
    ensures a1 == a && IsLine(line, a, b1, c) && StopsLine(line, b1) && b1 < |line| && line[b1] == ')'
  {}

  /** A reading of the block goes through the positions the parser went through. */
  lemma BlockSame(line: seq<char>, i: nat, a: nat, b: nat, e: nat, inner: Cmd, a1: nat, b1: nat, e1: nat, j: nat,
                  c: Cmd, xs: seq<Item>)
    requires IsSym(line, i, a, '(') && OnlyLine(line, a, b, Ok(inner)) == true && IsSym(line, b, e, ')')
    requires BlockAt(line, i, a1, b1, e1, j, c, xs)
    ensures a1 == a && b1 == b && e1 == e && c == inner
  {
    BlockLine(line, i, a, a1, b1, e1, j, c, xs);
  }

  lemma BlockNoItems(line: seq<char>, i: nat, a: nat, b: nat, e: nat, inner: Cmd, p: nat, r: Result<Cmd>)
    requires IsSym(line, i, a, '(') && OnlyLine(line, a, b, Ok(inner)) == true
    requires IsSym(line, b, e, ')') && NoItems(line, e) == true
    ensures OnlyBlock(line, i, p, r) == true
  {
    forall j: nat, c: Cmd | StopsExec(line, j) ensures !IsBlock(line, i, j, c) {
      if IsBlock(line, i, j, c) {
        var a1, b1, e1, d, xs := BlockParts(line, i, j, c);
        BlockSame(line, i, a, b, e, inner, a1, b1, e1, j, d, xs);
      }
    }
  }

  lemma BlockOnlyFrom(line: seq<char>, i: nat, a: nat, b: nat, e: nat, p: nat, inner: Cmd, xs: seq<Item>)
    requires i < a <= b < e <= p && IsSym(line, i, a, '(') && OnlyLine(line, a, b, Ok(inner)) == true
    requires IsSym(line, b, e, ')')
    requires IsLine(line, a, b, inner) == true && IsItems(line, e, p, xs) == true && OnlyItems(line, e, p, xs) == true
    requires Words(xs) == [] && p <= |line| && At(line, p) !in ['<', '>']
    ensures IsBlock(line, i, p, Wrapped(inner, Hows(xs))) == true
    ensures OnlyBlock(line, i, p, Ok(Wrapped(inner, Hows(xs)))) == true
  {
    assert BlockAt(line, i, a, b, e, p, inner, xs);
    forall j: nat, c: Cmd | IsBlock(line, i, j, c) && StopsExec(line, j)
      ensures c == Wrapped(inner, Hows(xs)) && p == j
    {
      var a1, b1, e1, c1, ys := BlockParts(line, i, j, c);
      BlockSame(line, i, a, b, e, inner, a1, b1, e1, j, c1, ys);
      OnlyHows(line, e, p, xs, j, ys);
    }
  }

  /** Redirections alone end where no redirection follows. */
  lemma OnlyHows(line: seq<char>, i: nat, p: nat, done: seq<Item>, j: nat, all: seq<Item>)
    requires OnlyItems(line, i, p, done) == true && p <= |line| && At(line, p) !in ['<', '>']
    requires IsItems(line, i, j, all) && StopsExec(line, j) && Words(all) == []
    ensures all == done && j == p
  {
    assert Continues(line, p, j, done, all);
    var rest := all[|done|..];
    assert all == done + rest;
    NoWordsRest(done, rest);
    NoHowsLeft(line, p, j, rest);
  }

  lemma {:induction false} NoWordsRest(a: seq<Item>, b: seq<Item>)
    requires Words(a + b) == []
    ensures Words(b) == []
    decreases |a|
  {
    if a == [] {
      assert a + b == b;
    } else {
      assert (a + b)[1..] == a[1..] + b;
      NoWordsRest(a[1..], b);
    }
  }

  lemma NoHowsLeft(line: seq<char>, p: nat, j: nat, rest: seq<Item>)
    requires p <= |line| && At(line, p) !in ['<', '>'] && IsItems(line, p, j, rest) && Words(rest) == []
    ensures rest == [] && j == p
  {
    forall k: nat, r: Redirect ensures !IsItem(line, p, k, How(r)) {}
  }

  /* Pipes. */

  /** A reading of a pipe starts with a reading of an exec that stops. */
  lemma PipeLeft(line: seq<char>, i: nat, j: nat, c: Cmd)
    requires IsPipe(line, i, j, c) && StopsPipe(line, j)
    ensures IsExec(line, i, j, c) ||
            (c.Pipe? && exists a: nat, b: nat ::
              && IsExec(line, i, a, c.left) && StopsExec(line, a)
              && IsSym(line, a, b, '|') && IsPipe(line, b, j, c.right))
  {
    if !IsExec(line, i, j, c) {
      var a: nat, b: nat :| i <= a < b <= j && IsExec(line, i, a, c.left) && IsSym(line, a, b, '|') &&
        IsPipe(line, b, j, c.right);
      assert StopsExec(line, a);
    }
  }

  lemma PipeNoLeft(line: seq<char>, i: nat, p: nat, r: Result<Cmd>)
    requires OnlyExec(line, i, p, r) == true && r.Err?
    ensures OnlyPipe(line, i, p, r) == true
  {
    forall j: nat, c: Cmd ensures !(IsPipe(line, i, j, c) && StopsPipe(line, j)) {
      if IsPipe(line, i, j, c) && StopsPipe(line, j) { PipeLeft(line, i, j, c); }
    }
  }

  lemma PipeSingle(line: seq<char>, i: nat, p: nat, l: Cmd)
    requires OnlyExec(line, i, p, Ok(l)) == true && p <= |line| && At(line, p) != '|'
    ensures OnlyPipe(line, i, p, Ok(l)) == true
  {
    forall j: nat, c: Cmd | IsPipe(line, i, j, c) && StopsPipe(line, j) ensures l == c && p == j {
      PipeLeft(line, i, j, c);
      assert IsExec(line, i, j, c) by {
        forall a: nat, b: nat
          ensures !(c.Pipe? && IsExec(line, i, a, c.left) && StopsExec(line, a) && IsSym(line, a, b, '|'))
        {}
      }
    }
  }

  lemma PipeJoined(line: seq<char>, i: nat, a: nat, b: nat, p: nat, l: Cmd, right: Result<Cmd>, r: Result<Cmd>)
    requires IsExec(line, i, a, l) == true && OnlyExec(line, i, a, Ok(l)) == true
    requires i <= a < b <= p && IsSym(line, a, b, '|')
    requires OnlyPipe(line, b, p, right) == true && (right.Ok? ==> IsPipe(line, b, p, right.value) == true)
    requires r == if right.Err? then right else Ok(Pipe(l, right.value))
    ensures OnlyPipe(line, i, p, r) == true && (r.Ok? ==> IsPipe(line, i, p, r.value) == true)
  {
    forall j: nat, c: Cmd | IsPipe(line, i, j, c) && StopsPipe(line, j) ensures r == Ok(c) && p == j {
      PipeLeft(line, i, j, c);
      assert !IsExec(line, i, j, c);
      var a1: nat, b1: nat :| IsExec(line, i, a1, c.left) && StopsExec(line, a1) && IsSym(line, a1, b1, '|') &&
        IsPipe(line, b1, j, c.right);
      assert l == c.left && a1 == a;
    }
  }

  /* Background commands. */

  /** From c at p, ampersands lead to d at j. */
  ghost predicate Amps(line: seq<char>, p: nat, j: nat, c: Cmd, d: Cmd)
    decreases j - p
  {
    (c == d && p == j) || exists q: nat :: p < q <= j && IsSym(line, p, q, '&') && Amps(line, q, j, Back(c), d)
  }

  lemma {:induction false} AmpsSnoc(line: seq<char>, p: nat, a: nat, j: nat, c: Cmd, d: Cmd)
    requires Amps(line, p, a, c, d) && a < j && IsSym(line, a, j, '&')
    ensures Amps(line, p, j, c, Back(d))
    decreases a - p
  {
    if c == d && p == a {
      assert Amps(line, j, j, Back(c), Back(d));
    } else {
      var q: nat :| p < q <= a && IsSym(line, p, q, '&') && Amps(line, q, a, Back(c), d);
      AmpsSnoc(line, q, a, j, Back(c), d);
    }
  }

  /** A reading of a backgrounded pipe is the pipe, then its ampersands. */
  lemma {:induction false} BacksSplit(line: seq<char>, i: nat, j: nat, c: Cmd) returns (k: nat, d: Cmd)
    requires IsBacks(line, i, j, c) && StopsPipe(line, j)
    ensures IsPipe(line, i, k, d) && StopsPipe(line, k) && Amps(line, k, j, d, c)
    decreases j - i
  {
    if IsPipe(line, i, j, c) {
      return j, c;
    }
    var a: nat :| i <= a < j && IsBacks(line, i, a, c.cmd) && IsSym(line, a, j, '&');
    k, d := BacksSplit(line, i, a, c.cmd);
    AmpsSnoc(line, k, a, j, d, c.cmd);
  }

  /** Every backgrounded reading from i goes through c at p. */
  ghost predicate OnlyBacks(line: seq<char>, i: nat, p: nat, c: Cmd) {
    forall j: nat, d: Cmd :: IsBacks(line, i, j, d) && StopsBacks(line, j) ==> Amps(line, p, j, c, d)
  }

  lemma BacksStart(line: seq<char>, i: nat, p: nat, c: Cmd)
    requires OnlyPipe(line, i, p, Ok(c)) == true
    ensures OnlyBacks(line, i, p, c) == true
  {
    forall j: nat, d: Cmd | IsBacks(line, i, j, d) && StopsBacks(line, j) ensures Amps(line, p, j, c, d) {
      var k, e := BacksSplit(line, i, j, d);
    }
  }

  lemma BacksNext(line: seq<char>, i: nat, p: nat, q: nat, c: Cmd)
    requires IsBacks(line, i, p, c) == true && OnlyBacks(line, i, p, c) == true && i <= p < q && IsSym(line, p, q, '&')
    ensures IsBacks(line, i, q, Back(c)) == true && OnlyBacks(line, i, q, Back(c)) == true
  {
    forall j: nat, d: Cmd | IsBacks(line, i, j, d) && StopsBacks(line, j) ensures Amps(line, q, j, Back(c), d) {
      assert Amps(line, p, j, c, d);
      assert p != j;
    }
  }

  /* Lists. */

  lemma LineNoLeft(line: seq<char>, i: nat, p: nat, r: Result<Cmd>)
    requires OnlyPipe(line, i, p, r) == true && r.Err?
    ensures OnlyLine(line, i, p, r) == true
  {
    forall j: nat, c: Cmd ensures !(IsBacks(line, i, j, c) && StopsBacks(line, j)) {
      if IsBacks(line, i, j, c) && StopsBacks(line, j) { var k, d := BacksSplit(line, i, j, c); }
    }
    forall j: nat, c: Cmd ensures !(IsLine(line, i, j, c) && StopsLine(line, j)) {
      if IsLine(line, i, j, c) && StopsLine(line, j) { LineLeft(line, i, j, c); }
    }
  }

  lemma LineLeft(line: seq<char>, i: nat, j: nat, c: Cmd)
    requires IsLine(line, i, j, c) && StopsLine(line, j)
    ensures (IsBacks(line, i, j, c) && StopsBacks(line, j)) ||
            (c.List? && exists a: nat, b: nat ::
              && IsBacks(line, i, a, c.left) && StopsBacks(line, a)
              && IsSym(line, a, b, ';') && IsLine(line, b, j, c.right))
  {
    if !IsBacks(line, i, j, c) {
      var a: nat, b: nat :| i <= a < b <= j && IsBacks(line, i, a, c.left) && IsSym(line, a, b, ';') &&
        IsLine(line, b, j, c.right);
      assert StopsBacks(line, a);
    }
  }

  /** Without an ampersand at p the ampersands have ended. */
  lemma BacksEnd(line: seq<char>, i: nat, p: nat, c: Cmd, j: nat, d: Cmd)
    requires OnlyBacks(line, i, p, c) == true && p <= |line| && At(line, p) != '&'
    requires IsBacks(line, i, j, d) && StopsBacks(line, j)
    ensures c == d && p == j
  {
    assert Amps(line, p, j, c, d);
  }

  lemma LineSingle(line: seq<char>, i: nat, p: nat, l: Cmd)
    requires IsBacks(line, i, p, l) == true && OnlyBacks(line, i, p, l) == true
    requires p <= |line| && At(line, p) !in ['&', ';']
    ensures IsLine(line, i, p, l) == true && OnlyLine(line, i, p, Ok(l)) == true
  {
    forall j: nat, c: Cmd | IsLine(line, i, j, c) && StopsLine(line, j) ensures l == c && p == j {
      LineLeft(line, i, j, c);
      if IsBacks(line, i, j, c) && StopsBacks(line, j) {
        BacksEnd(line, i, p, l, j, c);
      } else {
        var a: nat, b: nat :| IsBacks(line, i, a, c.left) && StopsBacks(line, a) && IsSym(line, a, b, ';') &&
          IsLine(line, b, j, c.right);
        BacksEnd(line, i, p, l, a, c.left);
      }
    }
  }

  lemma LineJoined(line: seq<char>, i: nat, a: nat, b: nat, p: nat, l: Cmd, right: Result<Cmd>, r: Result<Cmd>)
    requires IsBacks(line, i, a, l) == true && OnlyBacks(line, i, a, l) == true
    requires i <= a < b <= p && IsSym(line, a, b, ';')
    requires OnlyLine(line, b, p, right) == true && (right.Ok? ==> IsLine(line, b, p, right.value) == true)
    requires r == if right.Err? then right else Ok(List(l, right.value))
    ensures OnlyLine(line, i, p, r) == true && (r.Ok? ==> IsLine(line, i, p, r.value) == true)
  {
    forall j: nat, c: Cmd | IsLine(line, i, j, c) && StopsLine(line, j) ensures r == Ok(c) && p == j {
      LineLeft(line, i, j, c);
      if IsBacks(line, i, j, c) && StopsBacks(line, j) {
        BacksEnd(line, i, a, l, j, c);
      } else {
        var a1: nat, b1: nat :| IsBacks(line, i, a1, c.left) && StopsBacks(line, a1) && IsSym(line, a1, b1, ';') &&
          IsLine(line, b1, j, c.right);
        BacksEnd(line, i, a, l, a1, c.left);
      }
    }
  }

  /* NUL-termination. */

  function Ends(c: Cmd): set<nat> { set t | t in Toks(c) :: t.end }

  /** The buffer when each of the positions in ends has become a NUL. */
  ghost predicate Cut(before: seq<char>, after: seq<char>, ends: set<nat>) {
    |after| == |before| && forall x :: 0 <= x < |before| ==> after[x] == if x in ends then NUL else before[x]
  }

  lemma CutTwice(a: seq<char>, b: seq<char>, c: seq<char>, e: set<nat>, f: set<nat>)
    requires Cut(a, b, e) && Cut(b, c, f)
    ensures Cut(a, c, e + f)
  {}

  method Nulterminate(buf: array<char>, c: Cmd)
    requires forall t :: t in Toks(c) ==> t.end < buf.Length
    modifies buf
    ensures Cut(old(buf[..]), buf[..], Ends(c))
    decreases c
  {
    ghost var b0 := buf[..];
    match c
    case Exec(args) =>
      var i := 0;
      while i < |args|
        invariant 0 <= i <= |args| && Cut(b0, buf[..], Ends(Exec(args[..i])))
      {
        assert args[i] in Toks(c);
        buf[args[i].end] := NUL;
        EndsNext(args, i);
        i := i + 1;
      }
      assert args[..i] == args;
    case Redir(cmd, how) =>
      Nulterminate(buf, cmd);
      ghost var b1 := buf[..];
      buf[how.file.end] := NUL;
      CutTwice(b0, b1, buf[..], Ends(cmd), {how.file.end});
      assert Ends(c) == Ends(cmd) + {how.file.end};
    case Pipe(l, r) =>
      Nulterminate(buf, l);
      ghost var b1 := buf[..];
      Nulterminate(buf, r);
      CutTwice(b0, b1, buf[..], Ends(l), Ends(r));
      assert Ends(c) == Ends(l) + Ends(r);
    case List(l, r) =>
      Nulterminate(buf, l);
      ghost var b1 := buf[..];
      Nulterminate(buf, r);
      CutTwice(b0, b1, buf[..], Ends(l), Ends(r));
      assert Ends(c) == Ends(l) + Ends(r);
    case Back(cmd) =>
      Nulterminate(buf, cmd);
      assert Ends(c) == Ends(cmd);
  }

  lemma EndsNext(args: seq<Tok>, i: nat)
    requires i < |args|
    ensures Ends(Exec(args[..i + 1])) == Ends(Exec(args[..i])) + {args[i].end}
  {
    assert args[..i + 1] == args[..i] + [args[i]];
  }

  /** The C string at p. */
  function CString(buf: seq<char>, p: nat): seq<char>
    requires p <= |buf|
    decreases |buf| - p
  {
    if p == |buf| || buf[p] == NUL then [] else [buf[p]] + CString(buf, p + 1)
  }

  lemma {:induction false} CStringIs(buf: seq<char>, p: nat, e: nat)
    requires p <= e < |buf| && buf[e] == NUL && forall x :: p <= x < e ==> buf[x] != NUL
    ensures CString(buf, p) == buf[p..e]
    decreases e - p
  {
    if p < e { CStringIs(buf, p + 1, e); }
  }

  /** No token's end lies inside a token, so every token has become the C string of its own characters. */
  lemma TokensTerminated(line: seq<char>, buf: seq<char>, c: Cmd, t: Tok)
    requires Covers(line, 0, |line|, Toks(c)) == true && Cut(line + [NUL], buf, Ends(c)) && t in Toks(c)
    ensures t.end < |buf| && CString(buf, t.start) == line[t.start..t.end]
  {
    assert t.end in Ends(c);
    forall x | t.start <= x < t.end ensures buf[x] == line[x] && buf[x] != NUL {
      assert IsWord(line[x]);
      forall u | u in Toks(c) ensures u.end != x { assert WordRun(line, u); }
    }
    CStringIs(buf, t.start, t.end);
    assert buf[t.start..t.end] == line[t.start..t.end];
  }

  /** The reading of a line, or none. */
  lemma Exactly(line: seq<char>, p: nat, r: Result<Cmd>, out: Result<Cmd>)
    requires OnlyLine(line, Skip(line, 0), p, r) == true && (r.Ok? ==> IsLine(line, Skip(line, 0), p, r.value) == true)
    requires out == if r.Ok? && p != |line| then Err(Syntax) else r
    ensures forall c :: IsCommand(line, c) <==> out == Ok(c)
  {
    forall c ensures IsCommand(line, c) <==> out == Ok(c) {
      assert StopsLine(line, |line|);
    }
  }

  /** strlen */
  method Strlen(buf: array<char>) returns (n: nat)
    requires NUL in buf[..]
    ensures n < buf.Length && buf[n] == NUL && NUL !in buf[..n]
  {
    n := 0;
    while buf[n] != NUL
      invariant n < buf.Length && NUL !in buf[..n] && NUL in buf[n..]
      decreases buf.Length - n
    {
      n := n + 1;
    }
  }

  /**
   parsecmd succeeds exactly when the line reads as a command, and returns its one reading. Its tokens then hold every
   word character of the line, and each of them has become a C string equal to its characters. On a panic the buffer
   is as it was.
   */
  method Parsecmd(buf: array<char>) returns (r: Result<Cmd>, ghost line: seq<char>)
    requires NUL in buf[..]
    modifies buf
    ensures |line| < buf.Length && old(buf[..|line|]) == line && old(buf[|line|]) == NUL && NUL !in line
    ensures forall c :: IsCommand(line, c) <==> r == Ok(c)
    ensures r.Err? ==> buf[..] == old(buf[..])
    ensures r.Ok? ==> Covers(line, 0, |line|, Toks(r.value)) == true
    ensures r.Ok? ==> Placed(line, r.value) == true
    ensures r.Ok? ==>
      forall t :: t in Toks(r.value) ==> t.end <= |line| && CString(buf[..|line| + 1], t.start) == line[t.start..t.end]
    ensures r.Ok? ==> forall x :: 0 <= x < buf.Length && x !in Ends(r.value) ==> buf[x] == old(buf[x])
  {
    var n := Strlen(buf);
    line := buf[..n];
    ghost var b0 := buf[..];
    var p := new Parser(buf[..n]);
    r := p.Parseline();
    Exactly(line, p.pos, r, if r.Ok? && p.pos != n then Err(Syntax) else r);
    if r.Err? { return; }
    var left := p.Peek([]);
    if p.pos != n { return Err(Syntax), line; }
    CommandCovers(line, r.value);
    CommandPlaced(line, r.value);
    Nulterminate(buf, r.value);
    assert b0[..n + 1] == line + [NUL];
    assert Cut(line + [NUL], buf[..n + 1], Ends(r.value));
    forall t | t in Toks(r.value) ensures t.end <= n && CString(buf[..n + 1], t.start) == line[t.start..t.end] {
      TokensTerminated(line, buf[..n + 1], r.value, t);
    }
  }
}

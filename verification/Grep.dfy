/** The regular expression matcher of grep. Strings are what comes before their NUL. */
module Grep {
  import opened Basics

  /* The language of a pattern. */

  /** A character, with . for any, once or any number of times. */
  datatype Item = One(c: char) | Star(c: char)

  predicate Hits(c: char, x: char) { c == '.' || c == x }

  /** A stretch of text that one item matches. */
  predicate PieceOk(it: Item, w: string) {
    match it
    case One(c) => |w| == 1 && Hits(c, w[0])
    case Star(c) => forall i :: 0 <= i < |w| ==> Hits(c, w[i])
  }

  ghost function Join(ws: seq<string>): string { if ws == [] then "" else ws[0] + Join(ws[1..]) }

  ghost predicate Pieces(items: seq<Item>, ws: seq<string>) {
    |ws| == |items| && forall k :: 0 <= k < |ws| ==> PieceOk(items[k], ws[k])
  }

  /** s is one stretch for each item, in order. */
  ghost predicate InLanguage(items: seq<Item>, s: string) {
    exists ws :: Pieces(items, ws) && Join(ws) == s
  }

  /** How matchhere reads a pattern: a character and *, or a character; a last $ is neither. */
  function Items(re: string): seq<Item> {
    if re == "" || re == "$" then []
    else if |re| >= 2 && re[1] == '*' then [Star(re[0])] + Items(re[2..])
    else [One(re[0])] + Items(re[1..])
  }

  /** Whether matchhere reads a last $. */
  function Ends(re: string): bool {
    if re == "" then false
    else if re == "$" then true
    else if |re| >= 2 && re[1] == '*' then Ends(re[2..])
    else Ends(re[1..])
  }

  /** Some beginning of text is in the language, all of it if the pattern says so. */
  ghost predicate Accepts(items: seq<Item>, end: bool, text: string) {
    exists n :: 0 <= n <= |text| && InLanguage(items, text[..n]) && (end ==> n == |text|)
  }

  /* The language, one item at a time. */

  lemma NoItems(s: string)
    ensures InLanguage([], s) <==> s == ""
  {
    if s == "" { assert Pieces([], []) && Join([]) == s; }
  }

  lemma FirstItem(it: Item, rest: seq<Item>, s: string)
    ensures InLanguage([it] + rest, s) <==> exists k :: 0 <= k <= |s| && PieceOk(it, s[..k]) && InLanguage(rest, s[k..])
  {
    if InLanguage([it] + rest, s) {
      var ws :| Pieces([it] + rest, ws) && Join(ws) == s;
      assert Pieces(rest, ws[1..]);
      var k := |ws[0]|;
      assert s[..k] == ws[0] && s[k..] == Join(ws[1..]);
      assert ([it] + rest)[0] == it;
    }
    if exists k :: 0 <= k <= |s| && PieceOk(it, s[..k]) && InLanguage(rest, s[k..]) {
      var k :| 0 <= k <= |s| && PieceOk(it, s[..k]) && InLanguage(rest, s[k..]);
      var ws :| Pieces(rest, ws) && Join(ws) == s[k..];
      var all := [s[..k]] + ws;
      assert all[1..] == ws;
      assert Pieces([it] + rest, all) && Join(all) == s;
    }
  }

  lemma AcceptsNothing(end: bool, text: string)
    ensures Accepts([], end, text) <==> !end || text == ""
  {
    forall n | 0 <= n <= |text| ensures InLanguage([], text[..n]) <==> n == 0 { NoItems(text[..n]); }
    assert text[..0] == "";
  }

  /** What follows the first stretch is matched on its own. */
  lemma AcceptsFirst(it: Item, rest: seq<Item>, end: bool, text: string)
    ensures Accepts([it] + rest, end, text) <==>
            exists k :: 0 <= k <= |text| && PieceOk(it, text[..k]) && Accepts(rest, end, text[k..])
  {
    if Accepts([it] + rest, end, text) {
      var n :| 0 <= n <= |text| && InLanguage([it] + rest, text[..n]) && (end ==> n == |text|);
      FirstItem(it, rest, text[..n]);
      var k :| 0 <= k <= n && PieceOk(it, text[..n][..k]) && InLanguage(rest, text[..n][k..]);
      assert text[..n][..k] == text[..k] && text[..n][k..] == text[k..][..n - k];
      assert Accepts(rest, end, text[k..]);
    }
    if exists k :: 0 <= k <= |text| && PieceOk(it, text[..k]) && Accepts(rest, end, text[k..]) {
      var k :| 0 <= k <= |text| && PieceOk(it, text[..k]) && Accepts(rest, end, text[k..]);
      var m :| 0 <= m <= |text[k..]| && InLanguage(rest, text[k..][..m]) && (end ==> m == |text[k..]|);
      var s := text[..k + m];
      assert s[..k] == text[..k] && s[k..] == text[k..][..m];
      FirstItem(it, rest, s);
    }
  }

  lemma AcceptsOne(c: char, rest: seq<Item>, end: bool, text: string)
    ensures Accepts([One(c)] + rest, end, text) <==> text != "" && Hits(c, text[0]) && Accepts(rest, end, text[1..])
  {
    AcceptsFirst(One(c), rest, end, text);
    if text != "" { assert PieceOk(One(c), text[..1]) <==> Hits(c, text[0]); }
  }

  /** The first k characters of text are all hits of c. */
  predicate Run(c: char, text: string, k: nat) { k <= |text| && forall i :: 0 <= i < k ==> Hits(c, text[i]) }

  lemma AcceptsStar(c: char, rest: seq<Item>, end: bool, text: string)
    ensures Accepts([Star(c)] + rest, end, text) <==> exists k: nat :: Run(c, text, k) && Accepts(rest, end, text[k..])
  {
    AcceptsFirst(Star(c), rest, end, text);
    forall k | 0 <= k <= |text| ensures PieceOk(Star(c), text[..k]) <==> Run(c, text, k) {
      assert forall i :: 0 <= i < k ==> text[..k][i] == text[i];
    }
  }

  /** matchhere */
  method Matchhere(re: string, text: string) returns (r: bool)
    ensures r <==> Accepts(Items(re), Ends(re), text)
    decreases |re|, 0
  {
    AcceptsNothing(Ends(re), text);
    if re == "" { return true; }
    if |re| >= 2 && re[1] == '*' {
      AcceptsStar(re[0], Items(re[2..]), Ends(re[2..]), text);
      r := Matchstar(re[0], re[2..], text);
      return;
    }
    if re == "$" { return text == ""; }
    AcceptsOne(re[0], Items(re[1..]), Ends(re[1..]), text);
    if text != "" && (re[0] == '.' || re[0] == text[0]) {
      r := Matchhere(re[1..], text[1..]);
      return;
    }
    return false;
  }

  /** matchstar: tries re after no, one, two, ... hits of c. */
  method Matchstar(c: char, re: string, text: string) returns (r: bool)
    ensures r <==> exists k: nat :: Run(c, text, k) && Accepts(Items(re), Ends(re), text[k..])
    decreases |re|, 1
  {
    var i := 0;
    while true
      invariant Run(c, text, i) && forall k :: 0 <= k < i ==> !Accepts(Items(re), Ends(re), text[k..])
      decreases |text| - i
    {
      r := Matchhere(re, text[i..]);
      if r { return; }
      if i == |text| { return false; }
      if text[i] != c && c != '.' { return false; }
      i := i + 1;
    }
  }

  /** match: whether some stretch of text is in the language, with ^ and a last $ for the two ends of text. */
  method Match(re: string, text: string) returns (r: bool)
    ensures r <==> exists i: nat, j: nat :: Found(re, text, i, j)
  {
    if re != "" && re[0] == '^' {
      r := Matchhere(re[1..], text);
      Anchored(re, text);
      return;
    }
    var i := 0;
    while true
      invariant 0 <= i <= |text| && forall k :: 0 <= k < i ==> !Accepts(Items(re), Ends(re), text[k..])
      decreases |text| - i
    {
      r := Matchhere(re, text[i..]);
      if r || i == |text| {
        Floating(re, text);
        return;
      }
      i := i + 1;
    }
  }

  /** text[i..j] is in the language of re without its anchors, and lies where they say. */
  ghost predicate Found(re: string, text: string, i: nat, j: nat) {
    var start := re != "" && re[0] == '^';
    var p := if start then re[1..] else re;
    i <= j <= |text| && InLanguage(Items(p), text[i..j]) && (start ==> i == 0) && (Ends(p) ==> j == |text|)
  }

  lemma Anchored(re: string, text: string)
    requires re != "" && re[0] == '^'
    ensures Accepts(Items(re[1..]), Ends(re[1..]), text) <==> exists i: nat, j: nat :: Found(re, text, i, j)
  {
    if Accepts(Items(re[1..]), Ends(re[1..]), text) {
      var n :| 0 <= n <= |text| && InLanguage(Items(re[1..]), text[..n]) && (Ends(re[1..]) ==> n == |text|);
      assert text[0..n] == text[..n];
      assert Found(re, text, 0, n);
    }
    if exists i: nat, j: nat :: Found(re, text, i, j) {
      var i: nat, j: nat :| Found(re, text, i, j);
      assert text[0..j] == text[..j];
    }
  }

  lemma Floating(re: string, text: string)
    requires re == "" || re[0] != '^'
    ensures (exists k :: 0 <= k <= |text| && Accepts(Items(re), Ends(re), text[k..])) <==>
      exists i: nat, j: nat :: Found(re, text, i, j)
  {
    if exists k :: 0 <= k <= |text| && Accepts(Items(re), Ends(re), text[k..]) {
      var k :| 0 <= k <= |text| && Accepts(Items(re), Ends(re), text[k..]);
      var n :| 0 <= n <= |text[k..]| && InLanguage(Items(re), text[k..][..n]) && (Ends(re) ==> n == |text[k..]|);
      assert text[k..k + n] == text[k..][..n];
      assert Found(re, text, k, k + n);
    }
    if exists i: nat, j: nat :: Found(re, text, i, j) {
      var i: nat, j: nat :| Found(re, text, i, j);
      assert text[i..j] == text[i..][..j - i];
      assert Accepts(Items(re), Ends(re), text[i..]);
    }
  }
}

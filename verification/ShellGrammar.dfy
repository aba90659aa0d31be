/** The language of user/sh.c, stated on the tokens that gettoken cuts a line into
    and apart from the functions that parse them. */
module ShellGrammar {
  import opened ShellSyntax

  datatype Lex = Lex(kind: char, q: nat, eq: nat)

  /** What repeated calls of gettoken give from cursor i on. */
  function Tokens(s: string, i: nat): (ts: seq<Lex>)
    requires i <= |s| && Line(s)
    decreases |s| - i
  {
    var t := GetToken(s, i);
    if t.kind == '\0' then [] else [Lex(t.kind, t.q, t.eq)] + Tokens(s, t.next)
  }

  predicate IsArrow(kind: char) { kind == '<' || kind == '>' || kind == '+' }

  // ----- the grammar -----

  /** Words, and arrows each followed by a file name, in any order. */
  predicate Items(ts: seq<Lex>) {
    || ts == []
    || (ts[0].kind == 'a' && Items(ts[1..]))
    || (|ts| >= 2 && IsArrow(ts[0].kind) && ts[1].kind == 'a' && Items(ts[2..]))
  }

  /** The arguments among them. */
  function Args(ts: seq<Lex>): (argv: seq<(nat, nat)>)
    requires Items(ts)
  {
    if ts == [] then [] else if ts[0].kind == 'a' then [(ts[0].q, ts[0].eq)] + Args(ts[1..]) else Args(ts[2..])
  }

  /** The redirections among them. */
  function Redirections(ts: seq<Lex>): (fs: seq<File>)
    requires Items(ts)
  {
    if ts == [] then []
    else if ts[0].kind == 'a' then Redirections(ts[1..])
    else [File(ts[1].q, ts[1].eq, ModeOf(ts[0].kind))] + Redirections(ts[2..])
  }

  /** `c` is `d` with the redirections `fs`, the last outermost. */
  predicate Redirected(c: Cmd, d: Cmd, fs: seq<File>) {
    if fs == [] then c == d
    else
      var f := fs[|fs| - 1];
      c.Redir? && c.q == f.q && c.eq == f.eq && c.mode == f.mode && Redirected(c.cmd, d, fs[..|fs| - 1])
  }

  predicate IsSimple(ts: seq<Lex>, c: Cmd) {
    Items(ts) && |Args(ts)| < MAXARGS && Redirected(c, Exec(Args(ts)), Redirections(ts))
  }

  /** A line in parentheses up to token k, then redirections. */
  ghost predicate BlockAt(ts: seq<Lex>, c: Cmd, k: nat, d: Cmd)
    decreases |ts|, 0
  {
    && 0 < k < |ts| && ts[0].kind == '(' && ts[k].kind == ')' && IsLine(ts[1..k], d)
    && Items(ts[k + 1..]) && Args(ts[k + 1..]) == [] && Redirected(c, d, Redirections(ts[k + 1..]))
  }

  ghost predicate IsExec(ts: seq<Lex>, c: Cmd)
    decreases |ts|, 1
  {
    IsSimple(ts, c) || exists k: nat, d: Cmd :: BlockAt(ts, c, k, d)
  }

  ghost predicate PipeAt(ts: seq<Lex>, c: Cmd, k: nat)
    decreases |ts|, 2
  {
    c.Pipe? && k < |ts| && ts[k].kind == '|' && IsExec(ts[..k], c.left) && IsPipe(ts[k + 1..], c.right)
  }

  /** Commands joined by bars, to the right. */
  ghost predicate IsPipe(ts: seq<Lex>, c: Cmd)
    decreases |ts|, 3
  {
    IsExec(ts, c) || exists k: nat :: PipeAt(ts, c, k)
  }

  /** A pipeline and ampersands after it. */
  ghost predicate IsBacks(ts: seq<Lex>, c: Cmd)
    decreases |ts|, 4
  {
    IsPipe(ts, c) || (ts != [] && ts[|ts| - 1].kind == '&' && c.Back? && IsBacks(ts[..|ts| - 1], c.cmd))
  }

  ghost predicate ListAt(ts: seq<Lex>, c: Cmd, k: nat)
    decreases |ts|, 5
  {
    c.List? && k < |ts| && ts[k].kind == ';' && IsBacks(ts[..k], c.left) && IsLine(ts[k + 1..], c.right)
  }

  /** The same joined by semicolons, to the right. */
  ghost predicate IsLine(ts: seq<Lex>, c: Cmd)
    decreases |ts|, 6
  {
    IsBacks(ts, c) || exists k: nat :: ListAt(ts, c, k)
  }

  // ----- tokens -----

  lemma TokensSkip(s: string, i: nat)
    requires Line(s) && i <= |s|
    ensures Tokens(s, Skip(s, i)) == Tokens(s, i) && Skip(s, Skip(s, i)) == Skip(s, i)
  {
    hide GetToken, Skip;
    TokenSkip(s, i);
  }

  /** The first token, by the character the cursor stands on. */
  lemma First(s: string, i: nat)
    requires Line(s) && i <= |s|
    ensures var c, ts, t := At(s, Skip(s, i)), Tokens(s, i), GetToken(s, i);
            && (ts == [] <==> c == '\0') && (ts == [] <==> t.kind == '\0')
            && (ts != [] ==>
                  && ts[0] == Lex(t.kind, t.q, t.eq) && ts[1..] == Tokens(s, t.next)
                  && (if c == '>' then t.kind == '>' || t.kind == '+' else if Sym(c) then t.kind == c else t.kind == 'a'))
  {
    hide Skip, WordEnd;
  }

  /** What peek tells of the next token. */
  lemma Peeks(s: string, i: nat)
    requires Line(s) && i <= |s|
    ensures var ts := Tokens(s, i);
            && (Peek(s, i, "|") <==> ts != [] && ts[0].kind == '|')
            && (Peek(s, i, "&") <==> ts != [] && ts[0].kind == '&')
            && (Peek(s, i, ";") <==> ts != [] && ts[0].kind == ';')
            && (Peek(s, i, "(") <==> ts != [] && ts[0].kind == '(')
            && (Peek(s, i, ")") <==> ts != [] && ts[0].kind == ')')
            && (Peek(s, i, "<>") <==> ts != [] && IsArrow(ts[0].kind))
            && (Peek(s, i, "|)&;") <==> ts != [] && Stops(ts[0].kind))
  {
    hide Skip, GetToken, Tokens;
    First(s, i);
  }

  predicate Stops(kind: char) { kind == '|' || kind == ')' || kind == '&' || kind == ';' }

  /** Nothing but blanks lies around a token, and none inside. */
  lemma Blanks(s: string, i: nat, k: nat)
    requires Line(s) && i <= k < |s|
    ensures var t := GetToken(s, i);
            && (k < t.q || t.eq <= k < t.next ==> Ws(s[k])) && (t.q <= k < t.eq ==> !Ws(s[k]))
            && (t.kind == '\0' ==> Ws(s[k]))
  {
  }

  /** Each non-blank character of the line belongs to a token. */
  lemma {:induction false} Covers(s: string, i: nat, k: nat) returns (n: nat)
    requires Line(s) && i <= k < |s| && !Ws(s[k])
    ensures n < |Tokens(s, i)| && Tokens(s, i)[n].q <= k < Tokens(s, i)[n].eq
    decreases |s| - i
  {
    hide GetToken;
    var t := GetToken(s, i);
    Blanks(s, i, k);
    if k < t.eq {
      n := 0;
    } else {
      var m := Covers(s, t.next, k);
      n := m + 1;
    }
  }

  /** Tokens come in the order of the line, and each is a whole word, a symbol, or
      the two characters of >>, taken together wherever they meet. */
  lemma {:induction false} Spells(s: string, i: nat, n: nat)
    requires Line(s) && i <= |s| && n < |Tokens(s, i)|
    ensures var ts := Tokens(s, i);
            var x := ts[n];
            && i <= x.q < x.eq <= |s| && (n + 1 < |ts| ==> x.eq <= ts[n + 1].q)
            && (if x.kind == 'a' then Word(s, x.q, x.eq)
                else if x.kind == '+' then s[x.q..x.eq] == ">>"
                else s[x.q..x.eq] == [x.kind] && Sym(x.kind) && (x.kind == '>' ==> At(s, x.eq) != '>'))
    decreases |s| - i
  {
    var t := GetToken(s, i);
    TokenSpells(s, i);
    hide GetToken, Skip, Word;
    if n > 0 {
      Spells(s, t.next, n - 1);
    } else if |Tokens(s, i)| > 1 {
      First(s, i);
      First(s, t.next);
    }
  }

  lemma TokenSpells(s: string, i: nat)
    requires Line(s) && i <= |s|
    ensures var t := GetToken(s, i);
            t.kind != '\0' ==>
              if t.kind == 'a' then Word(s, t.q, t.eq)
              else if t.kind == '+' then s[t.q..t.eq] == ">>"
              else s[t.q..t.eq] == [t.kind] && Sym(t.kind) && (t.kind == '>' ==> At(s, t.eq) != '>')
  {
    hide Skip, WordEnd;
  }

  // ----- items and redirections -----

  lemma ItemsWord(w: Lex, ts: seq<Lex>)
    requires w.kind == 'a' && Items(ts)
    ensures Items([w] + ts) && Args([w] + ts) == [(w.q, w.eq)] + Args(ts) && Redirections([w] + ts) == Redirections(ts)
  {
    assert ([w] + ts)[1..] == ts;
  }

  lemma ItemsFile(a: Lex, f: Lex, ts: seq<Lex>)
    requires IsArrow(a.kind) && f.kind == 'a' && Items(ts)
    ensures Items([a, f] + ts) && Args([a, f] + ts) == Args(ts)
    ensures Redirections([a, f] + ts) == [File(f.q, f.eq, ModeOf(a.kind))] + Redirections(ts)
  {
    assert ([a, f] + ts)[2..] == ts;
  }

  /** The first item and the rest. */
  lemma ItemsSplit(ts: seq<Lex>)
    requires Items(ts) && ts != []
    ensures ts[0].kind == 'a' ==> Items(ts[1..]) && ts == [ts[0]] + ts[1..]
    ensures ts[0].kind != 'a' ==>
              |ts| >= 2 && IsArrow(ts[0].kind) && ts[1].kind == 'a' && Items(ts[2..]) && ts == [ts[0], ts[1]] + ts[2..]
  {
  }

  lemma {:induction false} ItemsJoin(a: seq<Lex>, b: seq<Lex>)
    requires Items(a) && Items(b)
    ensures Items(a + b) && Args(a + b) == Args(a) + Args(b) && Redirections(a + b) == Redirections(a) + Redirections(b)
  {
    hide Items, Args, Redirections, IsArrow, ModeOf;
    if a == [] {
      NoItems();
      assert a + b == b;
    } else {
      ItemsSplit(a);
      if a[0].kind == 'a' {
        ItemsJoin(a[1..], b);
        ItemsWord(a[0], a[1..]);
        ItemsWord(a[0], a[1..] + b);
        assert a + b == [a[0]] + (a[1..] + b);
      } else {
        ItemsJoin(a[2..], b);
        ItemsFile(a[0], a[1], a[2..]);
        ItemsFile(a[0], a[1], a[2..] + b);
        assert a + b == [a[0], a[1]] + (a[2..] + b);
      }
    }
  }

  lemma {:induction false} WrapLast(d: Cmd, fs: seq<File>)
    requires fs != []
    ensures var f := fs[|fs| - 1]; Wrap(d, fs) == Redir(Wrap(d, fs[..|fs| - 1]), f.q, f.eq, f.mode)
    decreases |fs|
  {
    if |fs| > 1 {
      WrapLast(Redir(d, fs[0].q, fs[0].eq, fs[0].mode), fs[1..]);
      assert fs[1..][..|fs| - 2] == fs[..|fs| - 1][1..];
    }
  }

  lemma {:induction false} WrapIs(c: Cmd, d: Cmd, fs: seq<File>)
    ensures Redirected(c, d, fs) <==> c == Wrap(d, fs)
    decreases |fs|
  {
    if fs != [] {
      WrapLast(d, fs);
      if c.Redir? { WrapIs(c.cmd, d, fs[..|fs| - 1]); }
    }
  }

  // ----- every tree the parser returns is the grammar's -----

  lemma {:induction false} RedirsSound(s: string, i: nat) returns (ts: seq<Lex>)
    requires Line(s) && i <= |s| && ParseRedirs(s, i).Files?
    ensures var r := ParseRedirs(s, i);
            Tokens(s, i) == ts + Tokens(s, r.next) && Items(ts) && Args(ts) == [] && Redirections(ts) == r.list
    decreases |s| - i
  {
    hide GetToken, Skip, Peek, Tokens, Items, Args, Redirections;
    Peeks(s, i);
    First(s, i);
    NoItems();
    if Peek(s, i, "<>") {
      var t := GetToken(s, i);
      First(s, t.next);
      var u := GetToken(s, t.next);
      var rest := RedirsSound(s, u.next);
      var a, b := Lex(t.kind, t.q, t.eq), Lex(u.kind, u.q, u.eq);
      ts := [a, b] + rest;
      ItemsFile(a, b, rest);
      assert Tokens(s, i) == [a] + ([b] + Tokens(s, u.next));
    } else {
      ts := [];
      TokensSkip(s, i);
    }
  }

  lemma {:induction false} ArgsSound(s: string, argv: seq<(nat, nat)>, fs: seq<File>, i: nat) returns (ts: seq<Lex>)
    requires i <= |s| && Line(s) && CmdOk(s, Exec(argv)) && FilesOk(s, fs) && ParseArgs(s, argv, fs, i).Ok?
    ensures var r := ParseArgs(s, argv, fs, i);
            && Tokens(s, i) == ts + Tokens(s, r.next) && Items(ts) && |argv| + |Args(ts)| < MAXARGS
            && r.cmd == Wrap(Exec(argv + Args(ts)), fs + Redirections(ts))
    decreases |s| - i
  {
    hide GetToken, Skip, Peek, Tokens, ParseRedirs, Wrap, Word, Items, Args, Redirections;
    First(s, i);
    TokensSkip(s, i);
    var t := GetToken(s, i);
    if Peek(s, i, "|)&;") {
      ts := [];
      NoItems();
      assert argv + [] == argv && fs + [] == fs;
    } else if t.kind == '\0' {
      ts := [];
      NoItems();
      EndOfTokens(s, i);
      assert argv + [] == argv && fs + [] == fs;
    } else {
      var r := ParseRedirs(s, t.next);
      var a := RedirsSound(s, t.next);
      var b := ArgsSound(s, argv + [(t.q, t.eq)], fs + r.list, r.next);
      var w := Lex(t.kind, t.q, t.eq);
      ItemsJoin(a, b);
      ItemsWord(w, a + b);
      ts := [w] + (a + b);
      assert argv + [(t.q, t.eq)] + Args(b) == argv + Args(ts);
      assert fs + r.list + Redirections(b) == fs + Redirections(ts);
      assert Tokens(s, i) == [w] + Tokens(s, t.next);
    }
  }

  lemma NoItems()
    ensures Items([]) && Args([]) == [] && Redirections([]) == []
  {
  }

  lemma EndOfTokens(s: string, i: nat)
    requires Line(s) && i <= |s| && GetToken(s, i).kind == '\0'
    ensures Tokens(s, i) == [] && Tokens(s, GetToken(s, i).next) == []
  {
    var t := GetToken(s, i);
    SkipNone(s, t.q);
    assert t.next == t.q == Skip(s, i);
    TokensSkip(s, i);
  }

  lemma {:induction false} BlockSound(s: string, i: nat) returns (ts: seq<Lex>)
    requires Line(s) && i <= |s| && At(s, i) == '(' && ParseBlock(s, i).Ok?
    ensures var r := ParseBlock(s, i); Tokens(s, i) == ts + Tokens(s, r.next) && IsExec(ts, r.cmd)
    decreases |s| - i, 0
  {
    hide GetToken, Skip, Peek, Tokens, ParseRedirs, ParseLine, Wrap, Items, Args, Redirections, IsLine, IsSimple, Redirected;
    SkipNone(s, i);
    First(s, i);
    var t := GetToken(s, i);
    var r := ParseLine(s, t.next);
    var a := LineSound(s, t.next);
    Peeks(s, r.next);
    First(s, r.next);
    var u := GetToken(s, r.next);
    var b := RedirsSound(s, u.next);
    var f := ParseRedirs(s, u.next);
    WrapIs(Wrap(r.cmd, f.list), r.cmd, f.list);
    var l, m := Lex(t.kind, t.q, t.eq), Lex(u.kind, u.q, u.eq);
    ts := [l] + a + [m] + b;
    assert ts[1..|a| + 1] == a && ts[|a| + 2..] == b;
    assert BlockAt(ts, Wrap(r.cmd, f.list), |a| + 1, r.cmd);
    assert Tokens(s, i) == [l] + (a + ([m] + (b + Tokens(s, f.next))));
  }

  lemma ExecSound(s: string, i: nat) returns (ts: seq<Lex>)
    requires Line(s) && i <= |s| && ParseExec(s, i).Ok?
    ensures var r := ParseExec(s, i); Tokens(s, i) == ts + Tokens(s, r.next) && IsExec(ts, r.cmd)
    decreases |s| - i, 1
  {
    hide GetToken, Skip, Tokens, ParseRedirs, ParseArgs, ParseBlock, Items, Args, Redirections, BlockAt, Redirected;
    if Peek(s, i, "(") {
      TokensSkip(s, i);
      ts := BlockSound(s, Skip(s, i));
    } else {
      var f := ParseRedirs(s, i);
      var a := RedirsSound(s, i);
      var b := ArgsSound(s, [], f.list, f.next);
      ItemsJoin(a, b);
      ts := a + b;
      assert [] + Args(b) == Args(ts);
      var c := ParseArgs(s, [], f.list, f.next).cmd;
      WrapIs(c, Exec(Args(ts)), Redirections(ts));
      assert IsSimple(ts, c);
    }
  }

  lemma {:induction false} PipeSound(s: string, i: nat) returns (ts: seq<Lex>)
    requires Line(s) && i <= |s| && ParsePipe(s, i).Ok?
    ensures var r := ParsePipe(s, i); Tokens(s, i) == ts + Tokens(s, r.next) && IsPipe(ts, r.cmd)
    decreases |s| - i, 2
  {
    hide GetToken, Skip, Peek, Tokens, ParseExec, IsExec;
    var r := ParseExec(s, i);
    var a := ExecSound(s, i);
    Peeks(s, r.next);
    First(s, r.next);
    if Peek(s, r.next, "|") {
      var t := GetToken(s, r.next);
      var b := PipeSound(s, t.next);
      var m := Lex(t.kind, t.q, t.eq);
      ts := a + [m] + b;
      assert ts[..|a|] == a && ts[|a| + 1..] == b;
      assert PipeAt(ts, ParsePipe(s, i).cmd, |a|);
      assert Tokens(s, i) == a + ([m] + (b + Tokens(s, ParsePipe(s, i).next)));
    } else {
      ts := a;
      TokensSkip(s, r.next);
    }
  }

  lemma {:induction false} BacksSound(s: string, c: Cmd, i: nat, a: seq<Lex>) returns (ts: seq<Lex>)
    requires Line(s) && i <= |s| && CmdOk(s, c) && IsBacks(a, c)
    ensures var r := ParseBacks(s, c, i); a + Tokens(s, i) == ts + Tokens(s, r.1) && IsBacks(ts, r.0)
    decreases |s| - i
  {
    hide GetToken, Skip, Peek, Tokens, IsPipe;
    Peeks(s, i);
    First(s, i);
    if Peek(s, i, "&") {
      var t := GetToken(s, i);
      var m := Lex(t.kind, t.q, t.eq);
      assert (a + [m])[..|a|] == a;
      assert a + Tokens(s, i) == (a + [m]) + Tokens(s, t.next);
      ts := BacksSound(s, Back(c), t.next, a + [m]);
    } else {
      ts := a;
      TokensSkip(s, i);
    }
  }

  lemma {:induction false} LineSound(s: string, i: nat) returns (ts: seq<Lex>)
    requires Line(s) && i <= |s| && ParseLine(s, i).Ok?
    ensures var r := ParseLine(s, i); Tokens(s, i) == ts + Tokens(s, r.next) && IsLine(ts, r.cmd)
    decreases |s| - i, 3
  {
    hide GetToken, Skip, Peek, Tokens, ParsePipe, ParseBacks, IsBacks;
    var p := ParsePipe(s, i);
    var a := PipeSound(s, i);
    PipeBacks(a, p.cmd);
    var r := ParseBacks(s, p.cmd, p.next);
    var b := BacksSound(s, p.cmd, p.next, a);
    Peeks(s, r.1);
    First(s, r.1);
    if Peek(s, r.1, ";") {
      var t := GetToken(s, r.1);
      var d := LineSound(s, t.next);
      var m := Lex(t.kind, t.q, t.eq);
      ts := b + [m] + d;
      assert ts[..|b|] == b && ts[|b| + 1..] == d;
      assert ListAt(ts, ParseLine(s, i).cmd, |b|);
      assert Tokens(s, i) == b + ([m] + (d + Tokens(s, ParseLine(s, i).next)));
    } else {
      ts := b;
      TokensSkip(s, r.1);
    }
  }

  lemma PipeBacks(ts: seq<Lex>, c: Cmd)
    requires IsPipe(ts, c)
    ensures IsBacks(ts, c)
  {
    hide IsPipe;
  }

  // ----- and the parser finds every tree of the grammar -----

  /** After `ts` the line goes on with `rest`. */
  predicate Continues(s: string, i: nat, ts: seq<Lex>, rest: seq<Lex>) {
    Line(s) && i <= |s| && Tokens(s, i) == ts + rest
  }

  /** The first token read, and those after it. */
  lemma Reads(s: string, i: nat, ts: seq<Lex>, rest: seq<Lex>)
    requires Continues(s, i, ts, rest) && ts != []
    ensures var t := GetToken(s, i); ts[0] == Lex(t.kind, t.q, t.eq) && i < t.next && Continues(s, t.next, ts[1..], rest)
    ensures ts[0].kind != '\0'
  {
    hide GetToken, Skip, Tokens;
    First(s, i);
    assert ts[1..] + rest == (ts + rest)[1..];
  }

  lemma {:induction false} RedirsComplete(s: string, i: nat, ts: seq<Lex>, rest: seq<Lex>) returns (j: nat)
    requires Continues(s, i, ts, rest) && Items(ts) && Args(ts) == [] && (rest != [] ==> !IsArrow(rest[0].kind))
    ensures ParseRedirs(s, i) == Files(Redirections(ts), j) && Continues(s, j, [], rest) && i <= j
    decreases |ts|
  {
    hide GetToken, Skip, Peek, Tokens, Items, Args, Redirections, Word;
    Peeks(s, i);
    TokensSkip(s, i);
    NoItems();
    if ts == [] {
      j := Skip(s, i);
    } else {
      ItemsSplit(ts);
      if ts[0].kind == 'a' {
        ItemsWord(ts[0], ts[1..]);
        assert false;
      } else {
        ItemsFile(ts[0], ts[1], ts[2..]);
        Reads(s, i, ts, rest);
        Reads(s, GetToken(s, i).next, ts[1..], rest);
        assert ts[1..][1..] == ts[2..];
        j := RedirsComplete(s, GetToken(s, GetToken(s, i).next).next, ts[2..], rest);
      }
    }
  }

  /** The redirections at the front, up to the first word. */
  lemma {:induction false} Lead(ts: seq<Lex>) returns (k: nat)
    requires Items(ts)
    ensures k <= |ts| && Items(ts[..k]) && Args(ts[..k]) == [] && Items(ts[k..]) && (k < |ts| ==> ts[k].kind == 'a')
  {
    hide Items, Args, Redirections, IsArrow;
    NoItems();
    if ts == [] {
      k := 0;
    } else {
      ItemsSplit(ts);
      if ts[0].kind == 'a' {
        k := 0;
        assert ts[0..] == ts;
      } else {
        var m := Lead(ts[2..]);
        k := m + 2;
        ItemsFile(ts[0], ts[1], ts[2..][..m]);
        assert ts[..k] == [ts[0], ts[1]] + ts[2..][..m];
        assert ts[k..] == ts[2..][m..];
      }
    }
  }

  lemma {:induction false} ArgsComplete(s: string, argv: seq<(nat, nat)>, fs: seq<File>, i: nat, ts: seq<Lex>, rest: seq<Lex>)
    returns (j: nat)
    requires Continues(s, i, ts, rest) && Items(ts) && (ts != [] ==> ts[0].kind == 'a') && (rest != [] ==> Stops(rest[0].kind))
    requires CmdOk(s, Exec(argv)) && FilesOk(s, fs) && |argv| + |Args(ts)| < MAXARGS
    ensures ParseArgs(s, argv, fs, i) == Ok(Wrap(Exec(argv + Args(ts)), fs + Redirections(ts)), j)
    ensures Continues(s, j, [], rest) && i <= j
    decreases |ts|
  {
    hide GetToken, Skip, Peek, Tokens, Items, Args, Redirections, ParseRedirs, Wrap, Word;
    Peeks(s, i);
    First(s, i);
    TokensSkip(s, i);
    NoItems();
    if ts == [] {
      assert argv + [] == argv && fs + [] == fs;
      j := ParseArgs(s, argv, fs, i).next;
      if rest == [] { EndOfTokens(s, i); }
    } else {
      ItemsSplit(ts);
      ItemsWord(ts[0], ts[1..]);
      Reads(s, i, ts, rest);
      var t := GetToken(s, i);
      var k := Lead(ts[1..]);
      var a, b := ts[1..][..k], ts[1..][k..];
      ItemsJoin(a, b);
      assert ts[1..] == a + b;
      assert ts[1..] + rest == a + (b + rest);
      var m := RedirsComplete(s, t.next, a, b + rest);
      assert Tokens(s, m) == b + rest by { assert [] + (b + rest) == b + rest; }
      j := ArgsComplete(s, argv + [(t.q, t.eq)], fs + Redirections(a), m, b, rest);
      assert argv + [(t.q, t.eq)] + Args(b) == argv + Args(ts);
      assert fs + Redirections(a) + Redirections(b) == fs + Redirections(ts);
    }
  }

  lemma NoParenthesis(s: string, i: nat, ts: seq<Lex>, rest: seq<Lex>)
    requires Continues(s, i, ts, rest) && Items(ts) && (rest != [] ==> Stops(rest[0].kind))
    ensures !Peek(s, i, "(")
  {
    hide GetToken, Skip, Peek, Tokens;
    Peeks(s, i);
    if ts != [] { ItemsSplit(ts); }
  }

  lemma SimpleComplete(s: string, i: nat, ts: seq<Lex>, c: Cmd, rest: seq<Lex>) returns (j: nat)
    requires Continues(s, i, ts, rest) && IsSimple(ts, c) && (rest != [] ==> Stops(rest[0].kind))
    ensures ParseExec(s, i) == Ok(c, j) && Continues(s, j, [], rest) && i <= j
  {
    hide GetToken, Skip, Peek, Tokens, Items, Args, Redirections, ParseRedirs, ParseArgs, Redirected, ParseBlock, Word;
    NoParenthesis(s, i, ts, rest);
    var k := Lead(ts);
    var a, b := ts[..k], ts[k..];
    ItemsJoin(a, b);
    assert ts == a + b;
    assert ts + rest == a + (b + rest);
    assert rest != [] ==> !IsArrow(rest[0].kind);
    hide IsArrow, Stops;
    var m := RedirsComplete(s, i, a, b + rest);
    assert Tokens(s, m) == b + rest by { assert [] + (b + rest) == b + rest; }
    j := ArgsComplete(s, [], Redirections(a), m, b, rest);
    assert [] + Args(b) == Args(ts);
    WrapIs(c, Exec(Args(ts)), Redirections(ts));
  }

  lemma {:induction false} ExecComplete(s: string, i: nat, ts: seq<Lex>, c: Cmd, rest: seq<Lex>) returns (j: nat)
    requires Continues(s, i, ts, rest) && IsExec(ts, c) && (rest != [] ==> Stops(rest[0].kind))
    ensures ParseExec(s, i) == Ok(c, j) && Continues(s, j, [], rest) && i <= j
    decreases |ts|, 1
  {
    hide Continues, IsSimple, BlockAt, ParseExec;
    if IsSimple(ts, c) {
      j := SimpleComplete(s, i, ts, c, rest);
    } else {
      var k: nat, d: Cmd :| BlockAt(ts, c, k, d);
      j := BlockComplete(s, i, ts, c, k, d, rest);
    }
  }

  lemma {:induction false} BlockComplete(s: string, i: nat, ts: seq<Lex>, c: Cmd, k: nat, d: Cmd, rest: seq<Lex>) returns (j: nat)
    requires Continues(s, i, ts, rest) && BlockAt(ts, c, k, d) && (rest != [] ==> Stops(rest[0].kind))
    ensures ParseExec(s, i) == Ok(c, j) && Continues(s, j, [], rest) && i <= j
    decreases |ts|, 0
  {
    hide GetToken, Skip, Tokens, ParseRedirs, ParseLine, Wrap, Items, Args, Redirections, IsLine, Redirected;
    Peeks(s, i);
    TokenSkip(s, i);
    var after := ts[k + 1..];
    Reads(s, i, ts, rest);
    var t := GetToken(s, i);
    assert ts[1..] + rest == ts[1..k] + (ts[k..] + rest);
    var e := LineComplete(s, t.next, ts[1..k], d, ts[k..] + rest);
    assert [] + (ts[k..] + rest) == ts[k..] + rest;
    Peeks(s, e);
    Reads(s, e, ts[k..], rest);
    assert ts[k..][1..] == after;
    j := RedirsComplete(s, GetToken(s, e).next, after, rest);
    WrapIs(c, d, Redirections(after));
  }

  lemma {:induction false} PipeComplete(s: string, i: nat, ts: seq<Lex>, c: Cmd, rest: seq<Lex>) returns (j: nat)
    requires Continues(s, i, ts, rest) && IsPipe(ts, c) && (rest != [] ==> Stops(rest[0].kind) && rest[0].kind != '|')
    ensures ParsePipe(s, i) == Ok(c, j) && Continues(s, j, [], rest) && i <= j
    decreases |ts|, 2
  {
    hide GetToken, Skip, Tokens, Peek, ParseExec, IsExec;
    if IsExec(ts, c) {
      var e := ExecComplete(s, i, ts, c, rest);
      Peeks(s, e);
      TokensSkip(s, e);
      j := Skip(s, e);
    } else {
      var k: nat :| PipeAt(ts, c, k);
      assert ts + rest == ts[..k] + (ts[k..] + rest);
      var e := ExecComplete(s, i, ts[..k], c.left, ts[k..] + rest);
      assert [] + (ts[k..] + rest) == ts[k..] + rest;
      Peeks(s, e);
      Reads(s, e, ts[k..], rest);
      assert ts[k..][1..] == ts[k + 1..];
      j := PipeComplete(s, GetToken(s, e).next, ts[k + 1..], c.right, rest);
    }
  }

  /** The parser reads the pipeline first and then goes over the ampersands. */
  lemma {:induction false} BacksComplete(s: string, i: nat, ts: seq<Lex>, c: Cmd, rest: seq<Lex>) returns (p: Cmd, e: nat)
    requires Continues(s, i, ts, rest) && IsBacks(ts, c) && (rest != [] ==> Stops(rest[0].kind) && rest[0].kind != '|')
    ensures ParsePipe(s, i) == Ok(p, e) && i <= e <= |s| && CmdOk(s, p) && CmdOk(s, c)
    ensures exists m: nat :: m <= |s| && i <= m && Continues(s, m, [], rest) && ParseBacks(s, p, e) == ParseBacks(s, c, m)
    decreases |ts|, 3
  {
    hide GetToken, Skip, Tokens, Peek, ParsePipe, IsPipe;
    if IsPipe(ts, c) {
      e := PipeComplete(s, i, ts, c, rest);
      p := c;
    } else {
      var n := |ts| - 1;
      assert ts + rest == ts[..n] + (ts[n..] + rest);
      p, e := BacksComplete(s, i, ts[..n], c.cmd, ts[n..] + rest);
      var m: nat :| m <= |s| && i <= m && Continues(s, m, [], ts[n..] + rest) && ParseBacks(s, p, e) == ParseBacks(s, c.cmd, m);
      assert [] + (ts[n..] + rest) == ts[n..] + rest;
      Peeks(s, m);
      Reads(s, m, ts[n..], rest);
      assert ts[n..][1..] == [];
    }
  }

  lemma {:induction false} LineComplete(s: string, i: nat, ts: seq<Lex>, c: Cmd, rest: seq<Lex>) returns (j: nat)
    requires Continues(s, i, ts, rest) && IsLine(ts, c) && (rest != [] ==> rest[0].kind == ')')
    ensures ParseLine(s, i) == Ok(c, j) && Continues(s, j, [], rest) && i <= j
    decreases |ts|, 4
  {
    hide GetToken, Skip, Tokens, Peek, ParsePipe, IsBacks;
    if IsBacks(ts, c) {
      var p, e := BacksComplete(s, i, ts, c, rest);
      var m: nat :| m <= |s| && i <= m && Continues(s, m, [], rest) && ParseBacks(s, p, e) == ParseBacks(s, c, m);
      Peeks(s, m);
      TokensSkip(s, m);
      Peeks(s, Skip(s, m));
      j := Skip(s, m);
    } else {
      var k: nat :| ListAt(ts, c, k);
      assert ts + rest == ts[..k] + (ts[k..] + rest);
      var p, e := BacksComplete(s, i, ts[..k], c.left, ts[k..] + rest);
      var m: nat :| m <= |s| && i <= m && Continues(s, m, [], ts[k..] + rest) && ParseBacks(s, p, e) == ParseBacks(s, c.left, m);
      assert [] + (ts[k..] + rest) == ts[k..] + rest;
      Peeks(s, m);
      TokensSkip(s, m);
      Peeks(s, Skip(s, m));
      Reads(s, Skip(s, m), ts[k..], rest);
      assert ts[k..][1..] == ts[k + 1..];
      j := LineComplete(s, GetToken(s, Skip(s, m)).next, ts[k + 1..], c.right, rest);
    }
  }

  /** The parser accepts exactly the lines of the grammar, and returns the tree. */
  lemma ParsesIff(s: string, c: Cmd)
    requires Line(s)
    ensures ParseCmd(s) == Ok(c, |s|) <==> IsLine(Tokens(s, 0), c)
  {
    hide Tokens, ParseLine, IsLine, GetToken, Skip;
    var ts := Tokens(s, 0);
    if ParseCmd(s) == Ok(c, |s|) {
      var r := ParseLine(s, 0);
      var a := LineSound(s, 0);
      TokensSkip(s, r.next);
      NoTokens(s);
      assert a + [] == a;
    }
    if IsLine(ts, c) {
      assert ts + [] == ts;
      var j := LineComplete(s, 0, ts, c, []);
      First(s, j);
      assert At(s, Skip(s, j)) == '\0';
    }
  }

  lemma NoTokens(s: string)
    requires Line(s)
    ensures Tokens(s, |s|) == []
  {
    First(s, |s|);
  }
}

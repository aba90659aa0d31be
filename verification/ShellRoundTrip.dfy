/** Parsing undoes a fully parenthesising printer (user/sh.c). */
module ShellRoundTrip {
  import opened ShellSyntax

  /** A command with its words written out. */
  datatype Tree =
    | TExec(words: seq<string>)
    | TRedir(cmd: Tree, file: string, mode: Mode)
    | TPipe(left: Tree, right: Tree)
    | TList(left: Tree, right: Tree)
    | TBack(cmd: Tree)

  predicate WordText(w: string) { w != "" && forall k :: 0 <= k < |w| ==> WordChar(w[k]) }

  /** Words are words, and fit argv with its terminating null. */
  predicate Printable(t: Tree) {
    match t
    case TExec(ws) => |ws| < MAXARGS && forall k :: 0 <= k < |ws| ==> WordText(ws[k])
    case TRedir(c, f, _) => Printable(c) && WordText(f)
    case TPipe(l, r) => Printable(l) && Printable(r)
    case TList(l, r) => Printable(l) && Printable(r)
    case TBack(c) => Printable(c)
  }

  function Words(ws: seq<string>): (p: string) {
    if ws == [] then "" else ws[0] + (" " + Words(ws[1..]))
  }

  function Arrow(m: Mode): (p: string) {
    match m
    case Read => "<"
    case Trunc => ">"
    case Keep => ">>"
  }

  function Block(t: Tree): (p: string)
    decreases t, 1
  {
    "(" + (Print(t) + ")")
  }

  function Print(t: Tree): (p: string)
    decreases t, 0
  {
    match t
    case TExec(ws) => Words(ws)
    case TRedir(c, f, m) => Block(c) + (Arrow(m) + (f + " "))
    case TPipe(l, r) => Block(l) + ("|" + Block(r))
    case TList(l, r) => Block(l) + (";" + Block(r))
    case TBack(c) => Block(c) + "&"
  }

  /** The tree a parse stands for: its ranges read off the line. */
  function Text(s: string, c: Cmd): (t: Tree)
    requires CmdOk(s, c)
  {
    match c
    case Exec(argv) => TExec(Texts(s, argv))
    case Redir(d, q, eq, m) => TRedir(Text(s, d), s[q..eq], m)
    case Pipe(l, r) => TPipe(Text(s, l), Text(s, r))
    case List(l, r) => TList(Text(s, l), Text(s, r))
    case Back(d) => TBack(Text(s, d))
  }

  function Texts(s: string, argv: seq<(nat, nat)>): (ws: seq<string>)
    requires forall k :: 0 <= k < |argv| ==> Word(s, argv[k].0, argv[k].1)
  {
    if argv == [] then []
    else
      var w := argv[|argv| - 1];
      assert Word(s, w.0, w.1);
      Texts(s, argv[..|argv| - 1]) + [s[w.0..w.1]]
  }

  // ----- pieces of a line -----

  /** `p` stands in the line at `i`. */
  predicate Sub(s: string, i: nat, p: string) { i + |p| <= |s| && s[i..i + |p|] == p }

  lemma SubSplit(s: string, i: nat, a: string, b: string)
    requires Sub(s, i, a + b)
    ensures Sub(s, i, a) && Sub(s, i + |a|, b)
  {
    assert s[i..i + |a|] == s[i..i + |a + b|][..|a|];
    assert s[i + |a|..i + |a| + |b|] == s[i..i + |a + b|][|a|..];
  }

  lemma SubAt(s: string, i: nat, p: string, k: nat)
    requires Sub(s, i, p) && k < |p|
    ensures At(s, i + k) == p[k] && i + k < |s|
  {
    assert s[i..i + |p|][k] == p[k];
  }

  lemma {:induction false} WordEndAt(s: string, i: nat, j: nat)
    requires i <= j <= |s| && (forall k :: i <= k < j ==> WordChar(s[k])) && (j < |s| ==> Ws(s[j]) || Sym(s[j]))
    ensures WordEnd(s, i) == j
    decreases j - i
  {
    if i < j { WordEndAt(s, i + 1, j); }
  }

  /** A word followed by a blank, and then by something that is not one. */
  lemma WordToken(s: string, i: nat, w: string, j: nat)
    requires Line(s) && WordText(w) && Sub(s, i, w + " ") && j == i + |w| + 1 && !Ws(At(s, j))
    ensures i <= |s| && GetToken(s, i) == Tok('a', i, i + |w|, j) && s[i..i + |w|] == w
    ensures WordChar(At(s, i))
  {
    SubSplit(s, i, w, " ");
    SubAt(s, i, w, 0);
    SubAt(s, i + |w|, " ", 0);
    forall k | i <= k < i + |w| ensures WordChar(s[k]) { SubAt(s, i, w, k - i); }
    SkipNone(s, i);
    WordEndAt(s, i, i + |w|);
    SkipNone(s, j);
    assert Skip(s, i + |w|) == Skip(s, j);
  }

  /** A symbol other than '>'. */
  lemma SymToken(s: string, i: nat)
    requires Line(s) && i < |s| && Sym(s[i]) && s[i] != '>' && !Ws(At(s, i + 1))
    ensures GetToken(s, i) == Tok(s[i], i, i + 1, i + 1)
  {
    SkipNone(s, i);
    SkipNone(s, i + 1);
  }

  // ----- where a printed command ends -----

  /** The end of the line or of a block: nothing goes on from here. */
  predicate Ends(s: string, j: nat) { j == |s| || (j < |s| && s[j] == ')') }

  lemma EndStops(s: string, j: nat)
    requires Line(s) && Ends(s, j)
    ensures j <= |s| && Skip(s, j) == j && !Peek(s, j, "|") && !Peek(s, j, "&") && !Peek(s, j, ";")
    ensures ParseRedirs(s, j) == Files([], j)
  {
    SkipNone(s, j);
  }

  lemma NoRedirs(s: string, j: nat)
    requires Line(s) && j <= |s| && !Ws(At(s, j)) && At(s, j) != '<' && At(s, j) != '>'
    ensures ParseRedirs(s, j) == Files([], j) && Skip(s, j) == j
  {
    SkipNone(s, j);
  }

  // ----- plain commands -----

  lemma WordsStart(s: string, i: nat, ws: seq<string>)
    requires Line(s) && Sub(s, i, Words(ws)) && Ends(s, i + |Words(ws)|)
    requires forall k :: 0 <= k < |ws| ==> WordText(ws[k])
    ensures if ws == [] then Ends(s, i) else WordChar(At(s, i))
    ensures i <= |s| && !Ws(At(s, i)) && At(s, i) != '<' && At(s, i) != '>' && At(s, i) != '('
  {
    if ws != [] {
      assert WordText(ws[0]);
      SubSplit(s, i, ws[0], " " + Words(ws[1..]));
      SubAt(s, i, ws[0], 0);
    }
  }

  lemma {:induction false} ArgsRead(s: string, i: nat, ws: seq<string>, argv: seq<(nat, nat)>) returns (out: seq<(nat, nat)>)
    requires Line(s) && Sub(s, i, Words(ws)) && Ends(s, i + |Words(ws)|) && |argv| + |ws| < MAXARGS
    requires forall k :: 0 <= k < |ws| ==> WordText(ws[k])
    requires CmdOk(s, Exec(argv))
    ensures i <= |s| && ParseArgs(s, argv, [], i) == Ok(Exec(out), i + |Words(ws)|)
    ensures CmdOk(s, Exec(out)) && Texts(s, out) == Texts(s, argv) + ws
    decreases |ws|
  {
    hide Words, Skip, GetToken, ParseRedirs, ParseArgs, Sub, Texts, Word;
    WordsStart(s, i, ws);
    if ws == [] {
      out := argv;
      ArgsEnd(s, i, argv);
    } else {
      WordsCons(ws);
      var w, rest := ws[0], ws[1..];
      var j := i + |w| + 1;
      assert w + (" " + Words(rest)) == (w + " ") + Words(rest);
      SubSplit(s, i, w + " ", Words(rest));
      WordsStart(s, j, rest);
      assert WordText(w);
      WordToken(s, i, w, j);
      NoRedirs(s, j);
      ArgsStep(s, i, argv, GetToken(s, i), j);
      var more := argv + [(i, i + |w|)];
      TextsMore(s, argv, i, i + |w|);
      out := ArgsRead(s, j, rest, more);
      assert Texts(s, argv) + [w] + rest == Texts(s, argv) + ws;
    }
  }

  lemma WordsCons(ws: seq<string>)
    requires ws != []
    ensures Words(ws) == ws[0] + (" " + Words(ws[1..]))
  {
  }

  lemma ArgsEnd(s: string, i: nat, argv: seq<(nat, nat)>)
    requires Line(s) && Ends(s, i) && CmdOk(s, Exec(argv))
    ensures i <= |s| && ParseArgs(s, argv, [], i) == Ok(Exec(argv), i) && Words([]) == ""
  {
    SkipNone(s, i);
    assert Wrap(Exec(argv), []) == Exec(argv);
  }

  lemma ArgsStep(s: string, i: nat, argv: seq<(nat, nat)>, t: Tok, j: nat)
    requires Line(s) && i <= |s| && WordChar(At(s, i)) && CmdOk(s, Exec(argv)) && t == GetToken(s, i) && t.kind == 'a'
    requires |argv| + 1 < MAXARGS && ParseRedirs(s, t.next) == Files([], j) && j <= |s|
    ensures CmdOk(s, Exec(argv + [(t.q, t.eq)]))
    ensures ParseArgs(s, argv, [], i) == ParseArgs(s, argv + [(t.q, t.eq)], [], j)
  {
    hide GetToken, ParseRedirs;
    SkipNone(s, i);
    var none: seq<File> := [];
    assert FilesOk(s, none) && none + none == none;
  }

  lemma TextsMore(s: string, argv: seq<(nat, nat)>, q: nat, eq: nat)
    requires CmdOk(s, Exec(argv)) && Word(s, q, eq) && |argv| + 1 < MAXARGS
    ensures CmdOk(s, Exec(argv + [(q, eq)])) && Texts(s, argv + [(q, eq)]) == Texts(s, argv) + [s[q..eq]]
  {
    assert (argv + [(q, eq)])[..|argv|] == argv;
  }

  // ----- blocks and what follows them -----

  lemma BlockShape(s: string, i: nat, t: Tree)
    requires Sub(s, i, Block(t))
    ensures i < |s| && s[i] == '(' && Sub(s, i + 1, Print(t))
    ensures i + |Block(t)| == i + 2 + |Print(t)| <= |s| && s[i + 1 + |Print(t)|] == ')'
  {
    hide Print, Sub;
    SubSplit(s, i, "(", Print(t) + ")");
    SubSplit(s, i + 1, Print(t), ")");
    SubAt(s, i, "(", 0);
    SubAt(s, i + 1 + |Print(t)|, ")", 0);
  }

  lemma PrintStart(s: string, i: nat, t: Tree)
    requires Line(s) && Printable(t) && Sub(s, i, Print(t)) && Ends(s, i + |Print(t)|)
    ensures i <= |s| && !Ws(At(s, i))
  {
    hide Sub, Block, Words;
    match t
    case TExec(ws) => WordsStart(s, i, ws);
    case TRedir(c, f, m) =>
      SubSplit(s, i, Block(c), Arrow(m) + (f + " "));
      BlockShape(s, i, c);
    case TPipe(l, r) =>
      SubSplit(s, i, Block(l), "|" + Block(r));
      BlockShape(s, i, l);
    case TList(l, r) =>
      SubSplit(s, i, Block(l), ";" + Block(r));
      BlockShape(s, i, l);
    case TBack(c) =>
      SubSplit(s, i, Block(c), "&");
      BlockShape(s, i, c);
  }

  /** Nothing follows: the pipe and line levels add nothing. */
  lemma LineTail(s: string, i: nat, c: Cmd, e: nat)
    requires Line(s) && i <= |s| && ParseExec(s, i) == Ok(c, e) && Ends(s, e)
    ensures ParsePipe(s, i) == Ok(c, e) && ParseLine(s, i) == Ok(c, e)
  {
    hide ParseExec, Skip;
    EndStops(s, e);
  }

  lemma BlockRead(s: string, i: nat, t: Tree, j: nat) returns (c: Cmd)
    requires Line(s) && Printable(t) && Sub(s, i, Block(t)) && j == i + |Block(t)| && !Ws(At(s, j))
    ensures i <= |s| && j <= |s| && CmdOk(s, c) && Text(s, c) == t
    ensures ParseRedirs(s, j).Files? ==>
              ParseExec(s, i) == Ok(Wrap(c, ParseRedirs(s, j).list), ParseRedirs(s, j).next)
    decreases t, 2
  {
    hide Print, Block, Sub, Skip, GetToken, ParseRedirs, ParseLine, Text, Wrap;
    BlockShape(s, i, t);
    PrintStart(s, i + 1, t);
    c := LineRead(s, i + 1, t);
    SymToken(s, i);
    SymToken(s, j - 1);
    SkipNone(s, i);
    SkipNone(s, j - 1);
    if ParseRedirs(s, j).Files? { BlockParsed(s, i, c, j); }
  }

  lemma BlockParsed(s: string, i: nat, c: Cmd, j: nat)
    requires Line(s) && i + 2 <= j <= |s| && s[i] == '(' && s[j - 1] == ')' && Skip(s, i) == i && Skip(s, j - 1) == j - 1
    requires GetToken(s, i).next == i + 1 && GetToken(s, j - 1).next == j && ParseLine(s, i + 1) == Ok(c, j - 1)
    requires ParseRedirs(s, j).Files?
    ensures ParseExec(s, i) == Ok(Wrap(c, ParseRedirs(s, j).list), ParseRedirs(s, j).next)
  {
    hide Skip, GetToken, ParseRedirs, ParseLine, Wrap;
  }

  /** A block that nothing is redirected from. */
  lemma PlainBlock(s: string, i: nat, t: Tree, j: nat) returns (c: Cmd)
    requires Line(s) && Printable(t) && Sub(s, i, Block(t)) && j == i + |Block(t)|
    requires !Ws(At(s, j)) && At(s, j) != '<' && At(s, j) != '>'
    ensures i <= |s| && j <= |s| && CmdOk(s, c) && Text(s, c) == t && ParseExec(s, i) == Ok(c, j) && Skip(s, j) == j
    decreases t, 3
  {
    hide Block, Sub, Skip, ParseRedirs, ParseExec, Text;
    c := BlockRead(s, i, t, j);
    NoRedirs(s, j);
  }

  // ----- the round trip -----

  lemma LineRead(s: string, i: nat, t: Tree) returns (c: Cmd)
    requires Line(s) && Printable(t) && Sub(s, i, Print(t)) && Ends(s, i + |Print(t)|)
    ensures i <= |s| && ParseLine(s, i) == Ok(c, i + |Print(t)|) && CmdOk(s, c) && Text(s, c) == t
    decreases t, 1
  {
    hide Print, Block, Sub, Skip, GetToken, ParseRedirs, ParseLine, ParseExec, Ends, Words;
    match t
    case TExec(ws) => c := ExecRead(s, i, t, ws);
    case TRedir(d, f, m) => c := RedirRead(s, i, t, d, f, m);
    case TPipe(l, r) => c := PipeRead(s, i, t, l, r);
    case TList(l, r) => c := ListRead(s, i, t, l, r);
    case TBack(d) => c := BackRead(s, i, t, d);
  }

  lemma ExecRead(s: string, i: nat, t: Tree, ws: seq<string>) returns (c: Cmd)
    requires Line(s) && Printable(t) && Sub(s, i, Print(t)) && Ends(s, i + |Print(t)|) && t == TExec(ws)
    ensures i <= |s| && ParseLine(s, i) == Ok(c, i + |Print(t)|) && CmdOk(s, c) && Text(s, c) == t
    decreases t, 0
  {
    hide Sub, Skip, Words, ParseArgs, ParseRedirs, ParseLine, Texts;
    WordsStart(s, i, ws);
    NoRedirs(s, i);
    var none: seq<(nat, nat)> := [];
    var argv := ArgsRead(s, i, ws, none);
    c := Exec(argv);
    assert Texts(s, none) == [] by { NoTexts(s, none); }
    LineTail(s, i, c, i + |Words(ws)|);
  }

  lemma NoTexts(s: string, argv: seq<(nat, nat)>)
    requires argv == []
    ensures Texts(s, argv) == []
  {
  }

  lemma PipeRead(s: string, i: nat, t: Tree, l: Tree, r: Tree) returns (c: Cmd)
    requires Line(s) && Printable(t) && Sub(s, i, Print(t)) && Ends(s, i + |Print(t)|) && t == TPipe(l, r)
    ensures i <= |s| && ParseLine(s, i) == Ok(c, i + |Print(t)|) && CmdOk(s, c) && Text(s, c) == t
    decreases t, 0
  {
    hide Block, Sub, Skip, GetToken, ParseExec, Text, ParsePipe;
    var j, e := i + |Block(l)|, i + |Print(t)|;
    SubSplit(s, i, Block(l), "|" + Block(r));
    SubSplit(s, j, "|", Block(r));
    SubAt(s, j, "|", 0);
    BlockShape(s, j + 1, r);
    var a := PlainBlock(s, i, l, j);
    var b := PlainBlock(s, j + 1, r, e);
    SymToken(s, j);
    LineTail(s, j + 1, b, e);
    c := Pipe(a, b);
    assert Text(s, c) == t by { PipeText(s, a, b); }
    PipeParsed(s, i, a, j, b, e);
  }

  lemma PipeText(s: string, a: Cmd, b: Cmd)
    requires CmdOk(s, a) && CmdOk(s, b)
    ensures Text(s, Pipe(a, b)) == TPipe(Text(s, a), Text(s, b)) && Text(s, List(a, b)) == TList(Text(s, a), Text(s, b))
    ensures Text(s, Back(a)) == TBack(Text(s, a))
  {
  }

  lemma PipeParsed(s: string, i: nat, a: Cmd, j: nat, b: Cmd, e: nat)
    requires Line(s) && i <= |s| && j < |s| && s[j] == '|' && Skip(s, j) == j && GetToken(s, j).next == j + 1 && Ends(s, e)
    requires ParseExec(s, i) == Ok(a, j) && ParsePipe(s, j + 1) == Ok(b, e)
    ensures ParseLine(s, i) == Ok(Pipe(a, b), e)
  {
    hide Skip, GetToken, ParseExec;
    EndStops(s, e);
  }

  lemma ListRead(s: string, i: nat, t: Tree, l: Tree, r: Tree) returns (c: Cmd)
    requires Line(s) && Printable(t) && Sub(s, i, Print(t)) && Ends(s, i + |Print(t)|) && t == TList(l, r)
    ensures i <= |s| && ParseLine(s, i) == Ok(c, i + |Print(t)|) && CmdOk(s, c) && Text(s, c) == t
    decreases t, 0
  {
    hide Block, Sub, Skip, GetToken, ParseExec, Text, ParsePipe, ParseLine;
    var j, e := i + |Block(l)|, i + |Print(t)|;
    SubSplit(s, i, Block(l), ";" + Block(r));
    SubSplit(s, j, ";", Block(r));
    SubAt(s, j, ";", 0);
    BlockShape(s, j + 1, r);
    var a := PlainBlock(s, i, l, j);
    var b := PlainBlock(s, j + 1, r, e);
    SymToken(s, j);
    LineTail(s, j + 1, b, e);
    c := List(a, b);
    assert Text(s, c) == t by { PipeText(s, a, b); }
    ListParsed(s, i, a, j, b, e);
  }

  lemma ListParsed(s: string, i: nat, a: Cmd, j: nat, b: Cmd, e: nat)
    requires Line(s) && i <= |s| && j < |s| && s[j] == ';' && Skip(s, j) == j && GetToken(s, j).next == j + 1
    requires ParseExec(s, i) == Ok(a, j) && ParseLine(s, j + 1) == Ok(b, e)
    ensures ParseLine(s, i) == Ok(List(a, b), e)
  {
    hide Skip, GetToken, ParseExec;
    assert ParsePipe(s, i) == Ok(a, j);
    assert ParseBacks(s, a, j) == (a, j);
  }

  lemma BackRead(s: string, i: nat, t: Tree, d: Tree) returns (c: Cmd)
    requires Line(s) && Printable(t) && Sub(s, i, Print(t)) && Ends(s, i + |Print(t)|) && t == TBack(d)
    ensures i <= |s| && ParseLine(s, i) == Ok(c, i + |Print(t)|) && CmdOk(s, c) && Text(s, c) == t
    decreases t, 0
  {
    hide Block, Sub, Skip, GetToken, ParseExec, Text, ParsePipe, ParseLine;
    var j, e := i + |Block(d)|, i + |Print(t)|;
    SubSplit(s, i, Block(d), "&");
    SubAt(s, j, "&", 0);
    var a := PlainBlock(s, i, d, j);
    SymToken(s, j);
    c := Back(a);
    assert Text(s, c) == t by { PipeText(s, a, a); }
    BackParsed(s, i, a, j);
  }

  lemma BackParsed(s: string, i: nat, a: Cmd, j: nat)
    requires Line(s) && i <= |s| && j < |s| && s[j] == '&' && Skip(s, j) == j && GetToken(s, j).next == j + 1
    requires ParseExec(s, i) == Ok(a, j) && Ends(s, j + 1)
    ensures ParseLine(s, i) == Ok(Back(a), j + 1)
  {
    hide Skip, GetToken, ParseExec;
    EndStops(s, j + 1);
    assert ParsePipe(s, i) == Ok(a, j);
    assert ParseBacks(s, Back(a), j + 1) == (Back(a), j + 1);
  }

  lemma ArrowToken(s: string, j: nat, m: Mode, k: nat)
    requires Line(s) && Sub(s, j, Arrow(m)) && k == j + |Arrow(m)| && WordChar(At(s, k))
    ensures j < |s| && k <= |s| && Skip(s, j) == j && Peek(s, j, "<>")
    ensures GetToken(s, j).next == k && ModeOf(GetToken(s, j).kind) == m
  {
    SubAt(s, j, Arrow(m), 0);
    SubAt(s, j, Arrow(m), |Arrow(m)| - 1);
    SkipNone(s, j);
    SkipNone(s, k);
  }

  lemma OneRedir(s: string, j: nat, m: Mode, k: nat, n: nat, e: nat)
    requires Line(s) && j <= |s| && k <= |s| && Peek(s, j, "<>") && GetToken(s, j).next == k && ModeOf(GetToken(s, j).kind) == m
    requires GetToken(s, k) == Tok('a', k, n, e) && e <= |s| && ParseRedirs(s, e) == Files([], e)
    ensures ParseRedirs(s, j) == Files([File(k, n, m)], e)
  {
    hide GetToken, Skip, Peek;
    var none: seq<File> := [];
    assert [File(k, n, m)] + none == [File(k, n, m)];
  }

  lemma RedirRead(s: string, i: nat, t: Tree, d: Tree, f: string, m: Mode) returns (c: Cmd)
    requires Line(s) && Printable(t) && Sub(s, i, Print(t)) && Ends(s, i + |Print(t)|) && t == TRedir(d, f, m)
    ensures i <= |s| && ParseLine(s, i) == Ok(c, i + |Print(t)|) && CmdOk(s, c) && Text(s, c) == t
    decreases t, 0
  {
    hide Block, Sub, Skip, GetToken, ParseExec, ParseLine, ParseRedirs, Peek, Arrow;
    var j, e := i + |Block(d)|, i + |Print(t)|;
    var k := j + |Arrow(m)|;
    SubSplit(s, i, Block(d), Arrow(m) + (f + " "));
    SubSplit(s, j, Arrow(m), f + " ");
    EndStops(s, e);
    WordToken(s, k, f, e);
    ArrowToken(s, j, m, k);
    OneRedir(s, j, m, k, k + |f|, e);
    ArrowNotBlank(s, j);
    var a := BlockRead(s, i, d, j);
    c := Redir(a, k, k + |f|, m);
    assert Wrap(a, [File(k, k + |f|, m)]) == c;
    LineTail(s, i, c, e);
  }

  lemma ArrowNotBlank(s: string, j: nat)
    requires j < |s| && Skip(s, j) == j && Peek(s, j, "<>")
    ensures !Ws(At(s, j))
  {
  }

  lemma {:induction false} PrintLine(t: Tree)
    requires Printable(t)
    ensures Line(Print(t))
    decreases t
  {
    match t
    case TExec(ws) => WordsLine(ws);
    case TRedir(c, f, m) => PrintLine(c);
    case TPipe(l, r) => PrintLine(l); PrintLine(r);
    case TList(l, r) => PrintLine(l); PrintLine(r);
    case TBack(c) => PrintLine(c);
  }

  lemma {:induction false} WordsLine(ws: seq<string>)
    requires forall k :: 0 <= k < |ws| ==> WordText(ws[k])
    ensures Line(Words(ws))
  {
    if ws != [] {
      assert WordText(ws[0]);
      WordsLine(ws[1..]);
    }
  }

  /** parsecmd is a left inverse of the printer. */
  lemma RoundTrip(t: Tree)
    requires Printable(t)
    ensures Line(Print(t)) && ParseCmd(Print(t)).Ok? && Text(Print(t), ParseCmd(Print(t)).cmd) == t
  {
    hide Print, ParseLine, Text;
    PrintLine(t);
    var s := Print(t);
    var c := LineRead(s, 0, t);
    SkipNone(s, |s|);
  }

  lemma {:induction false} TextsWords(s: string, argv: seq<(nat, nat)>, k: nat)
    requires (forall j :: 0 <= j < |argv| ==> Word(s, argv[j].0, argv[j].1)) && k < |argv|
    ensures |Texts(s, argv)| == |argv| && Texts(s, argv)[k] == s[argv[k].0..argv[k].1] && WordText(Texts(s, argv)[k])
  {
    hide WordChar;
    var n := |argv| - 1;
    assert Word(s, argv[k].0, argv[k].1) && Word(s, argv[n].0, argv[n].1);
    if k < n { TextsWords(s, argv[..n], k); } else if n > 0 { TextsWords(s, argv[..n], 0); }
  }

  lemma {:induction false} TextPrintable(s: string, c: Cmd)
    requires CmdOk(s, c)
    ensures Printable(Text(s, c))
  {
    hide Word, WordText;
    match c
    case Exec(argv) =>
      if argv != [] { TextsWords(s, argv, 0); }
      forall k | 0 <= k < |argv| ensures |Texts(s, argv)| == |argv| && WordText(Texts(s, argv)[k]) { TextsWords(s, argv, k); }
    case Redir(d, q, eq, _) => TextPrintable(s, d); RangeText(s, q, eq);
    case Pipe(l, r) => TextPrintable(s, l); TextPrintable(s, r);
    case List(l, r) => TextPrintable(s, l); TextPrintable(s, r);
    case Back(d) => TextPrintable(s, d);
  }

  lemma RangeText(s: string, q: nat, eq: nat)
    requires Word(s, q, eq)
    ensures q <= eq <= |s| && WordText(s[q..eq])
  {
    hide WordChar;
  }

  /** Every line the parser accepts has a fully parenthesised form that it reads as
      the same tree. */
  lemma NormalForm(s: string)
    requires Line(s) && ParseCmd(s).Ok?
    ensures var t := Text(s, ParseCmd(s).cmd);
            Printable(t) && Line(Print(t)) && ParseCmd(Print(t)).Ok? && Text(Print(t), ParseCmd(Print(t)).cmd) == t
  {
    hide Print, ParseLine, Text, CmdOk, Printable, ParseCmd;
    TextPrintable(s, ParseCmd(s).cmd);
    RoundTrip(Text(s, ParseCmd(s).cmd));
  }
}

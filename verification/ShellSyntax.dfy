/** The grammar of user/sh.c as functions on the input line, with the cursor as an
    index. A line has no NUL; past its end every read gives NUL. */
module ShellSyntax {

  const MAXARGS: nat := 10

  predicate Ws(c: char) { c == ' ' || c == '\t' || c == '\r' || c == '\n' || c == '\U{0b}' }

  predicate Sym(c: char) { c == '<' || c == '|' || c == '>' || c == '&' || c == ';' || c == '(' || c == ')' }

  /** A character gettoken takes into a word. */
  predicate WordChar(c: char) { !Ws(c) && !Sym(c) && c != '\0' }

  predicate Line(s: string) { forall k :: 0 <= k < |s| ==> s[k] != '\0' }

  function At(s: string, i: nat): (c: char) { if i < |s| then s[i] else '\0' }

  /** How a redirected file is opened: `<`, `>`, and `>>`, which truncates nothing. */
  datatype Mode = Read | Trunc | Keep

  /** Words and file names are ranges of the line. */
  datatype Cmd =
    | Exec(argv: seq<(nat, nat)>)
    | Redir(cmd: Cmd, q: nat, eq: nat, mode: Mode)
    | Pipe(left: Cmd, right: Cmd)
    | List(left: Cmd, right: Cmd)
    | Back(cmd: Cmd)

  // ----- tokens -----

  function Skip(s: string, i: nat): (j: nat)
    requires i <= |s|
    ensures i <= j <= |s| && !Ws(At(s, j)) && (forall k :: i <= k < j ==> Ws(s[k]))
    decreases |s| - i
  {
    if i < |s| && Ws(s[i]) then Skip(s, i + 1) else i
  }

  function WordEnd(s: string, i: nat): (j: nat)
    requires i <= |s|
    ensures i <= j <= |s| && (j < |s| ==> Ws(s[j]) || Sym(s[j])) && (forall k :: i <= k < j ==> !Ws(s[k]) && !Sym(s[k]))
    decreases |s| - i
  {
    if i < |s| && !Ws(s[i]) && !Sym(s[i]) then WordEnd(s, i + 1) else i
  }

  /** A token's kind ('a' a word, '+' for >>, NUL the end), its range, and where the
      cursor is left. */
  datatype Tok = Tok(kind: char, q: nat, eq: nat, next: nat)

  function GetToken(s: string, i: nat): (t: Tok)
    requires i <= |s| && Line(s)
    ensures i <= t.q <= t.eq <= t.next <= |s| && (t.kind != '\0' ==> t.q < t.eq)
    ensures t.kind == '\0' <==> At(s, Skip(s, i)) == '\0'
    ensures t.kind == 'a' ==> Word(s, t.q, t.eq)
  {
    var q := Skip(s, i);
    var c := At(s, q);
    var kind := if c == '>' && At(s, q + 1) == '>' then '+' else if c == '\0' || Sym(c) then c else 'a';
    var eq := if kind == '\0' then q else if kind == '+' then q + 2 else if Sym(c) then q + 1 else WordEnd(s, q);
    Tok(kind, q, eq, Skip(s, eq))
  }

  /** A non-empty run of word characters that ends at a character of another kind. */
  predicate Word(s: string, q: nat, eq: nat) {
    q < eq <= |s| && !WordChar(At(s, eq)) && forall k :: q <= k < eq ==> WordChar(s[k])
  }

  /** peek: whether the next character is one of `toks`. */
  predicate Peek(s: string, i: nat, toks: string)
    requires i <= |s|
  {
    At(s, Skip(s, i)) != '\0' && At(s, Skip(s, i)) in toks
  }

  lemma SkipNone(s: string, i: nat)
    requires i <= |s| && !Ws(At(s, i))
    ensures Skip(s, i) == i
  {
  }

  lemma SkipTwice(s: string, i: nat)
    requires i <= |s|
    ensures Skip(s, Skip(s, i)) == Skip(s, i)
  {
    SkipNone(s, Skip(s, i));
  }

  /** Blanks before the cursor make no difference to a token. */
  lemma TokenSkip(s: string, i: nat)
    requires Line(s) && i <= |s|
    ensures Skip(s, Skip(s, i)) == Skip(s, i) && GetToken(s, Skip(s, i)) == GetToken(s, i)
  {
    hide Skip, WordEnd;
    SkipTwice(s, i);
  }

  lemma PeekSkip(s: string, i: nat, toks: string)
    requires i <= |s|
    ensures Peek(s, Skip(s, i), toks) == Peek(s, i, toks)
  {
    hide Skip;
    SkipTwice(s, i);
  }

  // ----- redirections -----

  datatype File = File(q: nat, eq: nat, mode: Mode)

  datatype Files = Files(list: seq<File>, next: nat) | NoFile

  function ModeOf(kind: char): (m: Mode) { if kind == '<' then Read else if kind == '>' then Trunc else Keep }

  /** parseredirs, as the list of redirections it reads. */
  function ParseRedirs(s: string, i: nat): (r: Files)
    requires i <= |s| && Line(s)
    ensures r.Files? ==> i <= r.next <= |s| && FilesOk(s, r.list)
    decreases |s| - i
  {
    if Peek(s, i, "<>") then
      var t := GetToken(s, i);
      var u := GetToken(s, t.next);
      if u.kind != 'a' then NoFile
      else
        match ParseRedirs(s, u.next)
        case Files(list, next) => Files([File(u.q, u.eq, ModeOf(t.kind))] + list, next)
        case NoFile => NoFile
    else Files([], Skip(s, i))
  }

  /** redircmd for each, the first innermost. */
  function Wrap(cmd: Cmd, fs: seq<File>): (r: Cmd)
    decreases |fs|
  {
    if fs == [] then cmd else Wrap(Redir(cmd, fs[0].q, fs[0].eq, fs[0].mode), fs[1..])
  }

  predicate FilesOk(s: string, fs: seq<File>) { forall k :: 0 <= k < |fs| ==> Word(s, fs[k].q, fs[k].eq) }

  /** Every range in the tree is a word of the line, and argv has room for its
      words and the null after them. */
  predicate CmdOk(s: string, c: Cmd) {
    match c
    case Exec(argv) => |argv| < MAXARGS && forall k :: 0 <= k < |argv| ==> Word(s, argv[k].0, argv[k].1)
    case Redir(d, q, eq, _) => CmdOk(s, d) && Word(s, q, eq)
    case Pipe(l, r) => CmdOk(s, l) && CmdOk(s, r)
    case List(l, r) => CmdOk(s, l) && CmdOk(s, r)
    case Back(d) => CmdOk(s, d)
  }

  lemma {:induction false} WrapOk(s: string, c: Cmd, fs: seq<File>)
    requires CmdOk(s, c) && FilesOk(s, fs)
    ensures CmdOk(s, Wrap(c, fs))
    decreases |fs|
  {
    if fs != [] {
      assert Word(s, fs[0].q, fs[0].eq);
      WrapOk(s, Redir(c, fs[0].q, fs[0].eq, fs[0].mode), fs[1..]);
    }
  }

  // ----- commands -----

  datatype Res = Ok(cmd: Cmd, next: nat) | Panic

  /** parseexec's loop over arguments and redirections. */
  function ParseArgs(s: string, argv: seq<(nat, nat)>, fs: seq<File>, i: nat): (r: Res)
    requires i <= |s| && Line(s) && CmdOk(s, Exec(argv)) && FilesOk(s, fs)
    ensures r.Ok? ==> i <= r.next <= |s| && CmdOk(s, r.cmd)
    decreases |s| - i
  {
    WrapOk(s, Exec(argv), fs);
    if Peek(s, i, "|)&;") then Ok(Wrap(Exec(argv), fs), Skip(s, i))
    else
      var t := GetToken(s, i);
      if t.kind == '\0' then Ok(Wrap(Exec(argv), fs), t.next)
      else if t.kind != 'a' || |argv| + 1 >= MAXARGS then Panic
      else
        match ParseRedirs(s, t.next)
        case Files(list, next) => ParseArgs(s, argv + [(t.q, t.eq)], fs + list, next)
        case NoFile => Panic
  }

  function ParseExec(s: string, i: nat): (r: Res)
    requires i <= |s| && Line(s)
    ensures r.Ok? ==> i <= r.next <= |s| && CmdOk(s, r.cmd)
    decreases |s| - i, 1
  {
    if Peek(s, i, "(") then ParseBlock(s, Skip(s, i))
    else
      match ParseRedirs(s, i)
      case Files(list, next) => ParseArgs(s, [], list, next)
      case NoFile => Panic
  }

  function ParseBlock(s: string, i: nat): (r: Res)
    requires i <= |s| && Line(s) && At(s, i) == '('
    ensures r.Ok? ==> i <= r.next <= |s| && CmdOk(s, r.cmd)
    decreases |s| - i, 0
  {
    match ParseLine(s, GetToken(s, i).next)
    case Panic => Panic
    case Ok(cmd, k) =>
      if !Peek(s, k, ")") then Panic
      else
        match ParseRedirs(s, GetToken(s, k).next)
        case Files(list, next) => WrapOk(s, cmd, list); Ok(Wrap(cmd, list), next)
        case NoFile => Panic
  }

  function ParsePipe(s: string, i: nat): (r: Res)
    requires i <= |s| && Line(s)
    ensures r.Ok? ==> i <= r.next <= |s| && CmdOk(s, r.cmd)
    decreases |s| - i, 2
  {
    match ParseExec(s, i)
    case Panic => Panic
    case Ok(cmd, k) =>
      if !Peek(s, k, "|") then Ok(cmd, Skip(s, k))
      else
        match ParsePipe(s, GetToken(s, k).next)
        case Ok(right, next) => Ok(Pipe(cmd, right), next)
        case Panic => Panic
  }

  /** parseline's loop over '&'. */
  function ParseBacks(s: string, cmd: Cmd, i: nat): (r: (Cmd, nat))
    requires i <= |s| && Line(s) && CmdOk(s, cmd)
    ensures i <= r.1 <= |s| && CmdOk(s, r.0)
    decreases |s| - i
  {
    if Peek(s, i, "&") then ParseBacks(s, Back(cmd), GetToken(s, i).next) else (cmd, Skip(s, i))
  }

  function ParseLine(s: string, i: nat): (r: Res)
    requires i <= |s| && Line(s)
    ensures r.Ok? ==> i <= r.next <= |s| && CmdOk(s, r.cmd)
    decreases |s| - i, 3
  {
    match ParsePipe(s, i)
    case Panic => Panic
    case Ok(cmd, k) =>
      var b := ParseBacks(s, cmd, k);
      if !Peek(s, b.1, ";") then Ok(b.0, Skip(s, b.1))
      else
        match ParseLine(s, GetToken(s, b.1).next)
        case Ok(right, next) => Ok(List(b.0, right), next)
        case Panic => Panic
  }

  function ParseCmd(s: string): (r: Res)
    requires Line(s)
    ensures r.Ok? ==> CmdOk(s, r.cmd)
  {
    match ParseLine(s, 0)
    case Panic => Panic
    case Ok(cmd, k) => if Skip(s, k) == |s| then Ok(cmd, |s|) else Panic
  }
}

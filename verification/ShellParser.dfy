/** The parser of user/sh.c: loops that move a cursor along the line, and
    nulterminate, which writes into the line's buffer. */
module ShellParser {
  import opened ShellSyntax
  import opened ShellRoundTrip
  import Grammar = ShellGrammar

  /** The outcome of parsing redirections onto `fs`. */
  function Onto(fs: seq<File>, r: Files): (t: Files) {
    match r
    case Files(list, next) => Files(fs + list, next)
    case NoFile => NoFile
  }

  /** A method that returns ok == false has panicked. */
  class Parser {
    const s: string
    var ps: nat

    ghost predicate Valid()
      reads this
    {
      Line(s) && ps <= |s|
    }

    constructor (line: string)
      requires Line(line)
      ensures Valid() && s == line && ps == 0
    {
      s, ps := line, 0;
    }

    method SkipSpace()
      requires Valid()
      modifies this
      ensures Valid() && ps == Skip(s, old(ps))
    {
      while ps < |s| && Ws(s[ps])
        invariant ps <= |s| && Skip(s, ps) == Skip(s, old(ps))
      {
        ps := ps + 1;
      }
    }

    method PeekAt(toks: string) returns (r: bool)
      requires Valid()
      modifies this
      ensures Valid() && ps == Skip(s, old(ps)) && r == Peek(s, old(ps), toks)
    {
      SkipSpace();
      r := At(s, ps) != '\0' && At(s, ps) in toks;
    }

    method NextToken() returns (t: Tok)
      requires Valid()
      modifies this
      ensures Valid() && t == GetToken(s, old(ps)) && ps == t.next
    {
      SkipSpace();
      var q := ps;
      var kind := At(s, ps);
      if kind == '\0' {
      } else if kind == '>' {
        ps := ps + 1;
        if At(s, ps) == '>' {
          kind := '+';
          ps := ps + 1;
        }
      } else if Sym(kind) {
        ps := ps + 1;
      } else {
        kind := 'a';
        while ps < |s| && !Ws(s[ps]) && !Sym(s[ps])
          invariant q <= ps <= |s| && WordEnd(s, ps) == WordEnd(s, q)
        {
          ps := ps + 1;
        }
      }
      var eq := ps;
      SkipSpace();
      t := Tok(kind, q, eq, ps);
    }

    /** parseredirs, adding to the redirections `fs` read so far. */
    method Redirections(fs: seq<File>) returns (ok: bool, out: seq<File>)
      requires Valid()
      modifies this
      ensures Valid() && ok == ParseRedirs(s, old(ps)).Files?
      ensures ok ==> Files(out, ps) == Onto(fs, ParseRedirs(s, old(ps)))
    {
      hide GetToken, Skip, Line, Peek, Word, FilesOk;
      out := fs;
      var more := PeekAt("<>");
      RedirsSkip(s, old(ps));
      PeekSkip(s, old(ps), "<>");
      while more
        invariant Valid() && more == Peek(s, ps, "<>") && Skip(s, ps) == ps
        invariant Onto(out, ParseRedirs(s, ps)) == Onto(fs, ParseRedirs(s, old(ps)))
        decreases |s| - ps
      {
        PeekToken(s, ps, "<>");
        var t := NextToken();
        var u := NextToken();
        if u.kind != 'a' { return false, out; }
        OntoNext(out, File(u.q, u.eq, ModeOf(t.kind)), ParseRedirs(s, u.next));
        out := out + [File(u.q, u.eq, ModeOf(t.kind))];
        ghost var i := ps;
        more := PeekAt("<>");
        RedirsSkip(s, i);
        PeekSkip(s, i, "<>");
      }
      return true, out;
    }

    /** parseexec after the test for a block. The EXEC node and its redirections
        are put together at the end. */
    method Simple() returns (ok: bool, cmd: Cmd)
      requires Valid()
      modifies this
      ensures Valid()
      ensures (if ok then Ok(cmd, ps) else Panic) ==
              match ParseRedirs(s, old(ps)) case Files(list, next) => ParseArgs(s, [], list, next) case NoFile => Panic
    {
      hide GetToken, Skip, ParseRedirs, Wrap;
      var argv: seq<(nat, nat)> := [];
      var fs;
      cmd := Exec([]);
      OntoNone(ParseRedirs(s, ps));
      ok, fs := Redirections([]);
      if !ok { return; }
      ghost var goal := ParseArgs(s, argv, fs, ps);
      ghost var i := ps;
      var stop := PeekAt("|)&;");
      ArgsSkip(s, argv, fs, i);
      while !stop
        invariant Valid() && stop == Peek(s, ps, "|)&;") && Skip(s, ps) == ps
        invariant CmdOk(s, Exec(argv)) && FilesOk(s, fs) && ParseArgs(s, argv, fs, ps) == goal
        decreases |s| - ps
      {
        var t := NextToken();
        if t.kind == '\0' { break; }
        if t.kind != 'a' { return false, cmd; }
        if |argv| + 1 >= MAXARGS { return false, cmd; }
        argv := argv + [(t.q, t.eq)];
        ok, fs := Redirections(fs);
        if !ok { return; }
        i := ps;
        stop := PeekAt("|)&;");
        ArgsSkip(s, argv, fs, i);
      }
      return true, Wrap(Exec(argv), fs);
    }

    method Execute() returns (ok: bool, cmd: Cmd)
      requires Valid()
      modifies this
      ensures Valid() && (if ok then Ok(cmd, ps) else Panic) == ParseExec(s, old(ps))
      decreases |s| - ps, 1
    {
      hide GetToken, Skip, ParseRedirs, ParseArgs, ParseBlock;
      ghost var i := ps;
      var block := PeekAt("(");
      RedirsSkip(s, i);
      if block { ok, cmd := BlockCmd(); } else { ok, cmd := Simple(); }
    }

    method BlockCmd() returns (ok: bool, cmd: Cmd)
      requires Valid() && At(s, ps) == '('
      modifies this
      ensures Valid() && (if ok then Ok(cmd, ps) else Panic) == ParseBlock(s, old(ps))
      decreases |s| - ps, 0
    {
      hide GetToken, Skip, ParseRedirs, ParseLine;
      var t := NextToken();
      ok, cmd := LineCmd();
      if !ok { return; }
      ghost var k := ps;
      var close := PeekAt(")");
      if !close { return false, cmd; }
      TokenSkip(s, k);
      t := NextToken();
      var fs;
      OntoNone(ParseRedirs(s, ps));
      ok, fs := Redirections([]);
      if ok { cmd := Wrap(cmd, fs); }
    }

    method PipeCmd() returns (ok: bool, cmd: Cmd)
      requires Valid()
      modifies this
      ensures Valid() && (if ok then Ok(cmd, ps) else Panic) == ParsePipe(s, old(ps))
      decreases |s| - ps, 2
    {
      hide GetToken, Skip, ParseExec;
      ok, cmd := Execute();
      if !ok { return; }
      ghost var k := ps;
      var bar := PeekAt("|");
      TokenSkip(s, k);
      if bar {
        var t := NextToken();
        var right;
        ok, right := PipeCmd();
        cmd := Pipe(cmd, right);
      }
    }

    method LineCmd() returns (ok: bool, cmd: Cmd)
      requires Valid()
      modifies this
      ensures Valid() && (if ok then Ok(cmd, ps) else Panic) == ParseLine(s, old(ps))
      decreases |s| - ps, 3
    {
      hide GetToken, Skip, ParsePipe;
      ok, cmd := PipeCmd();
      if !ok { return; }
      cmd := Backs(cmd);
      ghost var k := ps;
      var semi := PeekAt(";");
      TokenSkip(s, k);
      if semi {
        var t := NextToken();
        var right;
        ok, right := LineCmd();
        cmd := List(cmd, right);
      }
    }

    /** parseline's loop: each '&' puts the command so far in the background. */
    method Backs(c: Cmd) returns (cmd: Cmd)
      requires Valid() && CmdOk(s, c)
      modifies this
      ensures Valid() && ps >= old(ps) && (cmd, ps) == ParseBacks(s, c, old(ps))
    {
      hide GetToken, Skip;
      cmd := c;
      ghost var i := ps;
      var amp := PeekAt("&");
      BacksSkip(s, cmd, i);
      while amp
        invariant Valid() && ps >= old(ps) && CmdOk(s, cmd) && amp == Peek(s, ps, "&") && Skip(s, ps) == ps
        invariant ParseBacks(s, cmd, ps) == ParseBacks(s, c, old(ps))
        decreases |s| - ps
      {
        var t := NextToken();
        cmd := Back(cmd);
        i := ps;
        amp := PeekAt("&");
        BacksSkip(s, cmd, i);
      }
    }

    /** parsecmd, with the line's NUL-terminated buffer: the tree the grammar gives
        the line, or a panic if it gives none. */
    method Command(buf: array<char>) returns (ok: bool, cmd: Cmd)
      requires Valid() && ps == 0 && buf[..] == s + ['\0']
      modifies this, buf
      ensures (if ok then Ok(cmd, |s|) else Panic) == ParseCmd(s)
      ensures if ok then Grammar.IsLine(Grammar.Tokens(s, 0), cmd) else forall c :: !Grammar.IsLine(Grammar.Tokens(s, 0), c)
      ensures ok ==> EndsIn(cmd, |s| + 1) && buf[..] == Terminated(s + ['\0'], cmd)
      ensures ok ==> forall q: nat, eq: nat :: HasRange(cmd, q, eq) ==> q < eq <= |s| && CString(buf[..], q) == s[q..eq]
    {
      hide Skip, ParseLine, CmdOk, Terminated, EndsIn, HasRange, CString;
      ok, cmd := LineCmd();
      forall c ensures ParseCmd(s) == Ok(c, |s|) <==> Grammar.IsLine(Grammar.Tokens(s, 0), c) { Grammar.ParsesIff(s, c); }
      if !ok { return; }
      SkipSpace();
      if ps != |s| { return false, cmd; }
      EndsInside(s, cmd);
      Nulterminate(buf, cmd);
      forall q: nat, eq: nat | HasRange(cmd, q, eq) ensures q < eq <= |s| && CString(buf[..], q) == s[q..eq] {
        WordsTerminated(s, cmd, buf[..], q, eq);
      }
    }
  }

  // ----- nulterminate -----

  /** The buffer after every word's end is overwritten with NUL. */
  function Terminated(b: seq<char>, c: Cmd): (r: seq<char>)
    requires EndsIn(c, |b|)
    ensures |r| == |b|
    decreases c
  {
    match c
    case Exec(argv) => Stopped(b, argv)
    case Redir(d, _, eq, _) => Terminated(b, d)[eq := '\0']
    case Pipe(l, r) => Terminated(Terminated(b, l), r)
    case List(l, r) => Terminated(Terminated(b, l), r)
    case Back(d) => Terminated(b, d)
  }

  function Stopped(b: seq<char>, argv: seq<(nat, nat)>): (r: seq<char>)
    requires forall k :: 0 <= k < |argv| ==> argv[k].1 < |b|
    ensures |r| == |b|
  {
    if argv == [] then b else Stopped(b, argv[..|argv| - 1])[argv[|argv| - 1].1 := '\0']
  }

  /** Every end lies in a buffer of length n. */
  predicate EndsIn(c: Cmd, n: nat) {
    match c
    case Exec(argv) => forall k :: 0 <= k < |argv| ==> argv[k].1 < n
    case Redir(d, _, eq, _) => EndsIn(d, n) && eq < n
    case Pipe(l, r) => EndsIn(l, n) && EndsIn(r, n)
    case List(l, r) => EndsIn(l, n) && EndsIn(r, n)
    case Back(d) => EndsIn(d, n)
  }

  method Nulterminate(buf: array<char>, c: Cmd)
    requires EndsIn(c, buf.Length)
    modifies buf
    ensures buf[..] == Terminated(old(buf[..]), c)
    decreases c
  {
    match c
    case Exec(argv) =>
      var i := 0;
      assert argv[..0] == [];
      while i < |argv|
        invariant 0 <= i <= |argv| && buf[..] == Stopped(old(buf[..]), argv[..i])
      {
        assert argv[..i + 1][..i] == argv[..i];
        buf[argv[i].1] := '\0';
        i := i + 1;
      }
      assert argv[..i] == argv;
    case Redir(d, _, eq, _) =>
      Nulterminate(buf, d);
      buf[eq] := '\0';
    case Pipe(l, r) =>
      Nulterminate(buf, l);
      Nulterminate(buf, r);
    case List(l, r) =>
      Nulterminate(buf, l);
      Nulterminate(buf, r);
    case Back(d) =>
      Nulterminate(buf, d);
  }

  lemma {:induction false} EndsInside(s: string, c: Cmd)
    requires CmdOk(s, c)
    ensures EndsIn(c, |s| + 1)
    decreases c
  {
    match c
    case Exec(argv) =>
      forall k | 0 <= k < |argv| ensures argv[k].1 < |s| + 1 { assert Word(s, argv[k].0, argv[k].1); }
    case Redir(d, _, _, _) => EndsInside(s, d);
    case Pipe(l, r) => EndsInside(s, l); EndsInside(s, r);
    case List(l, r) => EndsInside(s, l); EndsInside(s, r);
    case Back(d) => EndsInside(s, d);
  }

  /** (q, eq) is a word or file name of the command. */
  predicate HasRange(c: Cmd, q: nat, eq: nat) {
    match c
    case Exec(argv) => (q, eq) in argv
    case Redir(d, q', eq', _) => (q, eq) == (q', eq') || HasRange(d, q, eq)
    case Pipe(l, r) => HasRange(l, q, eq) || HasRange(r, q, eq)
    case List(l, r) => HasRange(l, q, eq) || HasRange(r, q, eq)
    case Back(d) => HasRange(d, q, eq)
  }

  lemma {:induction false} RangeWord(s: string, c: Cmd, q: nat, eq: nat)
    requires CmdOk(s, c) && HasRange(c, q, eq)
    ensures Word(s, q, eq)
    decreases c
  {
    match c
    case Exec(argv) =>
      var k :| 0 <= k < |argv| && argv[k] == (q, eq);
      assert Word(s, argv[k].0, argv[k].1);
    case Redir(d, q', eq', _) => if (q, eq) != (q', eq') { RangeWord(s, d, q, eq); }
    case Pipe(l, r) => if HasRange(l, q, eq) { RangeWord(s, l, q, eq); } else { RangeWord(s, r, q, eq); }
    case List(l, r) => if HasRange(l, q, eq) { RangeWord(s, l, q, eq); } else { RangeWord(s, r, q, eq); }
    case Back(d) => RangeWord(s, d, q, eq);
  }

  /** A word character is never overwritten: the ends of words are not such. */
  lemma {:induction false} KeepsWords(s: string, c: Cmd, b: seq<char>, k: nat)
    requires CmdOk(s, c) && EndsIn(c, |b|) && |b| == |s| + 1 && k < |s| && WordChar(s[k])
    ensures Terminated(b, c)[k] == b[k]
    decreases c
  {
    match c
    case Exec(argv) => KeepsArgs(s, argv, b, k);
    case Redir(d, q, eq, _) =>
      KeepsWords(s, d, b, k);
    case Pipe(l, r) => KeepsWords(s, l, b, k); KeepsWords(s, r, Terminated(b, l), k);
    case List(l, r) => KeepsWords(s, l, b, k); KeepsWords(s, r, Terminated(b, l), k);
    case Back(d) => KeepsWords(s, d, b, k);
  }

  lemma {:induction false} KeepsArgs(s: string, argv: seq<(nat, nat)>, b: seq<char>, k: nat)
    requires CmdOk(s, Exec(argv)) && EndsIn(Exec(argv), |b|) && |b| == |s| + 1 && k < |s| && WordChar(s[k])
    ensures Stopped(b, argv)[k] == b[k]
  {
    if argv != [] {
      var w := argv[|argv| - 1];
      assert Word(s, w.0, w.1);
      KeepsArgs(s, argv[..|argv| - 1], b, k);
    }
  }

  /** Every end is overwritten, and a NUL stays one. */
  lemma {:induction false} WritesEnds(c: Cmd, b: seq<char>, q: nat, eq: nat)
    requires EndsIn(c, |b|) && eq < |b|
    ensures HasRange(c, q, eq) || b[eq] == '\0' ==> Terminated(b, c)[eq] == '\0'
    decreases c
  {
    match c
    case Exec(argv) => StopsArgs(argv, b, q, eq);
    case Redir(d, _, _, _) => WritesEnds(d, b, q, eq);
    case Pipe(l, r) => WritesEnds(l, b, q, eq); WritesEnds(r, Terminated(b, l), q, eq);
    case List(l, r) => WritesEnds(l, b, q, eq); WritesEnds(r, Terminated(b, l), q, eq);
    case Back(d) => WritesEnds(d, b, q, eq);
  }

  lemma {:induction false} StopsArgs(argv: seq<(nat, nat)>, b: seq<char>, q: nat, eq: nat)
    requires EndsIn(Exec(argv), |b|) && eq < |b|
    ensures (q, eq) in argv || b[eq] == '\0' ==> Stopped(b, argv)[eq] == '\0'
  {
    if argv != [] {
      StopsArgs(argv[..|argv| - 1], b, q, eq);
      assert argv == argv[..|argv| - 1] + [argv[|argv| - 1]];
    }
  }

  /** The C string at `q`. */
  function CString(b: seq<char>, q: nat): (w: string)
    requires q <= |b|
    decreases |b| - q
  {
    if q == |b| || b[q] == '\0' then "" else [b[q]] + CString(b, q + 1)
  }

  lemma {:induction false} CStringIs(b: seq<char>, s: string, q: nat, eq: nat)
    requires q <= eq < |b| && eq <= |s| && b[eq] == '\0'
    requires forall k :: q <= k < eq ==> b[k] == s[k] != '\0'
    ensures CString(b, q) == s[q..eq]
    decreases eq - q
  {
    if q < eq {
      CStringIs(b, s, q + 1, eq);
      assert s[q..eq] == [s[q]] + s[q + 1..eq];
    }
  }

  /** For every line that parses: afterwards each argument and file name, read as a
      C string, is its own word. */
  lemma WordsTerminated(s: string, cmd: Cmd, b: seq<char>, q: nat, eq: nat)
    requires Line(s) && ParseCmd(s) == Ok(cmd, |s|) && HasRange(cmd, q, eq)
    requires EndsIn(cmd, |s| + 1) && b == Terminated(s + ['\0'], cmd)
    ensures q < eq <= |s| && CString(b, q) == s[q..eq]
  {
    hide ParseCmd, Terminated, CString, EndsIn, HasRange;
    RangeWord(s, cmd, q, eq);
    WritesEnds(cmd, s + ['\0'], q, eq);
    forall k | q <= k < eq ensures b[k] == s[k] != '\0' { KeepsWords(s, cmd, s + ['\0'], k); }
    CStringIs(b, s, q, eq);
  }

  lemma OntoNone(r: Files)
    ensures Onto([], r) == r
  {
    if r.Files? { assert [] + r.list == r.list; }
  }

  lemma OntoNext(fs: seq<File>, f: File, r: Files)
    ensures r.Files? ==> Onto(fs + [f], r) == Onto(fs, Files([f] + r.list, r.next))
  {
    if r.Files? { assert fs + [f] + r.list == fs + ([f] + r.list); }
  }

  lemma PeekToken(s: string, i: nat, toks: string)
    requires Line(s) && i <= |s| && Peek(s, i, toks)
    ensures GetToken(s, i).next > i
  {
    hide GetToken, Skip;
  }

  lemma RedirsSkip(s: string, i: nat)
    requires Line(s) && i <= |s|
    ensures Skip(s, Skip(s, i)) == Skip(s, i) && ParseRedirs(s, Skip(s, i)) == ParseRedirs(s, i)
  {
    hide Skip, GetToken;
    TokenSkip(s, i);
  }

  lemma ArgsSkip(s: string, argv: seq<(nat, nat)>, fs: seq<File>, i: nat)
    requires i <= |s| && Line(s) && CmdOk(s, Exec(argv)) && FilesOk(s, fs)
    ensures Skip(s, Skip(s, i)) == Skip(s, i) && ParseArgs(s, argv, fs, Skip(s, i)) == ParseArgs(s, argv, fs, i)
  {
    hide Skip, GetToken, ParseRedirs, Wrap;
    TokenSkip(s, i);
  }

  lemma BacksSkip(s: string, cmd: Cmd, i: nat)
    requires i <= |s| && Line(s) && CmdOk(s, cmd)
    ensures Skip(s, Skip(s, i)) == Skip(s, i) && ParseBacks(s, cmd, Skip(s, i)) == ParseBacks(s, cmd, i)
  {
    hide Skip, GetToken;
    TokenSkip(s, i);
  }
}

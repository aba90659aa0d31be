/** The pattern matcher of user/grep.c against a declarative meaning of patterns.
    Patterns and texts are NUL-free; a string stands for a pointer to its start. */
module Grep {

  // ----- what a pattern means -----

  datatype Atom = Lit(c: char) | Any

  datatype Elem = One(a: Atom) | Star(a: Atom)

  function AtomOf(c: char): (a: Atom) { if c == '.' then Any else Lit(c) }

  predicate Has(a: Atom, c: char) { a.Any? || a.c == c }

  /** The elements of a pattern after any leading '^': a character before '*' is
      repeated, whatever it is; a last '$' is the end anchor. */
  function Elems(re: string): (es: seq<Elem>) {
    if re == "" || re == "$" then []
    else if |re| >= 2 && re[1] == '*' then [Star(AtomOf(re[0]))] + Elems(re[2..])
    else [One(AtomOf(re[0]))] + Elems(re[1..])
  }

  predicate EndAnchor(re: string) {
    if re == "" then false
    else if |re| >= 2 && re[1] == '*' then EndAnchor(re[2..])
    else re == "$" || EndAnchor(re[1..])
  }

  predicate InElem(e: Elem, w: string) {
    match e
    case One(a) => |w| == 1 && Has(a, w[0])
    case Star(a) => forall i :: 0 <= i < |w| ==> Has(a, w[i])
  }

  /** `w` falls into pieces, one for each element. */
  predicate InLang(es: seq<Elem>, w: string) {
    if es == [] then w == ""
    else exists k :: 0 <= k <= |w| && InElem(es[0], w[..k]) && InLang(es[1..], w[k..])
  }

  /** The substring from i to j is in the pattern's language, and its anchors hold. */
  predicate MatchesAt(re: string, t: string, i: nat, j: nat)
    requires i <= j <= |t|
  {
    var body := if re != "" && re[0] == '^' then re[1..] else re;
    && InLang(Elems(body), t[i..j])
    && (re != "" && re[0] == '^' ==> i == 0)
    && (EndAnchor(body) ==> j == |t|)
  }

  ghost predicate Matches(re: string, t: string) {
    exists i: nat, j: nat :: i <= j <= |t| && MatchesAt(re, t, i, j)
  }

  // ----- the code as functions -----

  function MatchHere(re: string, t: string): (r: bool)
    decreases |re|, |t|, 0
  {
    if re == "" then true
    else if |re| >= 2 && re[1] == '*' then MatchStar(re[0], re[2..], t)
    else if re == "$" then t == ""
    else t != "" && (re[0] == '.' || re[0] == t[0]) && MatchHere(re[1..], t[1..])
  }

  function MatchStar(c: char, re: string, t: string): (r: bool)
    decreases |re|, |t|, 1
  {
    MatchHere(re, t) || (t != "" && (t[0] == c || c == '.') && MatchStar(c, re, t[1..]))
  }

  // ----- matchhere -----

  /** Some prefix of `t`, the whole of it at an end anchor, is in the language. */
  predicate Prefix(es: seq<Elem>, end: bool, t: string) {
    exists j :: 0 <= j <= |t| && InLang(es, t[..j]) && (end ==> j == |t|)
  }

  /** A run of `a` up to k and the rest make a word. */
  lemma StarFirst(a: Atom, es: seq<Elem>, w: string, k: nat)
    requires k <= |w| && InElem(Star(a), w[..k]) && InLang(es, w[k..])
    ensures InLang([Star(a)] + es, w)
  {
    var all := [Star(a)] + es;
    assert all[0] == Star(a) && all[1..] == es;
  }

  lemma StarPiece(a: Atom, es: seq<Elem>, w: string) returns (k: nat)
    requires InLang([Star(a)] + es, w)
    ensures k <= |w| && InElem(Star(a), w[..k]) && InLang(es, w[k..])
  {
    var all := [Star(a)] + es;
    assert all[0] == Star(a) && all[1..] == es;
    k :| 0 <= k <= |w| && InElem(all[0], w[..k]) && InLang(all[1..], w[k..]);
  }

  lemma StarUnfolds(a: Atom, es: seq<Elem>, w: string)
    ensures InLang([Star(a)] + es, w) <==>
            InLang(es, w) || (w != "" && Has(a, w[0]) && InLang([Star(a)] + es, w[1..]))
  {
    hide InLang;
    if InLang(es, w) {
      assert w[0..] == w;
      StarFirst(a, es, w, 0);
    }
    if w != "" && Has(a, w[0]) && InLang([Star(a)] + es, w[1..]) {
      var k := StarPiece(a, es, w[1..]);
      assert w[..k + 1] == [w[0]] + w[1..][..k];
      assert w[k + 1..] == w[1..][k..];
      StarFirst(a, es, w, k + 1);
    }
    if InLang([Star(a)] + es, w) {
      var k := StarPiece(a, es, w);
      if k == 0 {
        assert w[0..] == w;
      } else {
        assert Has(a, w[..k][0]);
        assert w[1..][..k - 1] == w[..k][1..];
        assert w[1..][k - 1..] == w[k..];
        StarFirst(a, es, w[1..], k - 1);
      }
    }
  }

  lemma OneUnfolds(a: Atom, es: seq<Elem>, w: string)
    ensures InLang([One(a)] + es, w) <==> w != "" && Has(a, w[0]) && InLang(es, w[1..])
  {
    var all := [One(a)] + es;
    assert all[0] == One(a) && all[1..] == es;
    if w != "" && Has(a, w[0]) && InLang(es, w[1..]) {
      assert w[..1] == [w[0]];
    }
  }

  lemma OnePrefix(a: Atom, es: seq<Elem>, end: bool, t: string)
    ensures Prefix([One(a)] + es, end, t) <==> t != "" && Has(a, t[0]) && Prefix(es, end, t[1..])
  {
    if Prefix([One(a)] + es, end, t) {
      var j :| 0 <= j <= |t| && InLang([One(a)] + es, t[..j]) && (end ==> j == |t|);
      OneUnfolds(a, es, t[..j]);
      assert t[..j][1..] == t[1..][..j - 1];
    }
    if t != "" && Has(a, t[0]) && Prefix(es, end, t[1..]) {
      var j :| 0 <= j <= |t[1..]| && InLang(es, t[1..][..j]) && (end ==> j == |t[1..]|);
      OneUnfolds(a, es, t[..j + 1]);
      assert t[..j + 1][1..] == t[1..][..j];
    }
  }

  lemma StarPrefix(a: Atom, es: seq<Elem>, end: bool, t: string)
    ensures Prefix([Star(a)] + es, end, t) <==>
            Prefix(es, end, t) || (t != "" && Has(a, t[0]) && Prefix([Star(a)] + es, end, t[1..]))
  {
    var all := [Star(a)] + es;
    if Prefix(all, end, t) {
      var j :| 0 <= j <= |t| && InLang(all, t[..j]) && (end ==> j == |t|);
      StarUnfolds(a, es, t[..j]);
      if !InLang(es, t[..j]) { assert t[..j][1..] == t[1..][..j - 1]; }
    }
    if Prefix(es, end, t) {
      var j :| 0 <= j <= |t| && InLang(es, t[..j]) && (end ==> j == |t|);
      StarUnfolds(a, es, t[..j]);
    }
    if t != "" && Has(a, t[0]) && Prefix(all, end, t[1..]) {
      var j :| 0 <= j <= |t[1..]| && InLang(all, t[1..][..j]) && (end ==> j == |t[1..]|);
      StarUnfolds(a, es, t[..j + 1]);
      assert t[..j + 1][1..] == t[1..][..j];
    }
  }

  lemma {:induction false} HereMeans(re: string, t: string)
    ensures MatchHere(re, t) <==> Prefix(Elems(re), EndAnchor(re), t)
    decreases |re|, |t|, 0
  {
    hide Prefix, InLang;
    if re == "" {
      EmptyPrefix(t);
    } else if |re| >= 2 && re[1] == '*' {
      StarMeans(re[0], re[2..], t);
    } else if re == "$" {
      EmptyPrefix(t);
    } else {
      OnePrefix(AtomOf(re[0]), Elems(re[1..]), EndAnchor(re[1..]), t);
      if t != "" { HereMeans(re[1..], t[1..]); }
    }
  }

  lemma {:induction false} StarMeans(c: char, re: string, t: string)
    ensures MatchStar(c, re, t) <==> Prefix([Star(AtomOf(c))] + Elems(re), EndAnchor(re), t)
    decreases |re|, |t|, 1
  {
    hide Prefix, InLang, MatchHere;
    HereMeans(re, t);
    StarPrefix(AtomOf(c), Elems(re), EndAnchor(re), t);
    if t != "" { StarMeans(c, re, t[1..]); }
  }

  lemma EmptyPrefix(t: string)
    ensures Prefix([], false, t) && (Prefix([], true, t) <==> t == "")
  {
    assert t[..0] == "";
  }

  // ----- match -----

  /** Without '^' a match starts anywhere. */
  lemma SuffixMeans(re: string, t: string, i: nat)
    requires i <= |t| && (re == "" || re[0] != '^')
    ensures MatchHere(re, t[i..]) <==> exists j :: i <= j <= |t| && MatchesAt(re, t, i, j)
  {
    hide InLang, MatchHere;
    HereMeans(re, t[i..]);
    if MatchHere(re, t[i..]) {
      var j :| 0 <= j <= |t[i..]| && InLang(Elems(re), t[i..][..j]) && (EndAnchor(re) ==> j == |t[i..]|);
      assert t[i..][..j] == t[i..i + j];
      assert MatchesAt(re, t, i, i + j);
    }
    if exists j :: i <= j <= |t| && MatchesAt(re, t, i, j) {
      var j :| i <= j <= |t| && MatchesAt(re, t, i, j);
      assert t[i..][..j - i] == t[i..j];
    }
  }

  lemma AnchoredMeans(re: string, t: string)
    requires re != "" && re[0] == '^'
    ensures MatchHere(re[1..], t) <==> Matches(re, t)
  {
    hide InLang, MatchHere;
    HereMeans(re[1..], t);
    if MatchHere(re[1..], t) {
      var j :| 0 <= j <= |t| && InLang(Elems(re[1..]), t[..j]) && (EndAnchor(re[1..]) ==> j == |t|);
      assert t[..j] == t[0..j];
      assert MatchesAt(re, t, 0, j);
    }
    if Matches(re, t) {
      var i: nat, j: nat :| i <= j <= |t| && MatchesAt(re, t, i, j);
      assert t[..j] == t[i..j];
    }
  }

  method Here(re: string, t: string) returns (r: bool)
    ensures r == MatchHere(re, t)
    decreases |re|, |t|, 0
  {
    if re == "" { return true; }
    if |re| >= 2 && re[1] == '*' {
      r := StarLoop(re[0], re[2..], t);
      return;
    }
    if re == "$" { return t == ""; }
    if t != "" && (re[0] == '.' || re[0] == t[0]) {
      r := Here(re[1..], t[1..]);
      return;
    }
    return false;
  }

  method StarLoop(c: char, re: string, t: string) returns (r: bool)
    ensures r == MatchStar(c, re, t)
    decreases |re|, |t|, 1
  {
    var u := t;
    while true
      invariant |u| <= |t| && MatchStar(c, re, u) == MatchStar(c, re, t)
      decreases |u|
    {
      var here := Here(re, u);
      if here { return true; }
      if u == "" || !(u[0] == c || c == '.') { return false; }
      u := u[1..];
    }
    assert false;
  }

  /** match() answers 1 exactly when some substring is in the pattern's language. */
  method Match(re: string, text: string) returns (r: bool)
    ensures r <==> Matches(re, text)
  {
    hide MatchesAt, MatchHere;
    if re != "" && re[0] == '^' {
      AnchoredMeans(re, text);
      r := Here(re[1..], text);
      return;
    }
    var i := 0;
    while true
      invariant 0 <= i <= |text| && forall k: nat, j: nat :: k < i && k <= j <= |text| ==> !MatchesAt(re, text, k, j)
      decreases |text| - i
    {
      SuffixMeans(re, text, i);
      var here := Here(re, text[i..]);
      if here { return true; }
      if i == |text| { return false; }
      i := i + 1;
    }
    assert false;
  }
}

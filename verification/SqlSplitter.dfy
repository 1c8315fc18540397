/**
 The migration-script splitter: a five-mode lexer that cuts a script at the
 semicolons it meets in normal mode.

 `Lex` is the lexer as a recursive function, `SplitSqlStatements` is the scanning
 loop, and the lemmas say what splitting loses (nothing) and that printing the
 statements and splitting again gives them back.
 */
module SqlSplitter {
  import opened Outcomes
  import opened DollarTags
  import opened Text

  datatype Mode = Normal | LineComment | BlockComment | DollarBody(tag: string) | Quoted(mark: char)

  predicate ValidMode(m: Mode) {
    && (m.DollarBody? ==> IsTag(m.tag))
    && (m.Quoted? ==> m.mark == '\'' || m.mark == '"')
  }

  /** What a scan produces: the text between the cuts, and the mode it ends in. */
  datatype Scan = Scan(pieces: seq<string>, final: Mode)

  datatype ScriptError = Unterminated

  predicate At(s: string, i: nat, c: char) {
    i < |s| && s[i] == c
  }

  /** The mode after the next token, and the token's width. Semicolons in normal mode are `Lex`'s. */
  function Next(m: Mode, s: string): (r: (Mode, nat))
    requires ValidMode(m) && s != ""
    ensures 1 <= r.1 <= |s| && ValidMode(r.0)
  {
    match m
    case LineComment => (if s[0] == '\n' then Normal else m, 1)
    case BlockComment => if s[0] == '*' && At(s, 1, '/') then (Normal, 2) else (m, 1)
    case DollarBody(tag) => if tag <= s then (Normal, |tag|) else (m, 1)
    case Quoted(mark) =>
      if s[0] == mark then (if At(s, 1, mark) then (m, 2) else (Normal, 1))
      else if s[0] == '\\' && mark == '\'' && |s| > 1 then (m, 2)
      else (m, 1)
    case Normal =>
      if s[0] == '-' && At(s, 1, '-') then (LineComment, 2)
      else if s[0] == '/' && At(s, 1, '*') then (BlockComment, 2)
      else if s[0] == '\'' || s[0] == '"' then (Quoted(s[0]), 1)
      else if TagLength(s) > 0 then
        TagLengthFindsTag(s);
        (DollarBody(s[..TagLength(s)]), TagLength(s))
      else (Normal, 1)
  }

  predicate IsCut(m: Mode, s: string) {
    m.Normal? && At(s, 0, ';')
  }

  function Prepend(t: string, r: Scan): Scan
    requires r.pieces != []
  {
    Scan([t + r.pieces[0]] + r.pieces[1..], r.final)
  }

  function Cut(r: Scan): Scan {
    Scan([""] + r.pieces, r.final)
  }

  function Lex(m: Mode, s: string): (r: Scan)
    requires ValidMode(m)
    ensures r.pieces != [] && ValidMode(r.final)
    decreases |s|
  {
    if s == "" then
      Scan([""], m)
    else if IsCut(m, s) then
      Cut(Lex(Normal, s[1..]))
    else
      var (m', n) := Next(m, s);
      Prepend(s[..n], Lex(m', s[n..]))
  }

  /** The modes in which a script may not end. */
  predicate IsOpen(m: Mode) {
    m.Quoted? || m.DollarBody? || m.BlockComment?
  }

  /** The pieces that are left after stripping, without the empty ones. */
  function Statements(pieces: seq<string>): (r: seq<string>)
  {
    if pieces == [] then []
    else
      var rest := Statements(pieces[1..]);
      if Strip(pieces[0]) == "" then rest else [Strip(pieces[0])] + rest
  }

  function Split(sql: string): Result<seq<string>, ScriptError> {
    var scan := Lex(Normal, sql);
    if IsOpen(scan.final) then Err(Unterminated) else Ok(Statements(scan.pieces))
  }

  function Join(parts: seq<string>, separator: string): string {
    if parts == [] then "" else if |parts| == 1 then parts[0] else parts[0] + separator + Join(parts[1..], separator)
  }

  /** A text that is one executable statement: stripped, never cut, and not left open. */
  ghost predicate IsStatement(t: string) {
    && t != "" && Strip(t) == t
    && Lex(Normal, t).pieces == [t]
    && !IsOpen(Lex(Normal, t).final)
  }

  // ----- Look-ahead never reaches across a break -----

  /** Whitespace and semicolons: no token but a backslash escape looks past the text before one. */
  predicate IsBreak(c: char) {
    c == ';' || IsSpace(c)
  }

  predicate StartsWithBreak(x: string) {
    x == "" || IsBreak(x[0])
  }

  lemma TagHasNoBreak(t: string)
    requires IsTag(t)
    ensures forall i :: 0 <= i < |t| ==> !IsBreak(t[i])
  {
  }

  lemma TagLengthIsLocal(p: string, x: string)
    requires p != "" && StartsWithBreak(x)
    ensures TagLength(p + x) == TagLength(p)
  {
    var n, n' := TagLength(p), TagLength(p + x);
    TagLengthFindsTag(p);
    TagLengthFindsTag(p + x);
    if n' > 0 {
      TagHasNoBreak((p + x)[..n']);
      assert forall i :: 0 <= i < n' ==> (p + x)[..n'][i] == (p + x)[i];
      assert x != "" ==> (p + x)[|p|] == x[0];
      assert n' <= |p|;
    }
    assert (p + x)[..n'] == p[..n'];
    assert (p + x)[..n] == p[..n];
    if n > 0 && n' > 0 {
      TagsArePrefixFree(p, n, n');
    }
  }

  lemma TagAtIsLocal(tag: string, p: string, x: string)
    requires IsTag(tag) && StartsWithBreak(x)
    ensures tag <= p + x <==> tag <= p
  {
    TagHasNoBreak(tag);
    if tag <= p + x {
      assert forall i :: 0 <= i < |tag| ==> tag[i] == (p + x)[i];
      assert x != "" ==> (p + x)[|p|] == x[0];
      assert |tag| <= |p|;
      assert (p + x)[..|tag|] == p[..|tag|];
    }
    if tag <= p {
      assert (p + x)[..|tag|] == p[..|tag|];
    }
  }

  predicate IsLoneEscape(m: Mode, p: string) {
    m == Quoted('\'') && p == "\\"
  }

  lemma NextIsLocal(m: Mode, p: string, x: string)
    requires ValidMode(m) && p != "" && StartsWithBreak(x)
    requires !IsLoneEscape(m, p)
    ensures Next(m, p + x) == Next(m, p)
    ensures IsCut(m, p + x) == IsCut(m, p)
  {
    assert (p + x)[0] == p[0];
    assert |p| > 1 ==> (p + x)[1] == p[1];
    assert |p| == 1 && x != "" ==> (p + x)[1] == x[0];
    TagLengthIsLocal(p, x);
    assert (p + x)[..TagLength(p)] == p[..TagLength(p)];
    if m.DollarBody? {
      TagAtIsLocal(m.tag, p, x);
    }
  }

  function Glue(a: Scan, b: Scan): Scan
    requires a.pieces != [] && b.pieces != []
  {
    var n := |a.pieces| - 1;
    Scan(a.pieces[..n] + [a.pieces[n] + b.pieces[0]] + b.pieces[1..], b.final)
  }

  lemma PrependGlue(t: string, a: Scan, b: Scan)
    requires a.pieces != [] && b.pieces != []
    ensures Prepend(t, Glue(a, b)) == Glue(Prepend(t, a), b)
  {
    var n := |a.pieces| - 1;
    if n == 0 {
      assert t + (a.pieces[0] + b.pieces[0]) == t + a.pieces[0] + b.pieces[0];
    }
    assert Prepend(t, Glue(a, b)).pieces == Glue(Prepend(t, a), b).pieces;
  }

  lemma LoneEscapeStaysOpen(m: Mode, p: string)
    requires IsLoneEscape(m, p)
    ensures Lex(m, p).final == m
  {
    assert Next(m, p) == (m, 1) && p[1..] == "";
  }

  lemma CutGlue(a: Scan, b: Scan)
    requires a.pieces != [] && b.pieces != []
    ensures Cut(Glue(a, b)) == Glue(Cut(a), b)
  {
    assert Cut(Glue(a, b)).pieces == Glue(Cut(a), b).pieces;
  }

  lemma LexCut(s: string)
    requires IsCut(Normal, s)
    ensures Lex(Normal, s) == Cut(Lex(Normal, s[1..]))
  {
  }

  lemma ResumeAfterCut(p: string, x: string, tail: Scan, rest: Scan)
    requires IsCut(Normal, p)
    requires tail == Lex(Normal, p[1..]) && rest.pieces != []
    requires Lex(Normal, p[1..] + x) == Glue(tail, rest)
    ensures Lex(Normal, p + x) == Glue(Cut(tail), rest)
  {
    LexCutThen(p, x, p[1..] + x);
    CutGlue(tail, rest);
  }

  lemma LexCutThen(p: string, x: string, q: string)
    requires IsCut(Normal, p) && q == p[1..] + x
    ensures Lex(Normal, p + x) == Cut(Lex(Normal, q))
  {
    assert (p + x)[1..] == q;
    LexCut(p + x);
  }

  lemma LexToken(m: Mode, s: string)
    requires ValidMode(m) && s != "" && !IsCut(m, s)
    ensures var (m', n) := Next(m, s); Lex(m, s) == Prepend(s[..n], Lex(m', s[n..]))
  {
  }

  lemma LexTokenThen(m: Mode, p: string, x: string, m': Mode, n: nat, q: string)
    requires ValidMode(m) && p != "" && StartsWithBreak(x)
    requires !IsLoneEscape(m, p) && !IsCut(m, p) && (m', n) == Next(m, p) && q == p[n..] + x
    ensures Lex(m, p + x) == Prepend(p[..n], Lex(m', q))
  {
    NextIsLocal(m, p, x);
    assert (p + x)[n..] == q && (p + x)[..n] == p[..n];
    LexToken(m, p + x);
  }

  lemma ResumeAfterToken(m: Mode, p: string, x: string, m': Mode, n: nat, tail: Scan, rest: Scan)
    requires ValidMode(m) && p != "" && StartsWithBreak(x)
    requires !IsLoneEscape(m, p) && !IsCut(m, p) && (m', n) == Next(m, p)
    requires tail.pieces != [] && rest.pieces != []
    requires Lex(m', p[n..] + x) == Glue(tail, rest)
    ensures Lex(m, p + x) == Glue(Prepend(p[..n], tail), rest)
  {
    LexTokenThen(m, p, x, m', n, p[n..] + x);
    PrependGlue(p[..n], tail, rest);
  }

  /** Scanning stops and resumes at a break, unless it stands inside a quotation. */
  lemma {:induction false} LexResumes(m: Mode, p: string, x: string)
    requires ValidMode(m) && StartsWithBreak(x)
    requires !Lex(m, p).final.Quoted?
    ensures Lex(m, p + x) == Glue(Lex(m, p), Lex(Lex(m, p).final, x))
    decreases |p|
  {
    if p == "" {
      var rest := Lex(m, x);
      assert p + x == x;
      assert "" + rest.pieces[0] == rest.pieces[0];
      assert Glue(Scan([""], m), rest).pieces == rest.pieces;
    } else if IsLoneEscape(m, p) {
      LoneEscapeStaysOpen(m, p);
      assert false;
    } else if IsCut(m, p) {
      LexResumes(Normal, p[1..], x);
      LexCut(p);
      ResumeAfterCut(p, x, Lex(Normal, p[1..]), Lex(Lex(m, p).final, x));
    } else {
      var (m', n) := Next(m, p);
      LexResumes(m', p[n..], x);
      LexToken(m, p);
      ResumeAfterToken(m, p, x, m', n, Lex(m', p[n..]), Lex(Lex(m, p).final, x));
    }
  }

  // ----- Whitespace -----

  function Settle(m: Mode, w: string): Mode {
    if m.LineComment? && '\n' in w then Normal else m
  }

  lemma NextOnSpace(m: Mode, w: string)
    requires ValidMode(m) && w != "" && IsSpace(w[0])
    ensures Next(m, w) == (Settle(m, w[..1]), 1)
  {
    assert w[..1] == [w[0]];
    if m.DollarBody? {
      TagHasNoBreak(m.tag);
    }
  }

  lemma {:induction false} LexSpace(m: Mode, w: string)
    requires ValidMode(m) && AllSpace(w)
    ensures Lex(m, w) == Scan([w], Settle(m, w))
    decreases |w|
  {
    if w != "" {
      NextOnSpace(m, w);
      assert w == w[..1] + w[1..];
      LexSpace(Settle(m, w[..1]), w[1..]);
    }
  }

  /** Whitespace cannot end a quotation. */
  lemma {:induction false} QuotationKeepsSpace(m: Mode, p: string, w: string)
    requires ValidMode(m) && AllSpace(w)
    requires Lex(m, p).final.Quoted?
    ensures Lex(m, p + w).final == Lex(m, p).final
    decreases |p|
  {
    if p == "" {
      assert p + w == w;
      LexSpace(m, w);
    } else if IsLoneEscape(m, p) {
      if w != "" {
        var s := p + w;
        assert Next(m, s) == (m, 2) && s[2..] == w[1..];
        LexSpace(m, w[1..]);
        assert Lex(m, p[1..]).final == m;
      } else {
        assert p + w == p;
      }
    } else {
      NextIsLocal(m, p, w);
      if IsCut(m, p) {
        assert (p + w)[1..] == p[1..] + w;
        QuotationKeepsSpace(Normal, p[1..], w);
      } else {
        var (m', n) := Next(m, p);
        assert (p + w)[n..] == p[n..] + w;
        QuotationKeepsSpace(m', p[n..], w);
      }
    }
  }

  lemma PrependTwice(a: string, b: string, r: Scan)
    requires r.pieces != []
    ensures Prepend(a, Prepend(b, r)) == Prepend(a + b, r)
  {
    assert a + (b + r.pieces[0]) == a + b + r.pieces[0];
  }

  lemma LexOneSpace(s: string)
    requires s != "" && IsSpace(s[0])
    ensures Lex(Normal, s) == Prepend(s[..1], Lex(Normal, s[1..]))
  {
    NextOnSpace(Normal, s);
  }

  lemma LexSpaceThen(w: string, t: string, scan: Scan)
    requires w != "" && IsSpace(w[0]) && scan.pieces != []
    requires Lex(Normal, w[1..] + t) == Prepend(w[1..], scan)
    ensures Lex(Normal, w + t) == Prepend(w, scan)
  {
    assert (w + t)[1..] == w[1..] + t && (w + t)[..1] == w[..1];
    LexOneSpace(w + t);
    PrependTwice(w[..1], w[1..], scan);
    assert w == w[..1] + w[1..];
  }

  /** In normal mode leading whitespace only prefixes the first piece. */
  lemma {:induction false} LexAfterSpace(w: string, t: string)
    requires AllSpace(w)
    ensures Lex(Normal, w + t) == Prepend(w, Lex(Normal, t))
    decreases |w|
  {
    if w == "" {
      assert w + t == t;
      var scan := Lex(Normal, t);
      assert "" + scan.pieces[0] == scan.pieces[0];
      assert Prepend("", scan).pieces == scan.pieces;
    } else {
      LexAfterSpace(w[1..], t);
      LexSpaceThen(w, t, Lex(Normal, t));
    }
  }

  lemma LexBeforeSpace(t: string, w: string)
    requires AllSpace(w) && !Lex(Normal, t).final.Quoted?
    ensures |Lex(Normal, t + w).pieces| == |Lex(Normal, t).pieces|
    ensures Lex(Normal, t + w).final == Settle(Lex(Normal, t).final, w)
  {
    LexResumes(Normal, t, w);
    LexSpace(Lex(Normal, t).final, w);
  }

  lemma StrippedPieceLexes(lead: string, t: string, trail: string)
    requires AllSpace(lead) && AllSpace(trail)
    requires |Lex(Normal, lead + (t + trail)).pieces| == 1 && !IsOpen(Lex(Normal, lead + (t + trail)).final)
    ensures |Lex(Normal, t).pieces| == 1 && !IsOpen(Lex(Normal, t).final)
  {
    LexAfterSpace(lead, t + trail);
    if Lex(Normal, t).final.Quoted? {
      QuotationKeepsSpace(Normal, t, trail);
      assert false;
    } else {
      LexBeforeSpace(t, trail);
    }
  }

  lemma SinglePieceIsWhole(t: string)
    requires |Lex(Normal, t).pieces| == 1
    ensures Lex(Normal, t).pieces == [t]
  {
    PiecesJoin(Normal, t);
    var pieces := Lex(Normal, t).pieces;
    assert pieces == [pieces[0]];
  }

  lemma StrippedTextIsStatement(lead: string, t: string, trail: string)
    requires AllSpace(lead) && AllSpace(trail) && Strip(t) == t && t != ""
    requires |Lex(Normal, lead + (t + trail)).pieces| == 1 && !IsOpen(Lex(Normal, lead + (t + trail)).final)
    ensures IsStatement(t)
  {
    StrippedPieceLexes(lead, t, trail);
    SinglePieceIsWhole(t);
  }

  lemma StripParts(p: string) returns (lead: string, t: string, trail: string)
    ensures t == Strip(p) == Strip(t) && AllSpace(lead) && AllSpace(trail) && p == lead + (t + trail)
  {
    lead, trail := StripSplits(p);
    t := Strip(p);
    StripIsIdempotent(p);
    assert lead + t + trail == lead + (t + trail);
  }

  /** Stripping a closed, uncut piece leaves a statement, or nothing. */
  lemma StrippedPieceIsStatement(p: string)
    requires |Lex(Normal, p).pieces| == 1 && !IsOpen(Lex(Normal, p).final)
    ensures Strip(p) == "" || IsStatement(Strip(p))
  {
    var lead, t, trail := StripParts(p);
    if t != "" {
      StrippedTextIsStatement(lead, t, trail);
    }
  }

  lemma StripIsIdempotent(s: string)
    ensures Strip(Strip(s)) == Strip(s)
  {
  }

  // ----- Nothing is lost -----

  lemma JoinPrepend(t: string, parts: seq<string>)
    requires parts != []
    ensures Join([t + parts[0]] + parts[1..], ";") == t + Join(parts, ";")
  {
    var longer := [t + parts[0]] + parts[1..];
    if |parts| > 1 {
      assert longer[1..] == parts[1..];
      assert t + parts[0] + ";" + Join(parts[1..], ";") == t + (parts[0] + ";" + Join(parts[1..], ";"));
    }
  }

  lemma JoinCut(parts: seq<string>)
    requires parts != []
    ensures Join([""] + parts, ";") == ";" + Join(parts, ";")
  {
    assert ([""] + parts)[1..] == parts;
  }

  lemma JoinAfterToken(t: string, rest: string, tail: Scan, scan: Scan)
    requires tail.pieces != [] && Join(tail.pieces, ";") == rest && scan == Prepend(t, tail)
    ensures Join(scan.pieces, ";") == t + rest
  {
    JoinPrepend(t, tail.pieces);
  }

  lemma JoinAfterCut(rest: string, tail: Scan, scan: Scan)
    requires tail.pieces != [] && Join(tail.pieces, ";") == rest && scan == Cut(tail)
    ensures Join(scan.pieces, ";") == ";" + rest
  {
    JoinCut(tail.pieces);
  }

  lemma PiecesJoinAtCut(m: Mode, s: string)
    requires ValidMode(m) && s != "" && IsCut(m, s) && Join(Lex(Normal, s[1..]).pieces, ";") == s[1..]
    ensures Join(Lex(m, s).pieces, ";") == s
  {
    LexCut(s);
    JoinAfterCut(s[1..], Lex(Normal, s[1..]), Lex(m, s));
    assert s == ";" + s[1..];
  }

  lemma PiecesJoinAfterToken(m: Mode, s: string, m': Mode, n: nat)
    requires ValidMode(m) && s != "" && !IsCut(m, s) && (m', n) == Next(m, s)
    requires Join(Lex(m', s[n..]).pieces, ";") == s[n..]
    ensures Join(Lex(m, s).pieces, ";") == s
  {
    LexToken(m, s);
    JoinOfPrepend(s, n, Lex(m', s[n..]), Lex(m, s));
  }

  lemma JoinOfPrepend(s: string, n: nat, tail: Scan, scan: Scan)
    requires n <= |s| && tail.pieces != [] && Join(tail.pieces, ";") == s[n..] && scan == Prepend(s[..n], tail)
    ensures Join(scan.pieces, ";") == s
  {
    JoinAfterToken(s[..n], s[n..], tail, scan);
    assert s == s[..n] + s[n..];
  }

  /** The script is its pieces, separated by the semicolons where it was cut. */
  lemma {:induction false} PiecesJoin(m: Mode, s: string)
    requires ValidMode(m)
    ensures Join(Lex(m, s).pieces, ";") == s
    decreases |s|
  {
    if s == "" {
      assert Lex(m, s).pieces == [""];
    } else if IsCut(m, s) {
      PiecesJoin(Normal, s[1..]);
      PiecesJoinAtCut(m, s);
    } else {
      var (m', n) := Next(m, s);
      PiecesJoin(m', s[n..]);
      PiecesJoinAfterToken(m, s, m', n);
    }
  }

  /** The mode in which the scan stands at the end of piece `k`. */
  function ModeAfter(scan: Scan, k: nat): Mode {
    if k + 1 < |scan.pieces| then Normal else scan.final
  }

  lemma EscapeIsTwoWide(m: Mode, s: string)
    ensures m == Quoted('\'') && |s| > 1 && s[0] == '\\' ==> Next(m, s) == (m, 2)
  {
  }

  lemma NextInFirstPiece(m: Mode, s: string, first: string, x: string)
    requires ValidMode(m) && s == first + x && StartsWithBreak(x)
    requires s != "" && !IsCut(m, s) && Next(m, s).1 <= |first|
    ensures first != "" && !IsCut(m, first) && Next(m, first) == Next(m, s)
  {
    assert s[0] == first[0];
    if IsLoneEscape(m, first) {
      EscapeIsTwoWide(m, s);
      assert s == first;
    } else {
      NextIsLocal(m, first, x);
    }
  }

  /** The first piece, scanned alone, is not cut and ends in the mode the scan had there. */
  lemma {:induction false} FirstPieceIsWhole(m: Mode, s: string)
    requires ValidMode(m)
    ensures var scan := Lex(m, s); Lex(m, scan.pieces[0]) == Scan([scan.pieces[0]], ModeAfter(scan, 0))
    decreases |s|
  {
    if s != "" && !IsCut(m, s) {
      var (m', n) := Next(m, s);
      FirstPieceIsWhole(m', s[n..]);
      var first, rest := Lex(m, s).pieces[0], Lex(m, s).pieces[1..];
      PiecesJoin(m, s);
      var x := if rest == [] then "" else ";" + Join(rest, ";");
      assert s == first + x;
      NextInFirstPiece(m, s, first, x);
      assert first[n..] == Lex(m', s[n..]).pieces[0] && first[..n] == s[..n];
    }
  }

  /** Piece `k` of a scan, scanned alone. */
  ghost predicate IsWhole(start: Mode, scan: Scan, k: nat)
    requires ValidMode(start) && k < |scan.pieces|
  {
    Lex(start, scan.pieces[k]) == Scan([scan.pieces[k]], ModeAfter(scan, k))
  }

  /** Later pieces do not depend on what the first one begins with. */
  lemma LaterPieces(t: string, tail: Scan, k: nat)
    requires 0 < k < |tail.pieces|
    ensures Prepend(t, tail).pieces[k] == tail.pieces[k] && ModeAfter(Prepend(t, tail), k) == ModeAfter(tail, k)
  {
  }

  lemma PiecesAfterCut(tail: Scan, k: nat)
    requires k < |tail.pieces|
    ensures Cut(tail).pieces[k + 1] == tail.pieces[k] && ModeAfter(Cut(tail), k + 1) == ModeAfter(tail, k)
  {
  }

  /** Every piece, scanned alone, is not cut; all but the last end in normal mode. */
  lemma {:induction false} PiecesAreWhole(m: Mode, s: string, k: nat)
    requires ValidMode(m) && k < |Lex(m, s).pieces|
    ensures IsWhole(if k == 0 then m else Normal, Lex(m, s), k)
    decreases |s|
  {
    if k == 0 {
      FirstPieceIsWhole(m, s);
    } else if s != "" {
      if IsCut(m, s) {
        LexCut(s);
        PiecesAreWhole(Normal, s[1..], k - 1);
        PiecesAfterCut(Lex(Normal, s[1..]), k - 1);
      } else {
        var (m', n) := Next(m, s);
        LexToken(m, s);
        PiecesAreWhole(m', s[n..], k);
        LaterPieces(s[..n], Lex(m', s[n..]), k);
      }
    }
  }

  /**
   Splitting loses nothing: the script is its pieces with the cutting semicolons between them, no
   piece is cut when scanned alone, all but the last are closed, and splitting fails exactly when
   the text after the last cut ends inside a quotation, a dollar body or a block comment.
   */
  lemma SplitLosesNothing(sql: string)
    ensures var pieces := Lex(Normal, sql).pieces;
            && Join(pieces, ";") == sql
            && (forall k :: 0 <= k < |pieces| ==> Lex(Normal, pieces[k]).pieces == [pieces[k]])
            && (forall k :: 0 <= k < |pieces| - 1 ==> Lex(Normal, pieces[k]).final == Normal)
            && Split(sql) == if IsOpen(Lex(Normal, pieces[|pieces| - 1]).final) then Err(Unterminated)
                             else Ok(Statements(pieces))
  {
    PiecesJoin(Normal, sql);
    forall k | 0 <= k < |Lex(Normal, sql).pieces|
      ensures Lex(Normal, Lex(Normal, sql).pieces[k])
              == Scan([Lex(Normal, sql).pieces[k]], ModeAfter(Lex(Normal, sql), k))
    {
      PiecesAreWhole(Normal, sql, k);
    }
  }

  lemma UniqueStep(first: string, tail: string, scan: Scan)
    requires Lex(Normal, first) == Scan([first], Normal) && scan == Lex(Normal, tail)
    ensures Lex(Normal, first + (";" + tail)) == Scan([first] + scan.pieces, scan.final)
  {
    var x := ";" + tail;
    LexResumes(Normal, first, x);
    assert x[1..] == tail;
    LexCut(x);
    GlueCut(first, scan);
  }

  lemma UniqueAfterFirst(parts: seq<string>, rest: seq<string>, tail: string)
    requires |parts| > 1 && rest == parts[1..] && tail == Join(rest, ";")
    requires Lex(Normal, parts[0]) == Scan([parts[0]], Normal) && Lex(Normal, tail).pieces == rest
    ensures Lex(Normal, Join(parts, ";")) == Scan(parts, Lex(Normal, tail).final)
  {
    UniqueStep(parts[0], tail, Lex(Normal, tail));
    assert parts[0] + ";" + tail == parts[0] + (";" + tail);
    assert [parts[0]] + rest == parts;
  }

  /** The pieces are the only way to take the script apart at semicolons into uncut, closed texts. */
  lemma {:induction false} PiecesAreUnique(parts: seq<string>)
    requires parts != []
    requires forall k :: 0 <= k < |parts| ==> Lex(Normal, parts[k]).pieces == [parts[k]]
    requires forall k :: 0 <= k < |parts| - 1 ==> Lex(Normal, parts[k]).final == Normal
    ensures Lex(Normal, Join(parts, ";")) == Scan(parts, Lex(Normal, parts[|parts| - 1]).final)
  {
    if |parts| > 1 {
      var rest := parts[1..];
      assert forall k :: 0 <= k < |rest| ==> rest[k] == parts[k + 1];
      PiecesAreUnique(rest);
      UniqueAfterFirst(parts, rest, Join(rest, ";"));
    } else {
      assert parts == [parts[0]];
    }
  }

  lemma GlueCut(t: string, r: Scan)
    requires r.pieces != []
    ensures Glue(Scan([t], Normal), Cut(r)) == Scan([t] + r.pieces, r.final)
  {
    assert t + "" == t;
    assert Glue(Scan([t], Normal), Cut(r)).pieces == [t] + r.pieces;
  }

  // ----- Printing and splitting again -----

  lemma {:induction false} StatementsOf(pieces: seq<string>)
    requires forall k :: 0 <= k < |pieces| ==>
               |Lex(Normal, pieces[k]).pieces| == 1 && !IsOpen(Lex(Normal, pieces[k]).final)
    ensures forall k :: 0 <= k < |Statements(pieces)| ==> IsStatement(Statements(pieces)[k])
  {
    if pieces != [] {
      StatementsOf(pieces[1..]);
      StrippedPieceIsStatement(pieces[0]);
    }
  }

  /** Whatever a script splits into are statements. */
  lemma SplitYieldsStatements(sql: string)
    ensures Split(sql).Ok? ==> forall k :: 0 <= k < |Split(sql).value| ==> IsStatement(Split(sql).value[k])
  {
    if Split(sql).Ok? {
      var scan := Lex(Normal, sql);
      forall k | 0 <= k < |scan.pieces|
        ensures |Lex(Normal, scan.pieces[k]).pieces| == 1 && !IsOpen(Lex(Normal, scan.pieces[k]).final)
      {
        PiecesAreWhole(Normal, sql, k);
      }
      StatementsOf(scan.pieces);
    }
  }

  /** A statement splits into itself. */
  lemma StatementSplitsToItself(t: string)
    requires IsStatement(t)
    ensures Split(t) == Ok([t])
  {
    assert Statements([t]) == [t] by {
      assert [t][1..] == [];
    }
  }

  const SEPARATOR := "\n;\n"

  lemma LexSeparator(f: Mode, tail: string)
    requires f == Normal || f == LineComment
    ensures Lex(f, SEPARATOR + tail) == Prepend("\n", Cut(Prepend("\n", Lex(Normal, tail))))
  {
    var x, y, z := SEPARATOR + tail, ";\n" + tail, "\n" + tail;
    NextOnSpace(f, x);
    assert x[..1] == "\n" && x[1..] == y && y[1..] == z;
    LexCut(y);
    LexAfterSpace("\n", tail);
  }

  lemma StatementsAfterSpace(r: Scan)
    requires r.pieces != []
    ensures Statements(Prepend("\n", r).pieces) == Statements(r.pieces)
  {
    var first := "\n" + r.pieces[0];
    assert first[1..] == r.pieces[0];
    assert Prepend("\n", r).pieces[1..] == r.pieces[1..];
  }

  lemma PrintedFirst(t: string, f: Mode, r: Scan)
    requires r.pieces != [] && t != "" && Strip(t) == t
    ensures var scan := Glue(Scan([t], f), Prepend("\n", Cut(Prepend("\n", r))));
            Statements(scan.pieces) == [t] + Statements(r.pieces) && scan.final == r.final
  {
    PrintedPieces(t, f, r);
    StripInsideSpace("", t, "\n");
    assert "" + t + "\n" == t + "\n";
    StatementsAfterSpace(r);
  }

  lemma PrintedPieces(t: string, f: Mode, r: Scan)
    requires r.pieces != []
    ensures var scan := Glue(Scan([t], f), Prepend("\n", Cut(Prepend("\n", r))));
            scan.pieces == [t + "\n"] + Prepend("\n", r).pieces && scan.final == r.final
  {
    assert "\n" + "" == "\n";
  }

  lemma PrintedStep(t: string, tail: string, rest: seq<string>)
    requires IsStatement(t) && Split(tail) == Ok(rest)
    ensures Split(t + (SEPARATOR + tail)) == Ok([t] + rest)
  {
    var f := Lex(Normal, t).final;
    LexResumes(Normal, t, SEPARATOR + tail);
    LexSeparator(f, tail);
    PrintedFirst(t, f, Lex(Normal, tail));
  }

  /** Any statements, printed with separators, split into themselves. */
  lemma {:induction false} PrintedStatementsSplitBack(ts: seq<string>)
    requires forall k :: 0 <= k < |ts| ==> IsStatement(ts[k])
    ensures Split(Join(ts, SEPARATOR)) == Ok(ts)
  {
    if ts == [] {
      assert Statements([""]) == [];
    } else if |ts| == 1 {
      StatementSplitsToItself(ts[0]);
      assert ts == [ts[0]];
    } else {
      PrintedStatementsSplitBack(ts[1..]);
      var tail := Join(ts[1..], SEPARATOR);
      PrintedStep(ts[0], tail, ts[1..]);
      assert ts[0] + SEPARATOR + tail == ts[0] + (SEPARATOR + tail);
      assert ts == [ts[0]] + ts[1..];
    }
  }

  /** The round trip: each output statement splits to itself, and so do all of them printed together. */
  lemma SplitRoundTrip(sql: string)
    requires Split(sql).Ok?
    ensures Split(Join(Split(sql).value, SEPARATOR)) == Split(sql)
    ensures forall k :: 0 <= k < |Split(sql).value| ==> Split(Split(sql).value[k]) == Ok([Split(sql).value[k]])
  {
    SplitYieldsStatements(sql);
    var ts := Split(sql).value;
    PrintedStatementsSplitBack(ts);
    forall k | 0 <= k < |ts|
      ensures Split(ts[k]) == Ok([ts[k]])
    {
      StatementSplitsToItself(ts[k]);
    }
  }

  // ----- The scanning loop -----

  /** The loop's variables that say where it stands: at most one of them is set. */
  datatype Flags = Flags(lineComment: bool, blockComment: bool, dollarTag: string, quote: string) {

    ghost predicate Valid() {
      && |quote| <= 1
      && (lineComment ==> !blockComment && dollarTag == "" && quote == "")
      && (blockComment ==> dollarTag == "" && quote == "")
      && (dollarTag != "" ==> quote == "")
      && ValidMode(Mode())
    }

    ghost function Mode(): Mode
      requires |quote| <= 1
    {
      if lineComment then LineComment
      else if blockComment then BlockComment
      else if dollarTag != "" then DollarBody(dollarTag)
      else if quote != "" then Quoted(quote[0])
      else Normal
    }
  }

  lemma StatementsAppend(pieces: seq<string>, p: string)
    ensures Statements(pieces + [p]) == Statements(pieces) + (if Strip(p) == "" then [] else [Strip(p)])
  {
    if pieces != [] {
      assert (pieces + [p])[1..] == pieces[1..] + [p];
      StatementsAppend(pieces[1..], p);
    } else {
      assert pieces + [p] == [p];
    }
  }

  /** The scan of the whole script: pieces already cut, the text since the last cut, and the scan of the rest. */
  ghost function Resumed(done: seq<string>, buffer: string, rest: Scan): Scan
    requires rest.pieces != []
  {
    Scan(done + Prepend(buffer, rest).pieces, rest.final)
  }

  lemma ResumedToken(done: seq<string>, buffer: string, t: string, rest: Scan)
    requires rest.pieces != []
    ensures Resumed(done, buffer, Prepend(t, rest)) == Resumed(done, buffer + t, rest)
  {
    PrependTwice(buffer, t, rest);
  }

  lemma ResumedCut(done: seq<string>, buffer: string, rest: Scan)
    requires rest.pieces != []
    ensures Resumed(done, buffer, Cut(rest)) == Resumed(done + [buffer], "", rest)
  {
    assert buffer + "" == buffer;
    assert "" + rest.pieces[0] == rest.pieces[0];
    assert Resumed(done, buffer, Cut(rest)).pieces == Resumed(done + [buffer], "", rest).pieces;
  }

  /** One turn of the loop, except at a semicolon that cuts: the text consumed and the new flags. */
  method ReadToken(text: string, flags: Flags) returns (token: string, flags': Flags)
    requires text != "" && flags.Valid() && !IsCut(flags.Mode(), text)
    ensures flags'.Valid() && token <= text
    ensures Next(flags.Mode(), text) == (flags'.Mode(), |token|)
  {
    var c := text[0];
    var Flags(lineComment, blockComment, dollarTag, quote) := flags;
    token := text[..1];
    if lineComment {
      if c == '\n' {
        lineComment := false;
      }
    } else if blockComment {
      if c == '*' && At(text, 1, '/') {
        token := text[..2];
        blockComment := false;
      }
    } else if dollarTag != "" {
      if dollarTag <= text {
        token := dollarTag;
        dollarTag := "";
      }
    } else if quote != "" {
      if c == quote[0] {
        if At(text, 1, quote[0]) {
          token := text[..2];
        } else {
          quote := "";
        }
      } else if c == '\\' && quote[0] == '\'' && |text| > 1 {
        token := text[..2];
      }
    } else if c == '-' && At(text, 1, '-') {
      token := text[..2];
      lineComment := true;
    } else if c == '/' && At(text, 1, '*') {
      token := text[..2];
      blockComment := true;
    } else if c == '\'' || c == '"' {
      quote := [c];
    } else if c == '$' {
      if TagLength(text) > 0 {
        TagLengthFindsTag(text);
        token := text[..TagLength(text)];
        dollarTag := token;
      }
    }
    flags' := Flags(lineComment, blockComment, dollarTag, quote);
  }

  /** The loop's invariant: what was consumed and what is left make up the scan of the whole script. */
  ghost predicate Tracks(scan: Scan, done: seq<string>, buffer: string, m: Mode, rest: string)
    requires ValidMode(m)
  {
    scan == Resumed(done, buffer, Lex(m, rest))
  }

  lemma TracksStart(sql: string)
    ensures Tracks(Lex(Normal, sql), [], "", Normal, sql)
  {
    var scan := Lex(Normal, sql);
    assert "" + scan.pieces[0] == scan.pieces[0];
    assert Resumed([], "", scan).pieces == scan.pieces;
  }

  lemma TracksCut(scan: Scan, done: seq<string>, buffer: string, rest: string)
    requires IsCut(Normal, rest) && Tracks(scan, done, buffer, Normal, rest)
    ensures Tracks(scan, done + [buffer], "", Normal, rest[1..])
  {
    LexCut(rest);
    ResumedCut(done, buffer, Lex(Normal, rest[1..]));
  }

  lemma TracksToken(scan: Scan, done: seq<string>, buffer: string, m: Mode, rest: string, token: string, m': Mode)
    requires ValidMode(m) && rest != "" && !IsCut(m, rest) && Tracks(scan, done, buffer, m, rest)
    requires Next(m, rest) == (m', |token|) && token <= rest
    ensures Tracks(scan, done, buffer + token, m', rest[|token|..])
  {
    assert rest[..|token|] == token;
    ResumedToken(done, buffer, token, Lex(m', rest[|token|..]));
  }

  lemma TracksEnd(scan: Scan, done: seq<string>, buffer: string, m: Mode)
    requires ValidMode(m) && Tracks(scan, done, buffer, m, "")
    ensures scan == Scan(done + [buffer], m)
  {
    assert buffer + "" == buffer;
    assert Prepend(buffer, Scan([""], m)).pieces == [buffer];
  }

  method SplitSqlStatements(sql: string) returns (r: Result<seq<string>, ScriptError>)
    ensures r == Split(sql)
  {
    var statements: seq<string>, buffer := [], "";
    var index, flags := 0, Flags(false, false, "", "");
    ghost var done: seq<string> := [];
    TracksStart(sql);
    assert sql[index..] == sql;
    while index < |sql|
      invariant 0 <= index <= |sql|
      invariant flags.Valid()
      invariant statements == Statements(done)
      invariant Tracks(Lex(Normal, sql), done, buffer, flags.Mode(), sql[index..])
    {
      ghost var rest := sql[index..];
      if flags == Flags(false, false, "", "") && sql[index] == ';' {
        var statement := Strip(buffer);
        if statement != "" {
          statements := statements + [statement];
        }
        StatementsAppend(done, buffer);
        TracksCut(Lex(Normal, sql), done, buffer, rest);
        done, buffer, index := done + [buffer], "", index + 1;
        assert rest[1..] == sql[index..];
      } else {
        var token, flags' := ReadToken(sql[index..], flags);
        TracksToken(Lex(Normal, sql), done, buffer, flags.Mode(), rest, token, flags'.Mode());
        buffer, index, flags := buffer + token, index + |token|, flags';
        assert rest[|token|..] == sql[index..];
      }
    }
    assert sql[index..] == "";
    TracksEnd(Lex(Normal, sql), done, buffer, flags.Mode());
    if flags.quote != "" || flags.dollarTag != "" || flags.blockComment {
      return Err(Unterminated);
    }
    var statement := Strip(buffer);
    if statement != "" {
      statements := statements + [statement];
    }
    StatementsAppend(done, buffer);
    assert statements == Statements(done + [buffer]);
    return Ok(statements);
  }
}

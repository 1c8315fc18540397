/**
 What the migration-script splitter recognizes, said without its lexer: a script is read as comments,
 literals, dollar bodies, semicolons and other characters, and is cut at the semicolons alone.
 */
module SqlSpans {
  import opened Outcomes
  import opened DollarTags
  import opened Text
  import opened SqlSplitter

  /** The last four can only end a script. */
  datatype Span =
    | Semicolon
    | Other(c: char)
    | Remark(t: string)
    | BlockRemark(t: string)
    | Literal(mark: char, t: string)
    | DollarText(tag: string, t: string)
    | OpenRemark(t: string)
    | OpenBlock(t: string)
    | OpenLiteral(mark: char, t: string)
    | OpenDollar(tag: string, t: string)

  function TextOf(span: Span): string {
    match span
    case Semicolon => ";"
    case Other(c) => [c]
    case Remark(t) => "--" + (t + "\n")
    case BlockRemark(t) => "/*" + (t + "*/")
    case Literal(mark, t) => [mark] + (t + [mark])
    case DollarText(tag, t) => tag + (t + tag)
    case OpenRemark(t) => "--" + t
    case OpenBlock(t) => "/*" + t
    case OpenLiteral(mark, t) => [mark] + t
    case OpenDollar(tag, t) => tag + t
  }

  function TextOfAll(spans: seq<Span>): string {
    if spans == [] then "" else TextOf(spans[0]) + TextOfAll(spans[1..])
  }

  predicate OccursAt(s: string, i: nat, x: string) {
    i <= |s| && x <= s[i..]
  }

  /** Nothing in front of position `n` is the beginning of an `x`. */
  predicate NoneBefore(s: string, n: nat, x: string) {
    forall i :: 0 <= i < n ==> !OccursAt(s, i, x)
  }

  /** A mark is written twice inside a literal, and a backslash in `'...'` takes the next character along. */
  predicate IsBody(mark: char, t: string) {
    t == ""
    || (if t[0] == mark || (t[0] == '\\' && mark == '\'')
        then |t| > 1 && (t[0] == mark ==> t[1] == mark) && IsBody(mark, t[2..])
        else IsBody(mark, t[1..]))
  }

  /** A body without its closing mark: a backslash at the very end has nothing to take along. */
  predicate IsOpenBody(mark: char, t: string) {
    IsBody(mark, t) || (mark == '\'' && t != "" && t[|t| - 1] == '\\' && IsBody(mark, t[..|t| - 1]))
  }

  predicate IsMark(c: char) { c == '\'' || c == '"' }

  /** What a span may be when `rest` comes after it. */
  ghost predicate Stands(span: Span, rest: string) {
    match span
    case Semicolon => true
    case Other(c) =>
      && c != ';' && !IsMark(c) && !("--" <= [c] + rest) && !("/*" <= [c] + rest)
      && forall k :: 0 <= k <= |[c] + rest| ==> !IsTag(([c] + rest)[..k])
    case Remark(t) => '\n' !in t
    case BlockRemark(t) => NoneBefore(t + "*/", |t|, "*/")
    case Literal(mark, t) => IsMark(mark) && IsBody(mark, t) && !([mark] <= rest)
    case DollarText(tag, t) => IsTag(tag) && NoneBefore(t + tag, |t|, tag)
    case OpenRemark(t) => rest == "" && '\n' !in t
    case OpenBlock(t) => rest == "" && NoneBefore(t, |t|, "*/")
    case OpenLiteral(mark, t) =>
      rest == "" && IsMark(mark) && IsOpenBody(mark, t)
    case OpenDollar(tag, t) => rest == "" && IsTag(tag) && NoneBefore(t, |t|, tag)
  }

  ghost predicate IsReading(spans: seq<Span>) {
    forall k :: 0 <= k < |spans| ==> Stands(spans[k], TextOfAll(spans[k + 1..]))
  }

  /** The text between the semicolons that are spans of their own. */
  function Between(spans: seq<Span>): (pieces: seq<string>)
    ensures pieces != []
  {
    if spans == [] then [""]
    else
      var rest := Between(spans[1..]);
      if spans[0].Semicolon? then [""] + rest else [TextOf(spans[0]) + rest[0]] + rest[1..]
  }

  /** The script ends in an open literal, dollar body or block comment; an open line comment is no fault. */
  predicate IsUnfinished(spans: seq<Span>) {
    spans != [] && var last := spans[|spans| - 1]; last.OpenBlock? || last.OpenLiteral? || last.OpenDollar?
  }

  // ----- The lexer inside a span -----

  /** One character that keeps the mode. */
  lemma OneKept(m: Mode, s: string, scan: Scan, t: string)
    requires ValidMode(m) && t != "" && s != "" && !IsCut(m, s) && Next(m, s) == (m, 1) && t[0] == s[0]
    requires scan.pieces != [] && Lex(m, s[1..]) == Prepend(t[1..], scan)
    ensures Lex(m, s) == Prepend(t, scan)
  {
    LexToken(m, s);
    PrependTwice(s[..1], t[1..], scan);
    assert s[..1] + t[1..] == t;
  }

  lemma {:induction false} RemarkEnds(t: string, rest: string)
    requires '\n' !in t
    ensures Lex(LineComment, t + "\n" + rest) == Prepend(t + "\n", Lex(Normal, rest))
  {
    var s := t + "\n" + rest;
    if t == "" {
      assert s[..1] == "\n" && s[1..] == rest;
      LexToken(LineComment, s);
    } else {
      RemarkEnds(t[1..], rest);
      assert s[1..] == t[1..] + "\n" + rest;
      assert (t + "\n")[1..] == t[1..] + "\n";
      OneKept(LineComment, s, Lex(Normal, rest), t + "\n");
    }
  }

  lemma LaterOccurrence(s: string, i: nat, x: string)
    requires s != ""
    ensures OccursAt(s[1..], i, x) == OccursAt(s, i + 1, x)
  {
    if i + 1 <= |s| {
      assert s[1..][i..] == s[i + 1..];
    }
  }

  lemma NoneLater(s: string, n: nat, x: string)
    requires n > 0 && s != "" && NoneBefore(s, n, x)
    ensures NoneBefore(s[1..], n - 1, x) && !(x <= s)
  {
    assert s[0..] == s;
    assert !OccursAt(s, 0, x);
    forall i | 0 <= i < n - 1
      ensures !OccursAt(s[1..], i, x)
    {
      LaterOccurrence(s, i, x);
    }
  }

  lemma {:induction false} BlockEnds(t: string, rest: string)
    requires NoneBefore(t + "*/", |t|, "*/")
    ensures Lex(BlockComment, t + "*/" + rest) == Prepend(t + "*/", Lex(Normal, rest))
  {
    var s, u := t + "*/" + rest, t + "*/";
    if t == "" {
      assert s[..2] == "*/" && s[2..] == rest && s[1] == '/';
      LexToken(BlockComment, s);
    } else {
      NoneLater(u, |t|, "*/");
      assert u[1..] == t[1..] + "*/" && s[1..] == t[1..] + "*/" + rest;
      BlockEnds(t[1..], rest);
      assert s[0] == u[0] && s[1] == u[1];
      OneKept(BlockComment, s, Lex(Normal, rest), u);
    }
  }

  /** Within `t + tag` the tag stands where it stands in any longer text. */
  lemma TagIsLocal(u: string, tag: string, rest: string)
    requires |tag| <= |u|
    ensures tag <= u + rest <==> tag <= u
  {
    assert (u + rest)[..|tag|] == u[..|tag|];
  }

  lemma {:induction false} DollarEnds(tag: string, t: string, rest: string)
    requires IsTag(tag) && NoneBefore(t + tag, |t|, tag)
    ensures Lex(DollarBody(tag), t + tag + rest) == Prepend(t + tag, Lex(Normal, rest))
  {
    var m, s, u := DollarBody(tag), t + tag + rest, t + tag;
    if t == "" {
      assert u == tag && s[..|tag|] == tag && s[|tag|..] == rest;
      LexToken(m, s);
    } else {
      NoneLater(u, |t|, tag);
      TagIsLocal(u, tag, rest);
      assert u[1..] == t[1..] + tag && s[1..] == t[1..] + tag + rest;
      DollarEnds(tag, t[1..], rest);
      OneKept(m, s, Lex(Normal, rest), u);
    }
  }

  /** Two characters that keep the mode. */
  lemma TwoKept(m: Mode, s: string, scan: Scan, t: string)
    requires ValidMode(m) && |t| > 1 && |s| > 1 && !IsCut(m, s) && Next(m, s) == (m, 2) && t[..2] == s[..2]
    requires scan.pieces != [] && Lex(m, s[2..]) == Prepend(t[2..], scan)
    ensures Lex(m, s) == Prepend(t, scan)
  {
    LexToken(m, s);
    PrependTwice(s[..2], t[2..], scan);
    assert s[..2] + t[2..] == t;
  }

  lemma MarkEnds(mark: char, rest: string)
    requires IsMark(mark) && !([mark] <= rest)
    ensures Lex(Quoted(mark), [mark] + rest) == Prepend([mark], Lex(Normal, rest))
  {
    var s := [mark] + rest;
    assert s[..1] == [mark] && s[1..] == rest;
    assert rest != "" ==> s[1] == rest[0];
    LexToken(Quoted(mark), s);
  }

  /** The first one or two characters of a body keep the mode. */
  lemma BodyStep(mark: char, s: string, n: nat, u: string, scan: Scan)
    requires IsMark(mark) && |s| > 1 && n <= |u|
             && n == (if s[0] == mark || (s[0] == '\\' && mark == '\'') then 2 else 1)
    requires (s[0] == mark ==> s[1] == mark) && u[..n] == s[..n]
    requires scan.pieces != [] && Lex(Quoted(mark), s[n..]) == Prepend(u[n..], scan)
    ensures Lex(Quoted(mark), s) == Prepend(u, scan)
  {
    assert u[0] == u[..n][0] && s[0] == s[..n][0];
    if n == 2 {
      TwoKept(Quoted(mark), s, scan, u);
    } else {
      OneKept(Quoted(mark), s, scan, u);
    }
  }

  lemma SlicesOf(t: string, mark: string, rest: string, n: nat)
    requires 1 <= n <= 2 && n <= |t|
    ensures var s, u := t + mark + rest, t + mark;
            && s[n..] == t[n..] + mark + rest && u[n..] == t[n..] + mark && u[..n] == s[..n]
            && s[0] == t[0] && (n == 2 ==> s[1] == t[1])
  {
    var s, u := t + mark + rest, t + mark;
    assert u[..n] == t[..n] && s[..n] == t[..n];
  }

  lemma {:induction false} LiteralEnds(mark: char, t: string, rest: string)
    requires IsMark(mark) && IsBody(mark, t) && !([mark] <= rest)
    ensures Lex(Quoted(mark), t + [mark] + rest) == Prepend(t + [mark], Lex(Normal, rest))
    decreases |t|
  {
    if t == "" {
      MarkEnds(mark, rest);
      assert t + [mark] == [mark];
    } else {
      var n := if t[0] == mark || (t[0] == '\\' && mark == '\'') then 2 else 1;
      var s, u := t + [mark] + rest, t + [mark];
      LiteralEnds(mark, t[n..], rest);
      SlicesOf(t, [mark], rest, n);
      BodyStep(mark, s, n, u, Lex(Normal, rest));
    }
  }

  // ----- The lexer at the end of a script -----

  lemma EmptyScan(m: Mode)
    requires ValidMode(m)
    ensures Lex(m, "") == Prepend("", Scan([""], m))
  {
    assert "" + "" == "";
  }

  lemma {:induction false} RemarkStays(t: string)
    requires '\n' !in t
    ensures Lex(LineComment, t) == Prepend(t, Scan([""], LineComment))
  {
    if t == "" {
      EmptyScan(LineComment);
    } else {
      RemarkStays(t[1..]);
      OneKept(LineComment, t, Scan([""], LineComment), t);
    }
  }

  lemma {:induction false} BlockStays(t: string)
    requires NoneBefore(t, |t|, "*/")
    ensures Lex(BlockComment, t) == Prepend(t, Scan([""], BlockComment))
  {
    if t == "" {
      EmptyScan(BlockComment);
    } else {
      NoneLater(t, |t|, "*/");
      BlockStays(t[1..]);
      OneKept(BlockComment, t, Scan([""], BlockComment), t);
    }
  }

  lemma {:induction false} DollarStays(tag: string, t: string)
    requires IsTag(tag) && NoneBefore(t, |t|, tag)
    ensures Lex(DollarBody(tag), t) == Prepend(t, Scan([""], DollarBody(tag)))
  {
    if t == "" {
      EmptyScan(DollarBody(tag));
    } else {
      NoneLater(t, |t|, tag);
      DollarStays(tag, t[1..]);
      OneKept(DollarBody(tag), t, Scan([""], DollarBody(tag)), t);
    }
  }

  lemma {:induction false} LiteralStays(mark: char, t: string)
    requires IsMark(mark) && IsOpenBody(mark, t)
    ensures Lex(Quoted(mark), t) == Prepend(t, Scan([""], Quoted(mark)))
    decreases |t|
  {
    var m := Quoted(mark);
    if t == "" {
      EmptyScan(m);
    } else if t == "\\" && mark == '\'' {
      EmptyScan(m);
      OneKept(m, t, Scan([""], m), t);
    } else if t[0] == mark || (t[0] == '\\' && mark == '\'') {
      OpenBodyRest(mark, t);
      LiteralStays(mark, t[2..]);
      TwoKept(m, t, Scan([""], m), t);
    } else {
      OpenBodyRest(mark, t);
      LiteralStays(mark, t[1..]);
      OneKept(m, t, Scan([""], m), t);
    }
  }

  lemma OpenBodyRest(mark: char, t: string)
    requires IsMark(mark) && IsOpenBody(mark, t) && t != "" && !(t == "\\" && mark == '\'')
    ensures var pair := t[0] == mark || (t[0] == '\\' && mark == '\'');
            && (pair ==> |t| > 1 && (t[0] == mark ==> t[1] == mark) && IsOpenBody(mark, t[2..]))
            && (!pair ==> IsOpenBody(mark, t[1..]))
  {
    if !IsBody(mark, t) {
      var init := t[..|t| - 1];
      assert init[0] == t[0];
      if |init| > 1 {
        assert init[1] == t[1];
        assert t[2..] != "" ==> init[2..] == t[2..][..|t[2..]| - 1];
      }
      assert init[1..] == t[1..][..|t[1..]| - 1];
    }
  }

  // ----- Each span is one token -----

  /** The mode that a script ends in after a span that can only end a script. */
  function OpenMode(span: Span): Mode {
    match span
    case OpenRemark(_) => LineComment
    case OpenBlock(_) => BlockComment
    case OpenLiteral(mark, _) => Quoted(mark)
    case OpenDollar(tag, _) => DollarBody(tag)
    case _ => Normal
  }

  predicate IsLast(span: Span) { span.OpenRemark? || span.OpenBlock? || span.OpenLiteral? || span.OpenDollar? }

  /** The opening token of a span, and the scan of what follows it. */
  lemma Opens(open: string, m: Mode, body: string, t: string, scan: Scan)
    requires ValidMode(m) && open != ""
    requires Next(Normal, open + body) == (m, |open|) && !IsCut(Normal, open + body)
    requires scan.pieces != [] && Lex(m, body) == Prepend(t, scan)
    ensures Lex(Normal, open + body) == Prepend(open + t, scan)
  {
    var s := open + body;
    LexToken(Normal, s);
    assert s[..|open|] == open && s[|open|..] == body;
    PrependTwice(open, t, scan);
  }

  lemma DollarOpens(tag: string, x: string)
    requires IsTag(tag)
    ensures tag + x != "" && Next(Normal, tag + x) == (DollarBody(tag), |tag|) && !IsCut(Normal, tag + x)
  {
    var s := tag + x;
    assert s[..|tag|] == tag && s[0] == '$';
    TagLengthFindsTag(s);
    TagsArePrefixFree(s, |tag|, TagLength(s));
  }

  lemma RemarkReads(t: string, rest: string)
    requires Stands(Remark(t), rest)
    ensures Lex(Normal, "--" + (t + "\n") + rest) == Prepend("--" + (t + "\n"), Lex(Normal, rest))
  {
    var s, body := "--" + (t + "\n") + rest, t + "\n" + rest;
    RemarkEnds(t, rest);
    assert s == "--" + body;
    Opens("--", LineComment, body, t + "\n", Lex(Normal, rest));
  }

  lemma BlockReads(t: string, rest: string)
    requires Stands(BlockRemark(t), rest)
    ensures Lex(Normal, "/*" + (t + "*/") + rest) == Prepend("/*" + (t + "*/"), Lex(Normal, rest))
  {
    var s, body := "/*" + (t + "*/") + rest, t + "*/" + rest;
    BlockEnds(t, rest);
    assert s == "/*" + body;
    Opens("/*", BlockComment, body, t + "*/", Lex(Normal, rest));
  }

  lemma LiteralReads(mark: char, t: string, rest: string)
    requires Stands(Literal(mark, t), rest)
    ensures Lex(Normal, [mark] + (t + [mark]) + rest) == Prepend([mark] + (t + [mark]), Lex(Normal, rest))
  {
    var s, body := [mark] + (t + [mark]) + rest, t + [mark] + rest;
    LiteralEnds(mark, t, rest);
    assert s == [mark] + body;
    Opens([mark], Quoted(mark), body, t + [mark], Lex(Normal, rest));
  }

  lemma DollarReads(tag: string, t: string, rest: string)
    requires Stands(DollarText(tag, t), rest)
    ensures Lex(Normal, tag + (t + tag) + rest) == Prepend(tag + (t + tag), Lex(Normal, rest))
  {
    var s, body := tag + (t + tag) + rest, t + tag + rest;
    DollarEnds(tag, t, rest);
    assert s == tag + body;
    DollarOpens(tag, body);
    Opens(tag, DollarBody(tag), body, t + tag, Lex(Normal, rest));
  }

  lemma OtherReads(span: Span, rest: string)
    requires Stands(span, rest) && span.Other?
    ensures Lex(Normal, TextOf(span) + rest) == Prepend(TextOf(span), Lex(Normal, rest))
  {
    var s := [span.c] + rest;
    TagLengthFindsTag(s);
    assert s[..TagLength(s)] == s[..TagLength(s)];
    assert s[1..] == rest && s[..1] == [span.c];
    assert At(s, 1, '-') && s[0] == '-' ==> "--" <= s;
    assert At(s, 1, '*') && s[0] == '/' ==> "/*" <= s;
    LexToken(Normal, s);
  }

  /** A comment, a literal, a dollar body or another character is read as a whole, whatever it contains. */
  lemma SpanIsWhole(span: Span, rest: string)
    requires Stands(span, rest) && !IsLast(span) && !span.Semicolon?
    ensures Lex(Normal, TextOf(span) + rest) == Prepend(TextOf(span), Lex(Normal, rest))
  {
    match span
    case Other(_) => OtherReads(span, rest);
    case Remark(t) => RemarkReads(t, rest);
    case BlockRemark(t) => BlockReads(t, rest);
    case Literal(mark, t) => LiteralReads(mark, t, rest);
    case DollarText(tag, t) => DollarReads(tag, t, rest);
  }

  lemma OpenScan(open: string, t: string, m: Mode, scan: Scan)
    requires scan == Prepend(open + t, Scan([""], m))
    ensures scan == Scan([open + t], m)
  {
    assert (open + t) + "" == open + t;
  }

  lemma LastIsWhole(span: Span)
    requires Stands(span, "") && IsLast(span)
    ensures Lex(Normal, TextOf(span)) == Scan([TextOf(span)], OpenMode(span))
  {
    var m := OpenMode(span);
    match span
    case OpenRemark(t) =>
      RemarkStays(t);
      Opens("--", m, t, t, Scan([""], m));
      OpenScan("--", t, m, Lex(Normal, "--" + t));
    case OpenBlock(t) =>
      BlockStays(t);
      Opens("/*", m, t, t, Scan([""], m));
      OpenScan("/*", t, m, Lex(Normal, "/*" + t));
    case OpenLiteral(mark, t) =>
      LiteralStays(mark, t);
      Opens([mark], m, t, t, Scan([""], m));
      OpenScan([mark], t, m, Lex(Normal, [mark] + t));
    case OpenDollar(tag, t) =>
      DollarStays(tag, t);
      DollarOpens(tag, t);
      Opens(tag, m, t, t, Scan([""], m));
      OpenScan(tag, t, m, Lex(Normal, tag + t));
  }

  // ----- Splitting by spans -----

  lemma ReadingRest(spans: seq<Span>)
    requires IsReading(spans) && spans != []
    ensures Stands(spans[0], TextOfAll(spans[1..])) && IsReading(spans[1..])
  {
    assert spans[0 + 1..] == spans[1..];
    var rest := spans[1..];
    forall k | 0 <= k < |rest|
      ensures Stands(rest[k], TextOfAll(rest[k + 1..]))
    {
      assert rest[k] == spans[k + 1] && rest[k + 1..] == spans[k + 1 + 1..];
    }
  }

  lemma TextIsNotEmpty(span: Span)
    requires span.DollarText? || span.OpenDollar? ==> IsTag(span.tag)
    ensures TextOf(span) != ""
  {
  }

  lemma LastIsAlone(spans: seq<Span>)
    requires IsReading(spans) && spans != [] && IsLast(spans[0])
    ensures spans == [spans[0]]
  {
    ReadingRest(spans);
    if |spans| > 1 {
      MoreIsNotEmpty(spans[1..]);
      assert false;
    }
  }

  lemma MoreIsNotEmpty(spans: seq<Span>)
    requires IsReading(spans) && spans != []
    ensures TextOfAll(spans) != ""
  {
    ReadingRest(spans);
    TextIsNotEmpty(spans[0]);
  }

  /** The mode at the end of a script that is read so. */
  function FinalMode(spans: seq<Span>): Mode {
    if spans == [] then Normal else OpenMode(spans[|spans| - 1])
  }

  /** The lexer cuts at the semicolons that are spans, and nowhere else. */
  lemma {:induction false} LexReads(spans: seq<Span>)
    requires IsReading(spans)
    ensures Lex(Normal, TextOfAll(spans)) == Scan(Between(spans), FinalMode(spans))
  {
    if spans != [] {
      var first, rest := spans[0], spans[1..];
      ReadingRest(spans);
      LexReads(rest);
      if IsLast(first) {
        LastIsAlone(spans);
        LastIsWhole(first);
        assert TextOf(first) + "" == TextOf(first);
      } else {
        assert rest != [] ==> rest[|rest| - 1] == spans[|spans| - 1];
        FirstReads(first, TextOfAll(rest), Scan(Between(rest), FinalMode(rest)));
      }
    }
  }

  lemma FirstReads(first: Span, rest: string, scan: Scan)
    requires Stands(first, rest) && !IsLast(first) && scan == Lex(Normal, rest)
    ensures Lex(Normal, TextOf(first) + rest) == if first.Semicolon? then Cut(scan) else Prepend(TextOf(first), scan)
  {
    if first.Semicolon? {
      assert (";" + rest)[1..] == rest;
      LexCut(";" + rest);
    } else {
      SpanIsWhole(first, rest);
    }
  }

  /** The non-empty stripped pieces, in order. */
  function Stripped(pieces: seq<string>): seq<string> {
    if pieces == [] then []
    else
      var last := Strip(pieces[|pieces| - 1]);
      Stripped(pieces[..|pieces| - 1]) + if last == "" then [] else [last]
  }

  lemma {:induction false} StatementsAreStripped(pieces: seq<string>)
    ensures Statements(pieces) == Stripped(pieces)
  {
    if pieces != [] {
      var init, last := pieces[..|pieces| - 1], pieces[|pieces| - 1];
      StatementsAreStripped(init);
      assert pieces == init + [last];
      StatementsAppend(init, last);
    }
  }

  /**
   However a script is read as spans, splitting gives the stripped, non-empty texts between its
   semicolons; it fails exactly when the script ends in an open literal, dollar body or block comment.
   */
  lemma SplitReads(spans: seq<Span>)
    requires IsReading(spans)
    ensures Split(TextOfAll(spans)) == if IsUnfinished(spans) then Err(Unterminated) else Ok(Stripped(Between(spans)))
  {
    LexReads(spans);
    StatementsAreStripped(Between(spans));
  }

  // ----- Every script can be read -----

  /** The first place where `x` occurs, or the length of the text. */
  lemma {:induction false} FirstOccurrence(s: string, x: string) returns (n: nat)
    requires x != ""
    ensures n <= |s| && NoneBefore(s, n, x) && (n < |s| ==> OccursAt(s, n, x))
  {
    if s == "" || x <= s {
      assert s[0..] == s;
      n := 0;
    } else {
      var later := FirstOccurrence(s[1..], x);
      n := later + 1;
      forall i | 0 <= i < n
        ensures !OccursAt(s, i, x)
      {
        if i == 0 {
          assert s[0..] == s;
        } else {
          LaterOccurrence(s, i - 1, x);
        }
      }
      LaterOccurrence(s, later, x);
    }
  }

  /** What stands before the first end mark is the body of the span, however the text goes on. */
  lemma CutAtOccurrence(s: string, n: nat, x: string) returns (t: string, rest: string)
    requires n <= |s| && x != "" && NoneBefore(s, n, x) && OccursAt(s, n, x)
    ensures s == t + x + rest && t == s[..n] && NoneBefore(t + x, |t|, x)
  {
    t, rest := s[..n], s[n + |x|..];
    assert s[n..][..|x|] == x;
    var u := t + x;
    assert s == u + rest;
    forall i | 0 <= i < |t|
      ensures !OccursAt(u, i, x)
    {
      if OccursAt(u, i, x) {
        assert u[i..] <= s[i..];
        assert OccursAt(s, i, x);
      }
    }
  }

  lemma ReadRemark(x: string) returns (span: Span, rest: string)
    ensures "--" + x == TextOf(span) + rest && Stands(span, rest) && |rest| < |x| + 2
  {
    var n := FirstOccurrence(x, "\n");
    if n < |x| {
      var t;
      t, rest := CutAtOccurrence(x, n, "\n");
      NewlineFree(t + "\n", |t|);
      assert forall i :: 0 <= i < |t| ==> (t + "\n")[i] == t[i];
      span := Remark(t);
    } else {
      NewlineFree(x, |x|);
      span, rest := OpenRemark(x), "";
    }
  }

  lemma NewlineFree(s: string, n: nat)
    requires n <= |s| && NoneBefore(s, n, "\n")
    ensures forall i :: 0 <= i < n ==> s[i] != '\n'
  {
    forall i | 0 <= i < n
      ensures s[i] != '\n'
    {
      assert !OccursAt(s, i, "\n");
      assert s[i..][0] == s[i];
    }
  }

  lemma ReadBlock(x: string) returns (span: Span, rest: string)
    ensures "/*" + x == TextOf(span) + rest && Stands(span, rest) && |rest| < |x| + 2
  {
    var n := FirstOccurrence(x, "*/");
    if n < |x| {
      var t;
      t, rest := CutAtOccurrence(x, n, "*/");
      span := BlockRemark(t);
    } else {
      span, rest := OpenBlock(x), "";
    }
  }

  lemma ReadDollar(tag: string, x: string) returns (span: Span, rest: string)
    requires IsTag(tag)
    ensures tag + x == TextOf(span) + rest && Stands(span, rest) && |rest| < |tag + x|
  {
    var n := FirstOccurrence(x, tag);
    if n < |x| {
      var t;
      t, rest := CutAtOccurrence(x, n, tag);
      span := DollarText(tag, t);
    } else {
      span, rest := OpenDollar(tag, x), "";
    }
  }

  /** A literal's body ends at the first single mark, if there is one. */
  lemma {:induction false} ReadBody(mark: char, x: string) returns (t: string, rest: string)
    requires IsMark(mark)
    ensures x == t + rest
    ensures rest == "" ==> IsOpenBody(mark, t)
    ensures rest != "" ==> IsBody(mark, t) && rest[0] == mark && !([mark] <= rest[1..])
    decreases |x|
  {
    if x == "" {
      t, rest := "", "";
    } else if x[0] == mark && !At(x, 1, mark) {
      t, rest := "", x;
    } else if x == "\\" && mark == '\'' {
      t, rest := x, "";
      assert t[..0] == "";
    } else {
      var n := if x[0] == mark || (x[0] == '\\' && mark == '\'') then 2 else 1;
      var more;
      more, rest := ReadBody(mark, x[n..]);
      t := x[..n] + more;
      assert t[n..] == more && t[0] == x[0] && (n == 2 ==> t[1] == x[1]);
      if !IsBody(mark, more) {
        var init := t[..|t| - 1];
        assert init[n..] == more[..|more| - 1] && init[0] == t[0] && (n == 2 ==> init[1] == t[1]);
        assert t[|t| - 1] == more[|more| - 1];
      }
    }
  }

  lemma ReadLiteral(mark: char, x: string) returns (span: Span, rest: string)
    requires IsMark(mark)
    ensures [mark] + x == TextOf(span) + rest && Stands(span, rest) && |rest| < |x| + 1
  {
    var t, tail := ReadBody(mark, x);
    if tail == "" {
      assert x == t;
      span, rest := OpenLiteral(mark, x), "";
    } else {
      span, rest := Literal(mark, t), tail[1..];
      assert tail == [mark] + rest;
      RegroupLiteral(mark, t, rest);
    }
  }

  lemma RegroupLiteral(mark: char, t: string, rest: string)
    ensures [mark] + (t + ([mark] + rest)) == [mark] + (t + [mark]) + rest
  {
  }

  /** What a script begins with. */
  lemma ReadOne(s: string) returns (span: Span, rest: string)
    requires s != ""
    ensures s == TextOf(span) + rest && Stands(span, rest) && |rest| < |s|
  {
    if s[0] == ';' {
      span, rest := Semicolon, s[1..];
    } else if IsMark(s[0]) {
      span, rest := ReadLiteral(s[0], s[1..]);
      assert s == [s[0]] + s[1..];
    } else if "--" <= s {
      span, rest := ReadRemark(s[2..]);
      assert s == "--" + s[2..];
    } else if "/*" <= s {
      span, rest := ReadBlock(s[2..]);
      assert s == "/*" + s[2..];
    } else if k: nat :| k <= |s| && IsTag(s[..k]) {
      span, rest := ReadDollar(s[..k], s[k..]);
      assert s == s[..k] + s[k..];
    } else {
      span, rest := Other(s[0]), s[1..];
      assert s == [s[0]] + s[1..];
    }
  }

  /** Every script can be read as spans. */
  lemma {:induction false} EveryScriptIsRead(s: string) returns (spans: seq<Span>)
    ensures TextOfAll(spans) == s && IsReading(spans)
    decreases |s|
  {
    if s == "" {
      spans := [];
    } else {
      var first, tail := ReadOne(s);
      var rest := EveryScriptIsRead(tail);
      spans := [first] + rest;
      assert spans[1..] == rest;
      forall k | 0 <= k < |spans|
        ensures Stands(spans[k], TextOfAll(spans[k + 1..]))
      {
        if k > 0 {
          assert spans[k] == rest[k - 1] && spans[k + 1..] == rest[k - 1 + 1..];
        }
      }
    }
  }
}

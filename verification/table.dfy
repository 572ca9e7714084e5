/** `append_table` (pytextools/__init__.py lines 123-215): a table body
    wrapped in nested environments, with optional caption, label, font and
    centering lines and a notes block.

    The function is modelled twice.  `Writes` follows the source statement
    by statement, one string per `file.write`; `Layout` describes the same
    output as a sequence of structural pieces (environment openers and
    closers, directives, the caption line, the body, the notes).  The
    lemma `WritesMatchLayout` connects the two, and the structural facts
    (balanced environments, placement of caption and body) are proved about
    `Layout`. */
module Table {
  import opened PyFormat
  import opened Captions

  /** The arguments of `append_table` other than the file handle and the
      table itself; the body is the string `df.to_latex` returns. */
  datatype TableCall = TableCall(
    small: bool,
    sideways: bool,
    centering: bool,
    loc: string,
    caption: Option<string>,
    captionAbove: bool,
    lab: Option<string>,
    threePartTable: bool,
    notes: string)

  /** A call that passes only the table: `small`, placed `[htp]`, caption
      above, no `threeparttable` and empty notes (lines 123-125). */
  function DefaultTable(): TableCall {
    TableCall(true, false, false, "[htp]", None, true, None, false, "")
  }

  /** The test at line 160, `tablenotes is not None or tablenotes != ""`,
      over the Python value of `tablenotes` (`None` is `Option.None`). */
  predicate OverrideCondition(notes: Option<string>) {
    notes != None || notes != Some("")
  }

  /** A disjunction of "is not X" and "is not Y" holds for every value. */
  lemma OverrideAlwaysHolds(notes: Option<string>)
    ensures OverrideCondition(notes)
  {
  }

  /** Lines 160-162 as written: the override fires for every call. */
  function Normalize(o: TableCall): (n: TableCall)
    ensures n.threePartTable && n.captionAbove
    ensures n.(threePartTable := o.threePartTable, captionAbove := o.captionAbove) == o
  {
    if OverrideCondition(Some(o.notes)) then
      o.(threePartTable := true, captionAbove := true)
    else
      o
  }

  /** The template `\\begin{{table}}{0}\n` of line 169. */
  function TableBegin(p: Tokens): Tokens {
    p.Add(Text("\\begin")).Add(LeftBrace).Add(Text("table")).Add(RightBrace).Add(Field(0)).Add(Text("\n"))
  }

  lemma TableBeginSource(p: Tokens)
    ensures Source(TableBegin(p)) == Source(p) + "\\begin" + "{{" + "table" + "}}" + "{0}" + "\n"
  {
    assert TokenSource(Field(0)) == "{0}";
    var t1 := p.Add(Text("\\begin"));
    var t2 := t1.Add(LeftBrace);
    var t3 := t2.Add(Text("table"));
    var t4 := t3.Add(RightBrace);
    var t5 := t4.Add(Field(0));
    var t6 := t5.Add(Text("\n"));
    assert TableBegin(p) == t6;
    assert Source(t1) == Source(p) + "\\begin";
    assert Source(t2) == Source(p) + "\\begin" + "{{";
    assert Source(t3) == Source(p) + "\\begin" + "{{" + "table";
    assert Source(t4) == Source(p) + "\\begin" + "{{" + "table" + "}}";
    assert Source(t5) == Source(p) + "\\begin" + "{{" + "table" + "}}" + "{0}";
    assert Source(t6) == Source(p) + "\\begin" + "{{" + "table" + "}}" + "{0}" + "\n";
  }

  lemma TableBeginExpand(p: Tokens, a: seq<string>)
    requires WellFormed(p, 1) && |a| == 1
    ensures WellFormed(TableBegin(p), 1)
    ensures Expand(TableBegin(p), a) == Expand(p, a) + "\\begin" + "{" + "table" + "}" + a[0] + "\n"
  {
    var t1 := p.Add(Text("\\begin"));
    var t2 := t1.Add(LeftBrace);
    var t3 := t2.Add(Text("table"));
    var t4 := t3.Add(RightBrace);
    var t5 := t4.Add(Field(0));
    var t6 := t5.Add(Text("\n"));
    assert TableBegin(p) == t6;
    assert WellFormed(t1, 1);
    assert WellFormed(t2, 1);
    assert WellFormed(t3, 1);
    assert WellFormed(t4, 1);
    assert WellFormed(t5, 1);
    assert WellFormed(t6, 1);
    assert Expand(t1, a) == Expand(p, a) + "\\begin";
    assert Expand(t2, a) == Expand(p, a) + "\\begin" + "{";
    assert Expand(t3, a) == Expand(p, a) + "\\begin" + "{" + "table";
    assert Expand(t4, a) == Expand(p, a) + "\\begin" + "{" + "table" + "}";
    assert Expand(t5, a) == Expand(p, a) + "\\begin" + "{" + "table" + "}" + a[0];
    assert Expand(t6, a) == Expand(p, a) + "\\begin" + "{" + "table" + "}" + a[0] + "\n";
  }

  const TableBeginTemplate: string := "\\begin{{table}}{0}\n"

  lemma TableBeginTemplateSource()
    ensures Source(TableBegin(Start)) == TableBeginTemplate
  {
    TableBeginSource(Start);
  }

  lemma TableBeginFromStart(loc: string)
    ensures WellFormed(TableBegin(Start), 1)
    ensures Expand(TableBegin(Start), [loc]) == "\\begin{table}" + loc + "\n"
    ensures Format(Source(TableBegin(Start)), [loc]) == Ok(Expand(TableBegin(Start), [loc]))
  {
    TableBeginExpand(Start, [loc]);
    FormatSource(TableBegin(Start), [loc]);
  }

  lemma TableBeginFormat(loc: string)
    ensures Format(TableBeginTemplate, [loc]) == Ok("\\begin{table}" + loc + "\n")
  {
    TableBeginFromStart(loc);
    TableBeginTemplateSource();
  }

  /** The opening line of a table that is not turned sideways. */
  function TableOpening(loc: string): (r: string)
    ensures r == "\\begin{table}" + loc + "\n"
  {
    TableBeginFormat(loc);
    Format(TableBeginTemplate, [loc]).text
  }

  // What `append_table` passes to `file.write`, in order, for flags that
  // have already been through the override, grouped by source lines.

  /** Lines 164-169. */
  function OpeningWrites(o: TableCall): seq<string> {
    if o.sideways then
      ["\\begin{turn}{90}\n", "\\begin{minipage}{0.9\\textheight}\n", "\\begin{table}[H]\n"]
    else
      [TableOpening(o.loc)]
  }

  /** Lines 171-178. */
  function PreambleWrites(o: TableCall): seq<string> {
    (if o.centering then ["\\centering\n"] else [])
    + (if o.threePartTable then ["\\begin{threeparttable}\n"] else [])
    + (if o.small then ["\\small\n"] else [])
  }

  /** Lines 180-200: `cap` then `lab + '\n'`, before or after the body. */
  function ContentWrites(o: TableCall, body: string): seq<string> {
    var cap := CaptionSegment(o.caption);
    var lab := LabelSegment(TableLabel, o.lab);
    (if o.captionAbove then [cap, lab + "\n"] else [])
    + [body]
    + (if !o.captionAbove then [cap, lab + "\n"] else [])
  }

  /** Lines 202-207. */
  function NotesWrites(o: TableCall): seq<string> {
    if o.threePartTable then
      ["\\begin{tablenotes}\n", o.notes, "\n", "\\end{tablenotes}\n", "\\end{threeparttable}\n"]
    else
      []
  }

  /** Lines 209-215; the `\end{table}` line has no line break of its own. */
  function ClosingWrites(o: TableCall): seq<string> {
    ["\\end{table}"]
    + (if o.sideways then ["\\end{minipage}\n", "\\end{turn}\n"] else [])
    + ["\n\n"]
  }

  function Writes(o: TableCall, body: string): seq<string> {
    OpeningWrites(o) + PreambleWrites(o) + ContentWrites(o, body) + NotesWrites(o) + ClosingWrites(o)
  }

  /** The file contents the writes add up to. */
  function Concat(ws: seq<string>): (r: string)
    ensures |r| == SumLengths(ws)
  {
    if ws == [] then "" else ws[0] + Concat(ws[1..])
  }

  function SumLengths(ws: seq<string>): nat {
    if ws == [] then 0 else |ws[0]| + SumLengths(ws[1..])
  }

  lemma {:induction false} ConcatAppend(a: seq<string>, b: seq<string>)
    ensures Concat(a + b) == Concat(a) + Concat(b)
  {
    if a == [] {
      assert a + b == b;
    } else {
      assert (a + b)[1..] == a[1..] + b;
      ConcatAppend(a[1..], b);
    }
  }

  lemma ConcatOne(a: string)
    ensures Concat([a]) == a
  {
    assert [a][1..] == [];
  }

  lemma ConcatTwo(a: string, b: string)
    ensures Concat([a]) == a
    ensures Concat([a, b]) == a + b
  {
    assert [a, b][1..] == [b];
    assert Concat([b]) == b;
  }

  lemma ConcatThree(a: string, b: string, c: string)
    ensures Concat([a, b, c]) == a + b + c
  {
    assert [a, b, c][1..] == [b, c];
    ConcatTwo(b, c);
  }

  lemma ConcatFour(a: string, b: string, c: string, d: string)
    ensures Concat([a, b, c, d]) == a + b + c + d
  {
    assert [a, b, c, d][1..] == [b, c, d];
    ConcatThree(b, c, d);
  }

  lemma ConcatFive(a: string, b: string, c: string, d: string, e: string)
    ensures Concat([a, b, c, d, e]) == a + b + c + d + e
  {
    assert [a, b, c, d, e][1..] == [b, c, d, e];
    ConcatFour(b, c, d, e);
  }

  /** `append_table` as written: the override, then the writes. */
  function AppendTable(o: TableCall, body: string): (r: string)
    ensures r ==
      (if o.sideways then TurnLine + MinipageLine + FloatLine else "\\begin{table}" + o.loc + "\n")
      + ((if o.centering then "\\centering\n" else "")
         + "\\begin{threeparttable}\n"
         + (if o.small then "\\small\n" else ""))
      + (CaptionSegment(o.caption) + LabelSegment(TableLabel, o.lab) + "\n" + body)
      + (NotesOpenLine + o.notes + "\n" + NotesCloseLine + ThreePartCloseLine)
      + ("\\end{table}" + (if o.sideways then MinipageCloseLine + TurnCloseLine else "") + "\n\n")
  {
    var n := Normalize(o);
    WritesText(n, body);
    OpeningText(n);
    PreambleText(n);
    ContentText(n, body);
    NotesText(n);
    ClosingText(n);
    Concat(Writes(n, body))
  }

  // ---------------------------------------------------------------------
  // The same output, described by its structure.

  datatype Env = Turn | Minipage | TableEnv | ThreePartTable | TableNotes

  function EnvName(e: Env): string {
    match e
    case Turn => "turn"
    case Minipage => "minipage"
    case TableEnv => "table"
    case ThreePartTable => "threeparttable"
    case TableNotes => "tablenotes"
  }

  /** One structural element of a table fragment.  `End` carries whether
      the closing line is followed by a line break. */
  datatype Piece =
    | Begin(env: Env, arg: string)
    | End(env: Env, newline: bool)
    | Directive(name: string)
    | CaptionLine(cap: string, lab: string)
    | Body(text: string)
    | NoteText(text: string)
    | Gap

  function RenderPiece(p: Piece): string {
    match p
    case Begin(e, arg) => "\\begin{" + EnvName(e) + "}" + arg + "\n"
    case End(e, nl) => "\\end{" + EnvName(e) + "}" + (if nl then "\n" else "")
    case Directive(name) => "\\" + name + "\n"
    case CaptionLine(cap, lab) => cap + lab + "\n"
    case Body(text) => text
    case NoteText(text) => text + "\n"
    case Gap => "\n\n"
  }

  function Render(ps: seq<Piece>): string {
    if ps == [] then "" else RenderPiece(ps[0]) + Render(ps[1..])
  }

  lemma {:induction false} RenderAppend(a: seq<Piece>, b: seq<Piece>)
    ensures Render(a + b) == Render(a) + Render(b)
  {
    if a == [] {
      assert a + b == b;
    } else {
      assert (a + b)[1..] == a[1..] + b;
      RenderAppend(a[1..], b);
    }
  }

  lemma RenderOne(a: Piece)
    ensures Render([a]) == RenderPiece(a)
  {
    assert [a][1..] == [];
  }

  lemma RenderTwo(a: Piece, b: Piece)
    ensures Render([a]) == RenderPiece(a)
    ensures Render([a, b]) == RenderPiece(a) + RenderPiece(b)
  {
    assert [a, b][1..] == [b];
    assert Render([b]) == RenderPiece(b);
  }

  lemma RenderThree(a: Piece, b: Piece, c: Piece)
    ensures Render([a, b, c]) == RenderPiece(a) + RenderPiece(b) + RenderPiece(c)
  {
    assert [a, b, c][1..] == [b, c];
    RenderTwo(b, c);
  }

  lemma RenderFour(a: Piece, b: Piece, c: Piece, d: Piece)
    ensures Render([a, b, c, d]) == RenderPiece(a) + RenderPiece(b) + RenderPiece(c) + RenderPiece(d)
  {
    assert [a, b, c, d][1..] == [b, c, d];
    RenderThree(b, c, d);
  }

  /** The environments a table opens before its preamble, outermost first. */
  function OuterEnvs(sideways: bool): seq<Env> {
    if sideways then [Turn, Minipage, TableEnv] else [TableEnv]
  }

  function Opening(o: TableCall): seq<Piece> {
    if o.sideways then
      [Begin(Turn, "{90}"), Begin(Minipage, "{0.9\\textheight}"), Begin(TableEnv, "[H]")]
    else
      [Begin(TableEnv, o.loc)]
  }

  function Preamble(o: TableCall): seq<Piece> {
    (if o.centering then [Directive("centering")] else [])
    + (if o.threePartTable then [Begin(ThreePartTable, "")] else [])
    + (if o.small then [Directive("small")] else [])
  }

  function Caption(o: TableCall): Piece {
    CaptionLine(CaptionSegment(o.caption), LabelSegment(TableLabel, o.lab))
  }

  function Content(o: TableCall, body: string): seq<Piece> {
    if o.captionAbove then [Caption(o), Body(body)] else [Body(body), Caption(o)]
  }

  function NotesBlock(o: TableCall): seq<Piece> {
    if o.threePartTable then
      [Begin(TableNotes, ""), NoteText(o.notes), End(TableNotes, true), End(ThreePartTable, true)]
    else
      []
  }

  function Closing(o: TableCall): seq<Piece> {
    (if o.sideways then
       [End(TableEnv, false), End(Minipage, true), End(Turn, true)]
     else
       [End(TableEnv, false)])
    + [Gap]
  }

  function Layout(o: TableCall, body: string): seq<Piece> {
    Opening(o) + Preamble(o) + Content(o, body) + NotesBlock(o) + Closing(o)
  }

  // The fixed pieces render to the literal lines the source writes.

  /** The sideways wrapper opens with the turn, minipage and
      forced-placement table lines (lines 165-167). */
  lemma SidewaysOpeningLines()
    ensures RenderPiece(Begin(Turn, "{90}")) == "\\begin{turn}{90}\n"
    ensures RenderPiece(Begin(Minipage, "{0.9\\textheight}")) == "\\begin{minipage}{0.9\\textheight}\n"
    ensures RenderPiece(Begin(TableEnv, "[H]")) == "\\begin{table}[H]\n"
  {
  }

  /** The preamble directives and the threeparttable opener render as the
      lines at 171-178. */
  lemma PreambleLines()
    ensures RenderPiece(Directive("centering")) == "\\centering\n"
    ensures RenderPiece(Begin(ThreePartTable, "")) == "\\begin{threeparttable}\n"
    ensures RenderPiece(Directive("small")) == "\\small\n"
  {
  }

  /** The notes block opens and closes with the lines at 203-207. */
  lemma NotesLines()
    ensures RenderPiece(Begin(TableNotes, "")) == "\\begin{tablenotes}\n"
    ensures RenderPiece(End(TableNotes, true)) == "\\end{tablenotes}\n"
    ensures RenderPiece(End(ThreePartTable, true)) == "\\end{threeparttable}\n"
  {
  }

  /** The closers render as the lines at 209-213; the table closer has no
      line break. */
  lemma ClosingLines()
    ensures RenderPiece(End(TableEnv, false)) == "\\end{table}"
    ensures RenderPiece(End(Minipage, true)) == "\\end{minipage}\n"
    ensures RenderPiece(End(Turn, true)) == "\\end{turn}\n"
  {
  }

  // Each group of writes renders one group of pieces.

  lemma OpeningMatches(o: TableCall)
    ensures Concat(OpeningWrites(o)) == Render(Opening(o))
  {
    if o.sideways {
      var a := "\\begin{turn}{90}\n";
      var b := "\\begin{minipage}{0.9\\textheight}\n";
      var c := "\\begin{table}[H]\n";
      ConcatThree(a, b, c);
      RenderThree(Begin(Turn, "{90}"), Begin(Minipage, "{0.9\\textheight}"), Begin(TableEnv, "[H]"));
      SidewaysOpeningLines();
    } else {
      ConcatOne(TableOpening(o.loc));
      RenderOne(Begin(TableEnv, o.loc));
    }
  }

  lemma OptionalMatches(flag: bool, w: string, p: Piece)
    requires RenderPiece(p) == w
    ensures Concat(if flag then [w] else []) == Render(if flag then [p] else [])
  {
    ConcatOne(w);
    RenderOne(p);
  }

  lemma PreambleMatches(o: TableCall)
    ensures Concat(PreambleWrites(o)) == Render(Preamble(o))
  {
    var c := if o.centering then ["\\centering\n"] else [];
    var t := if o.threePartTable then ["\\begin{threeparttable}\n"] else [];
    var s := if o.small then ["\\small\n"] else [];
    var pc := if o.centering then [Directive("centering")] else [];
    var pt := if o.threePartTable then [Begin(ThreePartTable, "")] else [];
    var ps := if o.small then [Directive("small")] else [];
    PreambleLines();
    OptionalMatches(o.centering, "\\centering\n", Directive("centering"));
    OptionalMatches(o.threePartTable, "\\begin{threeparttable}\n", Begin(ThreePartTable, ""));
    OptionalMatches(o.small, "\\small\n", Directive("small"));
    assert PreambleWrites(o) == c + t + s;
    assert Preamble(o) == pc + pt + ps;
    ConcatAppend(c, t);
    ConcatAppend(c + t, s);
    RenderAppend(pc, pt);
    RenderAppend(pc + pt, ps);
  }

  lemma CaptionFirstMatches(cap: string, lab: string, body: string)
    ensures Concat([cap, lab + "\n", body]) == Render([CaptionLine(cap, lab), Body(body)])
  {
    ConcatThree(cap, lab + "\n", body);
    RenderTwo(CaptionLine(cap, lab), Body(body));
  }

  lemma BodyFirstMatches(cap: string, lab: string, body: string)
    ensures Concat([body, cap, lab + "\n"]) == Render([Body(body), CaptionLine(cap, lab)])
  {
    ConcatThree(body, cap, lab + "\n");
    RenderTwo(Body(body), CaptionLine(cap, lab));
  }

  lemma ContentMatches(o: TableCall, body: string)
    ensures Concat(ContentWrites(o, body)) == Render(Content(o, body))
  {
    var cap := CaptionSegment(o.caption);
    var lab := LabelSegment(TableLabel, o.lab);
    var e: seq<string> := [];
    if o.captionAbove {
      assert ContentWrites(o, body) == [cap, lab + "\n", body] by {
        assert [cap, lab + "\n"] + [body] + e == [cap, lab + "\n", body];
      }
      CaptionFirstMatches(cap, lab, body);
    } else {
      assert ContentWrites(o, body) == [body, cap, lab + "\n"] by {
        assert e + [body] + [cap, lab + "\n"] == [body, cap, lab + "\n"];
      }
      BodyFirstMatches(cap, lab, body);
    }
  }


  lemma NotesMatches(o: TableCall)
    ensures Concat(NotesWrites(o)) == Render(NotesBlock(o))
  {
    if o.threePartTable {
      var a := "\\begin{tablenotes}\n";
      var c := "\\end{tablenotes}\n";
      var d := "\\end{threeparttable}\n";
      assert NotesWrites(o) == [a, o.notes, "\n", c, d];
      assert NotesBlock(o) == [Begin(TableNotes, ""), NoteText(o.notes), End(TableNotes, true), End(ThreePartTable, true)];
      ConcatFive(a, o.notes, "\n", c, d);
      RenderFour(Begin(TableNotes, ""), NoteText(o.notes), End(TableNotes, true), End(ThreePartTable, true));
      NotesLines();
    }
  }

  lemma ClosingMatches(o: TableCall)
    ensures Concat(ClosingWrites(o)) == Render(Closing(o))
  {
    var a := "\\end{table}";
    ClosingLines();
    if o.sideways {
      var b := "\\end{minipage}\n";
      var c := "\\end{turn}\n";
      assert ClosingWrites(o) == [a, b, c, "\n\n"];
      assert Closing(o) == [End(TableEnv, false), End(Minipage, true), End(Turn, true), Gap];
      ConcatFour(a, b, c, "\n\n");
      RenderFour(End(TableEnv, false), End(Minipage, true), End(Turn, true), Gap);
    } else {
      assert ClosingWrites(o) == [a, "\n\n"];
      assert Closing(o) == [End(TableEnv, false), Gap];
      ConcatTwo(a, "\n\n");
      RenderTwo(End(TableEnv, false), Gap);
    }
  }

  /** The writes of the source and the structural layout produce the same
      text, for every combination of flags. */
  lemma WritesMatchLayout(o: TableCall, body: string)
    ensures Concat(Writes(o, body)) == Render(Layout(o, body))
  {
    var w1 := OpeningWrites(o);
    var w2 := PreambleWrites(o);
    var w3 := ContentWrites(o, body);
    var w4 := NotesWrites(o);
    var w5 := ClosingWrites(o);
    var p1 := Opening(o);
    var p2 := Preamble(o);
    var p3 := Content(o, body);
    var p4 := NotesBlock(o);
    var p5 := Closing(o);
    OpeningMatches(o);
    PreambleMatches(o);
    ContentMatches(o, body);
    NotesMatches(o);
    ClosingMatches(o);
    ConcatAppend(w1, w2);
    ConcatAppend(w1 + w2, w3);
    ConcatAppend(w1 + w2 + w3, w4);
    ConcatAppend(w1 + w2 + w3 + w4, w5);
    RenderAppend(p1, p2);
    RenderAppend(p1 + p2, p3);
    RenderAppend(p1 + p2 + p3, p4);
    RenderAppend(p1 + p2 + p3 + p4, p5);
  }


  // ---------------------------------------------------------------------
  // Environment nesting.

  /** One piece replayed against the stack of open environments; `None`
      once a closer has failed to match the innermost open environment. */
  function Step(st: Option<seq<Env>>, p: Piece): Option<seq<Env>> {
    match st
    case None => None
    case Some(stack) =>
      match p
      case Begin(e, _) => Some(stack + [e])
      case End(e, _) =>
        if |stack| > 0 && stack[|stack| - 1] == e then Some(stack[..|stack| - 1]) else None
      case _ => st
  }

  function Scan(st: Option<seq<Env>>, ps: seq<Piece>): Option<seq<Env>>
    decreases |ps|
  {
    if ps == [] then st else Scan(Step(st, ps[0]), ps[1..])
  }

  /** Every closer matches the innermost open environment and nothing is
      left open. */
  predicate Balanced(ps: seq<Piece>) {
    Scan(Some([]), ps) == Some([])
  }

  lemma {:induction false} ScanAppend(st: Option<seq<Env>>, a: seq<Piece>, b: seq<Piece>)
    ensures Scan(st, a + b) == Scan(Scan(st, a), b)
    decreases |a|
  {
    if a == [] {
      assert a + b == b;
    } else {
      assert (a + b)[0] == a[0];
      assert (a + b)[1..] == a[1..] + b;
      ScanAppend(Step(st, a[0]), a[1..], b);
    }
  }

  lemma ScanOne(st: Option<seq<Env>>, a: Piece)
    ensures Scan(st, []) == st
    ensures Scan(st, [a]) == Step(st, a)
  {
    assert [a][1..] == [];
  }

  lemma ScanTwo(st: Option<seq<Env>>, a: Piece, b: Piece)
    ensures Scan(st, [a, b]) == Step(Step(st, a), b)
  {
    assert [a, b][1..] == [b];
    ScanOne(Step(st, a), b);
  }

  lemma ScanThree(st: Option<seq<Env>>, a: Piece, b: Piece, c: Piece)
    ensures Scan(st, [a, b, c]) == Step(Step(Step(st, a), b), c)
  {
    assert [a, b, c][1..] == [b, c];
    ScanTwo(Step(st, a), b, c);
  }

  lemma ScanFour(st: Option<seq<Env>>, a: Piece, b: Piece, c: Piece, d: Piece)
    ensures Scan(st, [a, b, c, d]) == Step(Step(Step(Step(st, a), b), c), d)
  {
    assert [a, b, c, d][1..] == [b, c, d];
    ScanThree(Step(st, a), b, c, d);
  }

  /** Pushes `e` when `flag` holds. */
  function PushIf(flag: bool, e: Env): seq<Env> {
    if flag then [e] else []
  }

  lemma ScanOpening(o: TableCall)
    ensures Scan(Some([]), Opening(o)) == Some(OuterEnvs(o.sideways))
  {
    if o.sideways {
      ScanThree(Some([]), Begin(Turn, "{90}"), Begin(Minipage, "{0.9\\textheight}"), Begin(TableEnv, "[H]"));
      assert [] + [Turn] + [Minipage] + [TableEnv] == [Turn, Minipage, TableEnv];
    } else {
      ScanOne(Some([]), Begin(TableEnv, o.loc));
      assert [] + [TableEnv] == [TableEnv];
    }
  }

  lemma ScanOptional(stack: seq<Env>, flag: bool, p: Piece)
    requires !p.Begin? && !p.End?
    ensures Scan(Some(stack), if flag then [p] else []) == Some(stack)
  {
    ScanOne(Some(stack), p);
  }

  lemma ScanPreamble(stack: seq<Env>, o: TableCall)
    ensures Scan(Some(stack), Preamble(o)) == Some(stack + PushIf(o.threePartTable, ThreePartTable))
  {
    var c := if o.centering then [Directive("centering")] else [];
    var t := if o.threePartTable then [Begin(ThreePartTable, "")] else [];
    var s := if o.small then [Directive("small")] else [];
    var mid := stack + PushIf(o.threePartTable, ThreePartTable);
    ScanOptional(stack, o.centering, Directive("centering"));
    ScanOne(Some(stack), Begin(ThreePartTable, ""));
    assert Scan(Some(stack), t) == Some(mid) by {
      if !o.threePartTable {
        assert stack + [] == stack;
      }
    }
    ScanAppend(Some(stack), c, t);
    ScanOptional(mid, o.small, Directive("small"));
    ScanAppend(Some(stack), c + t, s);
  }

  lemma ScanContent(stack: seq<Env>, o: TableCall, body: string)
    ensures Scan(Some(stack), Content(o, body)) == Some(stack)
  {
    ScanTwo(Some(stack), Caption(o), Body(body));
    ScanTwo(Some(stack), Body(body), Caption(o));
  }

  lemma ScanNotes(stack: seq<Env>, o: TableCall)
    ensures Scan(Some(stack + PushIf(o.threePartTable, ThreePartTable)), NotesBlock(o)) == Some(stack)
  {
    if o.threePartTable {
      var s1 := stack + [ThreePartTable];
      var s2 := s1 + [TableNotes];
      ScanFour(Some(s1), Begin(TableNotes, ""), NoteText(o.notes), End(TableNotes, true), End(ThreePartTable, true));
      assert s2[..|s2| - 1] == s1;
      assert s1[..|s1| - 1] == stack;
    } else {
      assert stack + [] == stack;
    }
  }

  lemma ScanClosing(o: TableCall)
    ensures Scan(Some(OuterEnvs(o.sideways)), Closing(o)) == Some([])
  {
    if o.sideways {
      assert Closing(o) == [End(TableEnv, false), End(Minipage, true), End(Turn, true), Gap];
      ScanFour(Some([Turn, Minipage, TableEnv]), End(TableEnv, false), End(Minipage, true), End(Turn, true), Gap);
      assert [Turn, Minipage, TableEnv][..2] == [Turn, Minipage];
      assert [Turn, Minipage][..1] == [Turn];
    } else {
      assert Closing(o) == [End(TableEnv, false), Gap];
      ScanTwo(Some([TableEnv]), End(TableEnv, false), Gap);
    }
  }

  /** Every environment the table opens is closed, innermost first, for
      every combination of flags (before or after the override). */
  lemma LayoutBalanced(o: TableCall, body: string)
    ensures Balanced(Layout(o, body))
  {
    var outer := OuterEnvs(o.sideways);
    var withTpt := outer + PushIf(o.threePartTable, ThreePartTable);
    var p1 := Opening(o);
    var p2 := Preamble(o);
    var p3 := Content(o, body);
    var p4 := NotesBlock(o);
    var p5 := Closing(o);
    ScanOpening(o);
    ScanPreamble(outer, o);
    ScanAppend(Some([]), p1, p2);
    ScanContent(withTpt, o, body);
    ScanAppend(Some([]), p1 + p2, p3);
    ScanNotes(outer, o);
    ScanAppend(Some([]), p1 + p2 + p3, p4);
    ScanClosing(o);
    ScanAppend(Some([]), p1 + p2 + p3 + p4, p5);
  }

  /** The environments in the order they are opened, and in the order they
      are closed. */
  function Opened(ps: seq<Piece>): seq<Env> {
    if ps == [] then [] else (if ps[0].Begin? then [ps[0].env] else []) + Opened(ps[1..])
  }

  function Closed(ps: seq<Piece>): seq<Env> {
    if ps == [] then [] else (if ps[0].End? then [ps[0].env] else []) + Closed(ps[1..])
  }

  lemma {:induction false} OpenedAppend(a: seq<Piece>, b: seq<Piece>)
    ensures Opened(a + b) == Opened(a) + Opened(b)
  {
    if a == [] {
      assert a + b == b;
    } else {
      assert (a + b)[0] == a[0];
      assert (a + b)[1..] == a[1..] + b;
      OpenedAppend(a[1..], b);
    }
  }

  lemma {:induction false} ClosedAppend(a: seq<Piece>, b: seq<Piece>)
    ensures Closed(a + b) == Closed(a) + Closed(b)
  {
    if a == [] {
      assert a + b == b;
    } else {
      assert (a + b)[0] == a[0];
      assert (a + b)[1..] == a[1..] + b;
      ClosedAppend(a[1..], b);
    }
  }

  lemma OpenedClosedAppend(a: seq<Piece>, b: seq<Piece>)
    ensures Opened(a + b) == Opened(a) + Opened(b)
    ensures Closed(a + b) == Closed(a) + Closed(b)
  {
    OpenedAppend(a, b);
    ClosedAppend(a, b);
  }

  lemma OpenedClosedOne(p: Piece)
    ensures Opened([p]) == (if p.Begin? then [p.env] else [])
    ensures Closed([p]) == (if p.End? then [p.env] else [])
  {
    assert [p][1..] == [];
  }

  lemma OpenedClosedSmall(a: Piece, b: Piece, c: Piece, d: Piece)
    ensures Opened([a, b]) == Opened([a]) + Opened([b])
    ensures Closed([a, b]) == Closed([a]) + Closed([b])
    ensures Opened([a, b, c]) == Opened([a]) + Opened([b]) + Opened([c])
    ensures Closed([a, b, c]) == Closed([a]) + Closed([b]) + Closed([c])
    ensures Opened([a, b, c, d]) == Opened([a]) + Opened([b]) + Opened([c]) + Opened([d])
    ensures Closed([a, b, c, d]) == Closed([a]) + Closed([b]) + Closed([c]) + Closed([d])
  {
    assert [a] + [b] == [a, b];
    assert [a, b] + [c] == [a, b, c];
    assert [a, b, c] + [d] == [a, b, c, d];
    OpenedClosedAppend([a], [b]);
    OpenedClosedAppend([a, b], [c]);
    OpenedClosedAppend([a, b, c], [d]);
  }

  lemma OpeningEnvs(o: TableCall)
    ensures Opened(Opening(o)) == OuterEnvs(o.sideways)
    ensures Closed(Opening(o)) == []
  {
    if o.sideways {
      var a := Begin(Turn, "{90}");
      var b := Begin(Minipage, "{0.9\\textheight}");
      var c := Begin(TableEnv, "[H]");
      OpenedClosedSmall(a, b, c, Gap);
      OpenedClosedOne(a);
      OpenedClosedOne(b);
      OpenedClosedOne(c);
    } else {
      OpenedClosedOne(Begin(TableEnv, o.loc));
    }
  }

  lemma OptionalEnvs(flag: bool, p: Piece)
    ensures Opened(if flag then [p] else []) == (if flag && p.Begin? then [p.env] else [])
    ensures Closed(if flag then [p] else []) == (if flag && p.End? then [p.env] else [])
  {
    OpenedClosedOne(p);
  }

  lemma PreambleEnvs(o: TableCall)
    ensures Opened(Preamble(o)) == PushIf(o.threePartTable, ThreePartTable)
    ensures Closed(Preamble(o)) == []
  {
    var c := if o.centering then [Directive("centering")] else [];
    var t := if o.threePartTable then [Begin(ThreePartTable, "")] else [];
    var s := if o.small then [Directive("small")] else [];
    OptionalEnvs(o.centering, Directive("centering"));
    OptionalEnvs(o.threePartTable, Begin(ThreePartTable, ""));
    OptionalEnvs(o.small, Directive("small"));
    OpenedClosedAppend(c, t);
    OpenedClosedAppend(c + t, s);
  }

  lemma ContentEnvs(o: TableCall, body: string)
    ensures Opened(Content(o, body)) == [] && Closed(Content(o, body)) == []
  {
    OpenedClosedSmall(Caption(o), Body(body), Gap, Gap);
    OpenedClosedSmall(Body(body), Caption(o), Gap, Gap);
    OpenedClosedOne(Caption(o));
    OpenedClosedOne(Body(body));
  }

  lemma NotesEnvs(o: TableCall)
    ensures Opened(NotesBlock(o)) == PushIf(o.threePartTable, TableNotes)
    ensures Closed(NotesBlock(o)) == (if o.threePartTable then [TableNotes, ThreePartTable] else [])
  {
    if o.threePartTable {
      var a := Begin(TableNotes, "");
      var b := NoteText(o.notes);
      var c := End(TableNotes, true);
      var d := End(ThreePartTable, true);
      OpenedClosedSmall(a, b, c, d);
      OpenedClosedOne(a);
      OpenedClosedOne(b);
      OpenedClosedOne(c);
      OpenedClosedOne(d);
    }
  }

  /** The outer environments in the order they are closed. */
  function OuterClosers(sideways: bool): seq<Env> {
    if sideways then [TableEnv, Minipage, Turn] else [TableEnv]
  }

  lemma ClosingEnvs(o: TableCall)
    ensures Opened(Closing(o)) == []
    ensures Closed(Closing(o)) == OuterClosers(o.sideways)
  {
    if o.sideways {
      var a := End(TableEnv, false);
      var b := End(Minipage, true);
      var c := End(Turn, true);
      assert Closing(o) == [a, b, c, Gap];
      OpenedClosedSmall(a, b, c, Gap);
      OpenedClosedOne(a);
      OpenedClosedOne(b);
      OpenedClosedOne(c);
      OpenedClosedOne(Gap);
    } else {
      assert Closing(o) == [End(TableEnv, false), Gap];
      OpenedClosedSmall(End(TableEnv, false), Gap, Gap, Gap);
      OpenedClosedOne(End(TableEnv, false));
      OpenedClosedOne(Gap);
    }
  }

  /** `turn`, `minipage`, `table` (or only `table`) open first, then
      `threeparttable` and `tablenotes`. */
  lemma LayoutOpened(o: TableCall, body: string)
    ensures Opened(Layout(o, body)) ==
      OuterEnvs(o.sideways) + (if o.threePartTable then [ThreePartTable, TableNotes] else [])
  {
    var p1 := Opening(o);
    var p2 := Preamble(o);
    var p3 := Content(o, body);
    var p4 := NotesBlock(o);
    var p5 := Closing(o);
    OpeningEnvs(o);
    PreambleEnvs(o);
    ContentEnvs(o, body);
    NotesEnvs(o);
    ClosingEnvs(o);
    OpenedClosedAppend(p1, p2);
    OpenedClosedAppend(p1 + p2, p3);
    OpenedClosedAppend(p1 + p2 + p3, p4);
    OpenedClosedAppend(p1 + p2 + p3 + p4, p5);
    assert Opened(Layout(o, body)) == OuterEnvs(o.sideways) + PushIf(o.threePartTable, ThreePartTable)
                                      + PushIf(o.threePartTable, TableNotes);
  }

  /** The environments close in the reverse of the order they opened. */
  lemma LayoutClosed(o: TableCall, body: string)
    ensures Closed(Layout(o, body)) ==
      (if o.threePartTable then [TableNotes, ThreePartTable] else []) + OuterClosers(o.sideways)
  {
    var p1 := Opening(o);
    var p2 := Preamble(o);
    var p3 := Content(o, body);
    var p4 := NotesBlock(o);
    var p5 := Closing(o);
    OpeningEnvs(o);
    PreambleEnvs(o);
    ContentEnvs(o, body);
    NotesEnvs(o);
    ClosingEnvs(o);
    OpenedClosedAppend(p1, p2);
    OpenedClosedAppend(p1 + p2, p3);
    OpenedClosedAppend(p1 + p2 + p3, p4);
    OpenedClosedAppend(p1 + p2 + p3 + p4, p5);
  }

  // ---------------------------------------------------------------------
  // What appears, how often, and in which order.

  /** The index of the first occurrence of `p`, or `|ps|` when absent. */
  function Find(ps: seq<Piece>, p: Piece): (i: nat)
    ensures i <= |ps|
    ensures i < |ps| <==> p in ps
    ensures i < |ps| ==> ps[i] == p
    ensures forall k :: 0 <= k < i ==> ps[k] != p
  {
    if ps == [] then 0
    else if ps[0] == p then 0
    else
      assert ps == [ps[0]] + ps[1..];
      1 + Find(ps[1..], p)
  }

  /** `Find` is determined by its contract. */
  lemma FindUnique(ps: seq<Piece>, p: Piece, k: nat)
    requires k <= |ps|
    requires k < |ps| ==> ps[k] == p
    requires k == |ps| ==> p !in ps
    requires forall j :: 0 <= j < k ==> ps[j] != p
    ensures Find(ps, p) == k
  {
  }

  lemma FindAppend(a: seq<Piece>, b: seq<Piece>, p: Piece)
    ensures Find(a + b, p) == if p in a then Find(a, p) else |a| + Find(b, p)
  {
    if p in a {
      var j := Find(a, p);
      assert (a + b)[j] == a[j];
      forall k | 0 <= k < j
        ensures (a + b)[k] != p
      {
        assert (a + b)[k] == a[k];
      }
      FindUnique(a + b, p, j);
    } else {
      var j := Find(b, p);
      forall k | 0 <= k < |a| + j
        ensures (a + b)[k] != p
      {
        if k < |a| {
          assert (a + b)[k] == a[k];
        } else {
          assert (a + b)[k] == b[k - |a|];
        }
      }
      if j < |b| {
        assert (a + b)[|a| + j] == b[j];
      } else {
        assert p !in a + b;
      }
      FindUnique(a + b, p, |a| + j);
    }
  }

  /** How many times `p` occurs in `ps`. */
  function Count(ps: seq<Piece>, p: Piece): (n: nat)
    ensures n == 0 <==> p !in ps
  {
    if ps == [] then 0
    else
      assert ps == [ps[0]] + ps[1..];
      Indicator(ps[0] == p) + Count(ps[1..], p)
  }

  lemma {:induction false} CountAppend(a: seq<Piece>, b: seq<Piece>, p: Piece)
    ensures Count(a + b, p) == Count(a, p) + Count(b, p)
  {
    if a == [] {
      assert a + b == b;
    } else {
      assert (a + b)[0] == a[0];
      assert (a + b)[1..] == a[1..] + b;
      CountAppend(a[1..], b, p);
    }
  }

  lemma CountOptional(flag: bool, a: Piece, p: Piece)
    ensures Count(if flag then [a] else [], p) == Indicator(flag && a == p)
  {
    assert [a][1..] == [];
  }

  lemma CountTwo(a: Piece, b: Piece, p: Piece)
    ensures Count([a, b], p) == Indicator(a == p) + Indicator(b == p)
  {
    assert [a, b][1..] == [b];
    CountOptional(true, b, p);
  }

  lemma PreambleCount(o: TableCall, p: Piece)
    ensures Count(Preamble(o), p) ==
      Indicator(o.centering && p == Directive("centering"))
      + Indicator(o.threePartTable && p == Begin(ThreePartTable, ""))
      + Indicator(o.small && p == Directive("small"))
  {
    var c := if o.centering then [Directive("centering")] else [];
    var t := if o.threePartTable then [Begin(ThreePartTable, "")] else [];
    var s := if o.small then [Directive("small")] else [];
    CountOptional(o.centering, Directive("centering"), p);
    CountOptional(o.threePartTable, Begin(ThreePartTable, ""), p);
    CountOptional(o.small, Directive("small"), p);
    CountAppend(c, t, p);
    CountAppend(c + t, s, p);
  }

  lemma ContentCount(o: TableCall, body: string, p: Piece)
    ensures Count(Content(o, body), p) == Indicator(p == Caption(o)) + Indicator(p == Body(body))
  {
    CountTwo(Caption(o), Body(body), p);
    CountTwo(Body(body), Caption(o), p);
  }

  /** Pieces that are neither environment closers, nor the final gap, nor
      openers of anything but `threeparttable`: the ones whose count the
      flags decide. */
  predicate Countable(p: Piece) {
    match p
    case Begin(e, _) => e == ThreePartTable
    case End(_, _) => false
    case Gap => false
    case _ => true
  }

  lemma OuterCount(o: TableCall, p: Piece)
    requires Countable(p)
    ensures Count(Opening(o), p) == 0 && Count(Closing(o), p) == 0
  {
    assert p !in Opening(o);
    assert p !in Closing(o);
  }

  lemma NotesCount(o: TableCall, p: Piece)
    requires Countable(p)
    ensures Count(NotesBlock(o), p) == Indicator(o.threePartTable && p == NoteText(o.notes))
  {
    if o.threePartTable {
      var ps := [Begin(TableNotes, ""), NoteText(o.notes), End(TableNotes, true), End(ThreePartTable, true)];
      assert NotesBlock(o) == ps;
      if p == NoteText(o.notes) {
        assert ps[1..] == [NoteText(o.notes), End(TableNotes, true), End(ThreePartTable, true)];
        assert p !in ps[1..][1..];
      } else {
        assert p !in ps;
      }
    }
  }

  /** The number of times a countable piece occurs in the layout, segment
      by segment. */
  lemma LayoutCount(o: TableCall, body: string, p: Piece)
    requires Countable(p)
    ensures Count(Layout(o, body), p) ==
      Indicator(o.centering && p == Directive("centering"))
      + Indicator(o.threePartTable && p == Begin(ThreePartTable, ""))
      + Indicator(o.small && p == Directive("small"))
      + Indicator(p == Caption(o)) + Indicator(p == Body(body))
      + Indicator(o.threePartTable && p == NoteText(o.notes))
  {
    var p1 := Opening(o);
    var p2 := Preamble(o);
    var p3 := Content(o, body);
    var p4 := NotesBlock(o);
    var p5 := Closing(o);
    OuterCount(o, p);
    NotesCount(o, p);
    PreambleCount(o, p);
    ContentCount(o, body, p);
    CountAppend(p1, p2, p);
    CountAppend(p1 + p2, p3, p);
    CountAppend(p1 + p2 + p3, p4, p);
    CountAppend(p1 + p2 + p3 + p4, p5, p);
  }

  /** The body and the caption line each appear exactly once; the
      centering, font-size and threeparttable lines and the notes appear
      exactly when their flag is set. */
  lemma LayoutCounts(o: TableCall, body: string)
    ensures Count(Layout(o, body), Body(body)) == 1
    ensures Count(Layout(o, body), Caption(o)) == 1
    ensures Count(Layout(o, body), Directive("centering")) == Indicator(o.centering)
    ensures Count(Layout(o, body), Directive("small")) == Indicator(o.small)
    ensures Count(Layout(o, body), Begin(ThreePartTable, "")) == Indicator(o.threePartTable)
    ensures Count(Layout(o, body), NoteText(o.notes)) == Indicator(o.threePartTable)
  {
    ContentCounts(o, body);
    DirectiveCounts(o, body);
    ThreePartCounts(o, body);
  }

  lemma ContentCounts(o: TableCall, body: string)
    ensures Count(Layout(o, body), Body(body)) == 1
    ensures Count(Layout(o, body), Caption(o)) == 1
  {
    LayoutCount(o, body, Body(body));
    LayoutCount(o, body, Caption(o));
  }

  lemma DirectiveCounts(o: TableCall, body: string)
    ensures Count(Layout(o, body), Directive("centering")) == Indicator(o.centering)
    ensures Count(Layout(o, body), Directive("small")) == Indicator(o.small)
  {
    LayoutCount(o, body, Directive("centering"));
    LayoutCount(o, body, Directive("small"));
  }

  lemma ThreePartCounts(o: TableCall, body: string)
    ensures Count(Layout(o, body), Begin(ThreePartTable, "")) == Indicator(o.threePartTable)
    ensures Count(Layout(o, body), NoteText(o.notes)) == Indicator(o.threePartTable)
  {
    LayoutCount(o, body, Begin(ThreePartTable, ""));
    LayoutCount(o, body, NoteText(o.notes));
  }


  /** The pieces before the caption line and the body. */
  function Head(o: TableCall): seq<Piece> {
    Opening(o) + Preamble(o)
  }

  /** The pieces after them. */
  function Tail(o: TableCall): seq<Piece> {
    NotesBlock(o) + Closing(o)
  }

  lemma LayoutParts(o: TableCall, body: string)
    ensures Layout(o, body) == Head(o) + (Content(o, body) + Tail(o))
    ensures Caption(o) !in Head(o) && Body(body) !in Head(o)
  {
  }

  /** The caption line comes before the body exactly when `captionAbove`. */
  lemma CaptionPlacement(o: TableCall, body: string)
    ensures Find(Layout(o, body), Caption(o)) < Find(Layout(o, body), Body(body)) <==> o.captionAbove
  {
    LayoutParts(o, body);
    var rest := Content(o, body) + Tail(o);
    FindAppend(Head(o), rest, Caption(o));
    FindAppend(Head(o), rest, Body(body));
    FindAppend(Content(o, body), Tail(o), Caption(o));
    FindAppend(Content(o, body), Tail(o), Body(body));
  }

  /** Where each preamble line sits inside the preamble. */
  lemma PreambleFind(o: TableCall)
    ensures o.centering ==> Find(Preamble(o), Directive("centering")) == 0
    ensures o.threePartTable ==>
      Find(Preamble(o), Begin(ThreePartTable, "")) == Indicator(o.centering)
    ensures o.small ==>
      Find(Preamble(o), Directive("small")) == Indicator(o.centering) + Indicator(o.threePartTable)
  {
    var dc := Directive("centering");
    var dt := Begin(ThreePartTable, "");
    var ds := Directive("small");
    var c := if o.centering then [dc] else [];
    var t := if o.threePartTable then [dt] else [];
    var s := if o.small then [ds] else [];
    assert Preamble(o) == c + (t + s);
    FindAppend(c, t + s, dc);
    FindAppend(c, t + s, dt);
    FindAppend(c, t + s, ds);
    FindAppend(t, s, dt);
    FindAppend(t, s, ds);
  }

  lemma PreambleLineShape(o: TableCall, d: Piece)
    requires d in Preamble(o)
    ensures d == Directive("centering") || d == Begin(ThreePartTable, "") || d == Directive("small")
    ensures d !in Opening(o)
  {
    PreambleCount(o, d);
  }

  /** A preamble line is found at its place inside the preamble, after the
      opening lines and before the caption line and the body. */
  lemma FindPreambleLine(o: TableCall, body: string, d: Piece)
    requires d in Preamble(o)
    ensures Find(Layout(o, body), d) == |Opening(o)| + Find(Preamble(o), d)
    ensures Find(Layout(o, body), d) < Find(Layout(o, body), Caption(o))
    ensures Find(Layout(o, body), d) < Find(Layout(o, body), Body(body))
  {
    var rest := Content(o, body) + Tail(o);
    PreambleLineShape(o, d);
    LayoutParts(o, body);
    FindAppend(Head(o), rest, d);
    FindAppend(Opening(o), Preamble(o), d);
    FindAppend(Head(o), rest, Caption(o));
    FindAppend(Head(o), rest, Body(body));
  }

  /** `\centering`, then `\begin{threeparttable}`, then `\small`, all
      before the caption line and the body. */
  lemma PreambleOrder(o: TableCall, body: string)
    ensures o.centering && o.threePartTable ==>
      Find(Layout(o, body), Directive("centering")) < Find(Layout(o, body), Begin(ThreePartTable, ""))
    ensures o.threePartTable && o.small ==>
      Find(Layout(o, body), Begin(ThreePartTable, "")) < Find(Layout(o, body), Directive("small"))
    ensures o.centering && o.small ==>
      Find(Layout(o, body), Directive("centering")) < Find(Layout(o, body), Directive("small"))
    ensures forall d | d in Preamble(o) ::
      Find(Layout(o, body), d) < Find(Layout(o, body), Caption(o)) &&
      Find(Layout(o, body), d) < Find(Layout(o, body), Body(body))
  {
    var dc := Directive("centering");
    var dt := Begin(ThreePartTable, "");
    var ds := Directive("small");
    PreambleFind(o);
    PreambleCount(o, dc);
    PreambleCount(o, dt);
    PreambleCount(o, ds);
    if o.centering {
      FindPreambleLine(o, body, dc);
    }
    if o.threePartTable {
      FindPreambleLine(o, body, dt);
    }
    if o.small {
      FindPreambleLine(o, body, ds);
    }
    forall d | d in Preamble(o)
      ensures Find(Layout(o, body), d) < Find(Layout(o, body), Caption(o))
      ensures Find(Layout(o, body), d) < Find(Layout(o, body), Body(body))
    {
      FindPreambleLine(o, body, d);
    }
  }

  // ---------------------------------------------------------------------
  // The text of each group of writes.

  const TurnLine: string := "\\begin{turn}{90}\n"
  const MinipageLine: string := "\\begin{minipage}{0.9\\textheight}\n"
  const FloatLine: string := "\\begin{table}[H]\n"

  lemma OpeningText(o: TableCall)
    ensures Concat(OpeningWrites(o)) ==
      if o.sideways then TurnLine + MinipageLine + FloatLine else "\\begin{table}" + o.loc + "\n"
  {
    ConcatThree(TurnLine, MinipageLine, FloatLine);
    ConcatOne(TableOpening(o.loc));
  }

  lemma OptionalText(flag: bool, w: string)
    ensures Concat(if flag then [w] else []) == if flag then w else ""
  {
    ConcatOne(w);
  }

  lemma PreambleText(o: TableCall)
    ensures Concat(PreambleWrites(o)) ==
      (if o.centering then "\\centering\n" else "")
      + (if o.threePartTable then "\\begin{threeparttable}\n" else "")
      + (if o.small then "\\small\n" else "")
  {
    var c := if o.centering then ["\\centering\n"] else [];
    var t := if o.threePartTable then ["\\begin{threeparttable}\n"] else [];
    var s := if o.small then ["\\small\n"] else [];
    OptionalText(o.centering, "\\centering\n");
    OptionalText(o.threePartTable, "\\begin{threeparttable}\n");
    OptionalText(o.small, "\\small\n");
    ConcatAppend(c, t);
    ConcatAppend(c + t, s);
  }

  lemma ContentText(o: TableCall, body: string)
    ensures Concat(ContentWrites(o, body)) ==
      if o.captionAbove then
        CaptionSegment(o.caption) + LabelSegment(TableLabel, o.lab) + "\n" + body
      else
        body + CaptionSegment(o.caption) + LabelSegment(TableLabel, o.lab) + "\n"
  {
    var cap := CaptionSegment(o.caption);
    var lab := LabelSegment(TableLabel, o.lab);
    ContentMatches(o, body);
    CaptionFirstMatches(cap, lab, body);
    BodyFirstMatches(cap, lab, body);
    RenderTwo(CaptionLine(cap, lab), Body(body));
    RenderTwo(Body(body), CaptionLine(cap, lab));
  }

  const NotesOpenLine: string := "\\begin{tablenotes}\n"
  const NotesCloseLine: string := "\\end{tablenotes}\n"
  const ThreePartCloseLine: string := "\\end{threeparttable}\n"

  lemma NotesText(o: TableCall)
    ensures Concat(NotesWrites(o)) ==
      if o.threePartTable then NotesOpenLine + o.notes + "\n" + NotesCloseLine + ThreePartCloseLine else ""
  {
    ConcatFive(NotesOpenLine, o.notes, "\n", NotesCloseLine, ThreePartCloseLine);
  }

  const MinipageCloseLine: string := "\\end{minipage}\n"
  const TurnCloseLine: string := "\\end{turn}\n"

  lemma ClosingText(o: TableCall)
    ensures Concat(ClosingWrites(o)) ==
      "\\end{table}" + (if o.sideways then MinipageCloseLine + TurnCloseLine else "") + "\n\n"
  {
    var a := "\\end{table}";
    if o.sideways {
      assert ClosingWrites(o) == [a, MinipageCloseLine, TurnCloseLine, "\n\n"];
      ConcatFour(a, MinipageCloseLine, TurnCloseLine, "\n\n");
    } else {
      assert ClosingWrites(o) == [a, "\n\n"];
      ConcatTwo(a, "\n\n");
    }
  }

  /** The text of the writes, group by group, for any flags. */
  lemma WritesText(o: TableCall, body: string)
    ensures Concat(Writes(o, body)) ==
      Concat(OpeningWrites(o)) + Concat(PreambleWrites(o)) + Concat(ContentWrites(o, body))
      + Concat(NotesWrites(o)) + Concat(ClosingWrites(o))
  {
    var w1 := OpeningWrites(o);
    var w2 := PreambleWrites(o);
    var w3 := ContentWrites(o, body);
    var w4 := NotesWrites(o);
    var w5 := ClosingWrites(o);
    ConcatAppend(w1, w2);
    ConcatAppend(w1 + w2, w3);
    ConcatAppend(w1 + w2 + w3, w4);
    ConcatAppend(w1 + w2 + w3 + w4, w5);
  }

  // ---------------------------------------------------------------------
  // What the override does to every call.

  /** The source's output is the rendering of the structural layout of the
      overridden flags. */
  lemma AppendTableLayout(o: TableCall, body: string)
    ensures AppendTable(o, body) == Render(Layout(Normalize(o), body))
  {
    WritesMatchLayout(Normalize(o), body);
  }

  /** Whatever the caller asks for, the caption line precedes the body, the
      table is wrapped in `threeparttable`, and the notes block is written
      once (empty notes included). */
  lemma OverrideConsequences(o: TableCall, body: string)
    ensures Find(Layout(Normalize(o), body), Caption(o)) < Find(Layout(Normalize(o), body), Body(body))
    ensures Count(Layout(Normalize(o), body), NoteText(o.notes)) == 1
    ensures Count(Layout(Normalize(o), body), Begin(ThreePartTable, "")) == 1
    ensures Opened(Layout(Normalize(o), body)) == OuterEnvs(o.sideways) + [ThreePartTable, TableNotes]
  {
    var n := Normalize(o);
    assert Caption(n) == Caption(o);
    CaptionPlacement(n, body);
    LayoutCounts(n, body);
    LayoutOpened(n, body);
  }

  /** The `threeparttable` and `caption_above` arguments have no effect. */
  lemma FlagsIgnored(o: TableCall, body: string, threePartTable: bool, captionAbove: bool)
    ensures AppendTable(o, body) == AppendTable(o.(threePartTable := threePartTable, captionAbove := captionAbove), body)
  {
    var o' := o.(threePartTable := threePartTable, captionAbove := captionAbove);
    assert Normalize(o) == Normalize(o');
  }

  /** The fragment starts with the opening lines and ends with the closing
      lines, the last of them the blank line `"\n\n"`. */
  lemma TableBoundaries(o: TableCall, body: string)
    ensures var r := AppendTable(o, body);
      var s := if o.sideways then TurnLine + MinipageLine + FloatLine else "\\begin{table}" + o.loc + "\n";
      var e := "\\end{table}" + (if o.sideways then MinipageCloseLine + TurnCloseLine else "") + "\n\n";
      |s| + |e| <= |r| && r[..|s|] == s && r[|r| - |e|..] == e && r[|r| - 2..] == "\n\n"
  {
    var r := AppendTable(o, body);
    var s := if o.sideways then TurnLine + MinipageLine + FloatLine else "\\begin{table}" + o.loc + "\n";
    var e0 := if o.sideways then MinipageCloseLine + TurnCloseLine else "";
    var e := "\\end{table}" + e0 + "\n\n";
    var mid := r[|s|..|r| - |e|];
    assert r == s + r[|s|..];
    assert r[|s|..] == r[|s|..|r| - |e|] + e;
    assert r[|r| - |e|..] == e;
    assert e == ("\\end{table}" + e0) + "\n\n";
    assert e[|e| - 2..] == "\n\n";
    assert r[|r| - 2..] == e[|e| - 2..];
  }

  // ---------------------------------------------------------------------
  // The override as its docstring describes it.

  /** `tablenotes is not None and tablenotes != ""`. */
  predicate IntendedCondition(notes: Option<string>) {
    notes != None && notes != Some("")
  }

  /** Lines 160-162 as the docstring at lines 153-155 describes them: both
      flags forced only when notes are given. */
  function NormalizeIntended(o: TableCall): (n: TableCall)
    ensures o.notes != "" ==> n.threePartTable && n.captionAbove
    ensures o.notes == "" ==> n == o
    ensures n.(threePartTable := o.threePartTable, captionAbove := o.captionAbove) == o
  {
    if IntendedCondition(Some(o.notes)) then
      o.(threePartTable := true, captionAbove := true)
    else
      o
  }

  /** `append_table` with the intended override. */
  function AppendTableIntended(o: TableCall, body: string): (r: string)
    ensures r == Render(Layout(NormalizeIntended(o), body))
  {
    WritesMatchLayout(NormalizeIntended(o), body);
    Concat(Writes(NormalizeIntended(o), body))
  }

  /** The call with every default (lines 123-125): a `table` placed `[htp]`
      with `\small`, no caption and no label.  The override still opens a
      `threeparttable` with an empty `tablenotes` block, and the missing
      caption and label leave a bare line break above the body. */
  lemma DefaultTableText(body: string)
    ensures Layout(Normalize(DefaultTable()), body) ==
      [Begin(TableEnv, "[htp]"), Begin(ThreePartTable, ""), Directive("small"),
       CaptionLine("", ""), Body(body),
       Begin(TableNotes, ""), NoteText(""), End(TableNotes, true), End(ThreePartTable, true),
       End(TableEnv, false), Gap]
    ensures AppendTable(DefaultTable(), body) ==
      "\\begin{table}[htp]\n"
      + ("\\begin{threeparttable}\n" + "\\small\n")
      + ("\n" + body)
      + ("\\begin{tablenotes}\n" + "\n" + "\\end{tablenotes}\n" + "\\end{threeparttable}\n")
      + ("\\end{table}" + "\n\n")
  {
    var o := DefaultTable();
    assert CaptionSegment(o.caption) == "" && LabelSegment(TableLabel, o.lab) == "";
    assert "\\begin{table}" + "[htp]" + "\n" == "\\begin{table}[htp]\n";
    assert "" + "\\begin{threeparttable}\n" + "\\small\n" == "\\begin{threeparttable}\n" + "\\small\n";
    assert "" + "" + "\n" + body == "\n" + body;
    assert NotesOpenLine + "" + "\n" + NotesCloseLine + ThreePartCloseLine
      == "\\begin{tablenotes}\n" + "\n" + "\\end{tablenotes}\n" + "\\end{threeparttable}\n";
    assert "\\end{table}" + "" + "\n\n" == "\\end{table}" + "\n\n";
  }

  /** On an empty-notes call the as-written override still wraps the table
      in `threeparttable`, writes an empty `tablenotes` block and puts the
      caption above the body although the caller asked for it below. */
  lemma OverrideOnEmptyNotes(body: string)
    ensures var o := DefaultTable().(captionAbove := false);
      OverrideCondition(Some(o.notes)) &&
      !o.threePartTable &&
      Count(Layout(Normalize(o), body), NoteText("")) == 1 &&
      Find(Layout(Normalize(o), body), Caption(o)) < Find(Layout(Normalize(o), body), Body(body))
  {
    OverrideConsequences(DefaultTable().(captionAbove := false), body);
  }

  /** The intended override agrees with the source whenever notes are
      given. */
  lemma IntendedAgreesWithNotes(o: TableCall, body: string)
    requires o.notes != ""
    ensures AppendTableIntended(o, body) == AppendTable(o, body)
  {
    AppendTableLayout(o, body);
    assert NormalizeIntended(o) == Normalize(o);
  }

  /** Without notes the intended override leaves the caller's flags in
      charge: `threeparttable` is opened exactly when asked for and the
      caption goes where the caller put it. */
  lemma IntendedKeepsFlags(o: TableCall, body: string)
    requires o.notes == ""
    ensures Opened(Layout(NormalizeIntended(o), body)) ==
      OuterEnvs(o.sideways) + (if o.threePartTable then [ThreePartTable, TableNotes] else [])
    ensures Find(Layout(NormalizeIntended(o), body), Caption(o)) < Find(Layout(NormalizeIntended(o), body), Body(body))
      <==> o.captionAbove
  {
    LayoutOpened(o, body);
    CaptionPlacement(o, body);
  }
}

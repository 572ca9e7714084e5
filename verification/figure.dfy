/** `append_figure` (pytextools/__init__.py lines 79-120): one figure
    environment holding a single `\includegraphics`, optionally turned
    sideways, captioned and labelled. */
module Figure {
  import opened PyFormat
  import opened Captions

  /** The arguments of `append_figure` other than the file handle. */
  datatype FigureCall = FigureCall(
    path: string,
    sideways: bool,
    caption: Option<string>,
    lab: Option<string>,
    loc: string,
    width: string,
    figArgs: string)

  /** A call that passes only the figure path; in the source's non-raw
      default `'\linewidth'` the `\l` is a backslash followed by `l`. */
  function DefaultFigure(path: string): FigureCall {
    FigureCall(path, false, None, None, "[htp]", "\\linewidth", "")
  }

  /** The raw module-level templates `swfig` and `normalfig`, one literal
      per source line (each line begins with the line break before it). */
  const SidewaysFigure: string :=
    "\n\\begin{{sidewaysfigure}}{0}" +
    "\n    \\centering" +
    "\n    \\includegraphics[{1}]{{{2}}}{3}{4}" +
    "\n\\end{{sidewaysfigure}}"

  const NormalFigure: string :=
    "\n\\begin{{figure}}{0}" +
    "\n    \\centering" +
    "\n    \\includegraphics[{1}]{{{2}}}{3}{4}" +
    "\n\\end{{figure}}"

  function FigureTemplate(sideways: bool): string {
    if sideways then SidewaysFigure else NormalFigure
  }

  function Environment(sideways: bool): (env: string)
    ensures BraceFree(env)
  {
    if sideways then "sidewaysfigure" else "figure"
  }

  // The figure templates read token by token.  Each source line is a
  // function that appends that line's tokens to the tokens before it.

  /** Line `\begin{{<env>}}{0}`. */
  function BeginLine(p: Tokens, env: string): Tokens {
    p.Add(Text("\n\\begin")).Add(LeftBrace).Add(Text(env)).Add(RightBrace).Add(Field(0))
  }

  lemma BeginLineSource(p: Tokens, env: string)
    ensures Source(BeginLine(p, env)) == Source(p) + "\n\\begin" + "{{" + env + "}}" + "{0}"
  {
    assert TokenSource(Field(0)) == "{0}";
    var t1 := p.Add(Text("\n\\begin"));
    var t2 := t1.Add(LeftBrace);
    var t3 := t2.Add(Text(env));
    var t4 := t3.Add(RightBrace);
    var t5 := t4.Add(Field(0));
    assert BeginLine(p, env) == t5;
    assert Source(t1) == Source(p) + "\n\\begin";
    assert Source(t2) == Source(p) + "\n\\begin" + "{{";
    assert Source(t3) == Source(p) + "\n\\begin" + "{{" + env;
    assert Source(t4) == Source(p) + "\n\\begin" + "{{" + env + "}}";
    assert Source(t5) == Source(p) + "\n\\begin" + "{{" + env + "}}" + "{0}";
  }

  lemma BeginLineExpand(p: Tokens, env: string, a: seq<string>)
    requires WellFormed(p, 5) && |a| == 5 && BraceFree(env)
    ensures WellFormed(BeginLine(p, env), 5)
    ensures Expand(BeginLine(p, env), a) == Expand(p, a) + "\n\\begin{" + env + "}" + a[0]
  {
    var t1 := p.Add(Text("\n\\begin"));
    var t2 := t1.Add(LeftBrace);
    var t3 := t2.Add(Text(env));
    var t4 := t3.Add(RightBrace);
    var t5 := t4.Add(Field(0));
    assert BeginLine(p, env) == t5;
    assert WellFormed(t1, 5);
    assert WellFormed(t2, 5);
    assert WellFormed(t3, 5);
    assert WellFormed(t4, 5);
    assert WellFormed(t5, 5);
    assert Expand(t1, a) == Expand(p, a) + "\n\\begin";
    assert Expand(t2, a) == Expand(p, a) + "\n\\begin{";
    assert Expand(t3, a) == Expand(p, a) + "\n\\begin{" + env;
    assert Expand(t4, a) == Expand(p, a) + "\n\\begin{" + env + "}";
    assert Expand(t5, a) == Expand(p, a) + "\n\\begin{" + env + "}" + a[0];
  }

  /** Line `    \centering`. */
  function CenteringLine(p: Tokens): Tokens {
    p.Add(Text("\n    \\centering"))
  }

  lemma CenteringLineSource(p: Tokens)
    ensures Source(CenteringLine(p)) == Source(p) + "\n    \\centering"
  {
    var t1 := p.Add(Text("\n    \\centering"));
    assert CenteringLine(p) == t1;
    assert Source(t1) == Source(p) + "\n    \\centering";
  }

  lemma CenteringLineExpand(p: Tokens, a: seq<string>)
    requires WellFormed(p, 5) && |a| == 5
    ensures WellFormed(CenteringLine(p), 5)
    ensures Expand(CenteringLine(p), a) == Expand(p, a) + "\n    \\centering"
  {
    var t1 := p.Add(Text("\n    \\centering"));
    assert CenteringLine(p) == t1;
    assert WellFormed(t1, 5);
    assert Expand(t1, a) == Expand(p, a) + "\n    \\centering";
  }

  /** Line `    \includegraphics[{1}]{{{2}}}{3}{4}`. */
  function GraphicsLine(p: Tokens): Tokens {
    p.Add(Text("\n    \\includegraphics[")).Add(Field(1)).Add(Text("]")).Add(LeftBrace).Add(Field(2)).Add(RightBrace).Add(Field(3)).Add(Field(4))
  }

  lemma GraphicsLineSource(p: Tokens)
    ensures Source(GraphicsLine(p)) == Source(p) + "\n    \\includegraphics[" + "{1}" + "]" + "{{" + "{2}" + "}}" + "{3}" + "{4}"
  {
    assert TokenSource(Field(1)) == "{1}";
    assert TokenSource(Field(2)) == "{2}";
    assert TokenSource(Field(3)) == "{3}";
    assert TokenSource(Field(4)) == "{4}";
    var t1 := p.Add(Text("\n    \\includegraphics["));
    var t2 := t1.Add(Field(1));
    var t3 := t2.Add(Text("]"));
    var t4 := t3.Add(LeftBrace);
    var t5 := t4.Add(Field(2));
    var t6 := t5.Add(RightBrace);
    var t7 := t6.Add(Field(3));
    var t8 := t7.Add(Field(4));
    assert GraphicsLine(p) == t8;
    assert Source(t1) == Source(p) + "\n    \\includegraphics[";
    assert Source(t2) == Source(p) + "\n    \\includegraphics[" + "{1}";
    assert Source(t3) == Source(p) + "\n    \\includegraphics[" + "{1}" + "]";
    assert Source(t4) == Source(p) + "\n    \\includegraphics[" + "{1}" + "]" + "{{";
    assert Source(t5) == Source(p) + "\n    \\includegraphics[" + "{1}" + "]" + "{{" + "{2}";
    assert Source(t6) == Source(p) + "\n    \\includegraphics[" + "{1}" + "]" + "{{" + "{2}" + "}}";
    assert Source(t7) == Source(p) + "\n    \\includegraphics[" + "{1}" + "]" + "{{" + "{2}" + "}}" + "{3}";
    assert Source(t8) == Source(p) + "\n    \\includegraphics[" + "{1}" + "]" + "{{" + "{2}" + "}}" + "{3}" + "{4}";
  }

  lemma GraphicsLineExpand(p: Tokens, a: seq<string>)
    requires WellFormed(p, 5) && |a| == 5
    ensures WellFormed(GraphicsLine(p), 5)
    ensures Expand(GraphicsLine(p), a) == Expand(p, a) + "\n    \\includegraphics[" + a[1] + "]{" + a[2] + "}" + a[3] + a[4]
  {
    var t1 := p.Add(Text("\n    \\includegraphics["));
    var t2 := t1.Add(Field(1));
    var t3 := t2.Add(Text("]"));
    var t4 := t3.Add(LeftBrace);
    var t5 := t4.Add(Field(2));
    var t6 := t5.Add(RightBrace);
    var t7 := t6.Add(Field(3));
    var t8 := t7.Add(Field(4));
    assert GraphicsLine(p) == t8;
    assert WellFormed(t1, 5);
    assert WellFormed(t2, 5);
    assert WellFormed(t3, 5);
    assert WellFormed(t4, 5);
    assert WellFormed(t5, 5);
    assert WellFormed(t6, 5);
    assert WellFormed(t7, 5);
    assert WellFormed(t8, 5);
    assert Expand(t1, a) == Expand(p, a) + "\n    \\includegraphics[";
    assert Expand(t2, a) == Expand(p, a) + "\n    \\includegraphics[" + a[1];
    assert Expand(t3, a) == Expand(p, a) + "\n    \\includegraphics[" + a[1] + "]";
    assert Expand(t4, a) == Expand(p, a) + "\n    \\includegraphics[" + a[1] + "]{";
    assert Expand(t5, a) == Expand(p, a) + "\n    \\includegraphics[" + a[1] + "]{" + a[2];
    assert Expand(t6, a) == Expand(p, a) + "\n    \\includegraphics[" + a[1] + "]{" + a[2] + "}";
    assert Expand(t7, a) == Expand(p, a) + "\n    \\includegraphics[" + a[1] + "]{" + a[2] + "}" + a[3];
    assert Expand(t8, a) == Expand(p, a) + "\n    \\includegraphics[" + a[1] + "]{" + a[2] + "}" + a[3] + a[4];
  }

  /** Line `\end{{<env>}}`. */
  function EndLine(p: Tokens, env: string): Tokens {
    p.Add(Text("\n\\end")).Add(LeftBrace).Add(Text(env)).Add(RightBrace)
  }

  lemma EndLineSource(p: Tokens, env: string)
    ensures Source(EndLine(p, env)) == Source(p) + "\n\\end" + "{{" + env + "}}"
  {
    var t1 := p.Add(Text("\n\\end"));
    var t2 := t1.Add(LeftBrace);
    var t3 := t2.Add(Text(env));
    var t4 := t3.Add(RightBrace);
    assert EndLine(p, env) == t4;
    assert Source(t1) == Source(p) + "\n\\end";
    assert Source(t2) == Source(p) + "\n\\end" + "{{";
    assert Source(t3) == Source(p) + "\n\\end" + "{{" + env;
    assert Source(t4) == Source(p) + "\n\\end" + "{{" + env + "}}";
  }

  lemma EndLineExpand(p: Tokens, env: string, a: seq<string>)
    requires WellFormed(p, 5) && |a| == 5 && BraceFree(env)
    ensures WellFormed(EndLine(p, env), 5)
    ensures Expand(EndLine(p, env), a) == Expand(p, a) + "\n\\end{" + env + "}"
  {
    var t1 := p.Add(Text("\n\\end"));
    var t2 := t1.Add(LeftBrace);
    var t3 := t2.Add(Text(env));
    var t4 := t3.Add(RightBrace);
    assert EndLine(p, env) == t4;
    assert WellFormed(t1, 5);
    assert WellFormed(t2, 5);
    assert WellFormed(t3, 5);
    assert WellFormed(t4, 5);
    assert Expand(t1, a) == Expand(p, a) + "\n\\end";
    assert Expand(t2, a) == Expand(p, a) + "\n\\end{";
    assert Expand(t3, a) == Expand(p, a) + "\n\\end{" + env;
    assert Expand(t4, a) == Expand(p, a) + "\n\\end{" + env + "}";
  }

  function FigureTokens(env: string): Tokens {
    EndLine(GraphicsLine(CenteringLine(BeginLine(Start, env))), env)
  }

  // Each line's tokens spell that line of the template.

  lemma BeginLineText(env: string)
    ensures Source(BeginLine(Start, env)) == "\n\\begin{{" + env + "}}{0}"
  {
    BeginLineSource(Start, env);
  }

  lemma Assoc(x: string, a: string, b: string)
    ensures x + a + b == x + (a + b)
  {
  }

  lemma GraphicsLineText(p: Tokens)
    ensures Source(GraphicsLine(p)) == Source(p) + "\n    \\includegraphics[{1}]{{{2}}}{3}{4}"
  {
    GraphicsLineSource(p);
    var x := Source(p);
    Assoc(x, "\n    \\includegraphics[", "{1}");
    assert "\n    \\includegraphics[" + "{1}" == "\n    \\includegraphics[{1}";
    Assoc(x, "\n    \\includegraphics[{1}", "]");
    assert "\n    \\includegraphics[{1}" + "]" == "\n    \\includegraphics[{1}]";
    Assoc(x, "\n    \\includegraphics[{1}]", "{{");
    assert "\n    \\includegraphics[{1}]" + "{{" == "\n    \\includegraphics[{1}]{{";
    Assoc(x, "\n    \\includegraphics[{1}]{{", "{2}");
    assert "\n    \\includegraphics[{1}]{{" + "{2}" == "\n    \\includegraphics[{1}]{{{2}";
    Assoc(x, "\n    \\includegraphics[{1}]{{{2}", "}}");
    assert "\n    \\includegraphics[{1}]{{{2}" + "}}" == "\n    \\includegraphics[{1}]{{{2}}}";
    Assoc(x, "\n    \\includegraphics[{1}]{{{2}}}", "{3}");
    assert "\n    \\includegraphics[{1}]{{{2}}}" + "{3}" == "\n    \\includegraphics[{1}]{{{2}}}{3}";
    Assoc(x, "\n    \\includegraphics[{1}]{{{2}}}{3}", "{4}");
    assert "\n    \\includegraphics[{1}]{{{2}}}{3}" + "{4}" == "\n    \\includegraphics[{1}]{{{2}}}{3}{4}";
  }

  lemma EndLineText(p: Tokens, env: string)
    ensures Source(EndLine(p, env)) == Source(p) + ("\n\\end{{" + env + "}}")
  {
    EndLineSource(p, env);
  }

  lemma FigureTokensSource(env: string)
    ensures Source(FigureTokens(env)) ==
      ("\n\\begin{{" + env + "}}{0}") +
      "\n    \\centering" +
      "\n    \\includegraphics[{1}]{{{2}}}{3}{4}" +
      ("\n\\end{{" + env + "}}")
  {
    var p1 := BeginLine(Start, env);
    BeginLineText(env);
    var p2 := CenteringLine(p1);
    CenteringLineSource(p1);
    var p3 := GraphicsLine(p2);
    GraphicsLineText(p2);
    EndLineText(p3, env);
  }

  /** What a figure template expands to, for any five arguments. */
  lemma FigureTokensExpand(env: string, a: seq<string>)
    requires BraceFree(env) && |a| == 5
    ensures WellFormed(FigureTokens(env), 5)
    ensures Expand(FigureTokens(env), a) ==
      "\n\\begin{" + env + "}" + a[0] +
      "\n    \\centering" +
      "\n    \\includegraphics[" + a[1] + "]{" + a[2] + "}" + a[3] + a[4] +
      "\n\\end{" + env + "}"
  {
    var p1 := BeginLine(Start, env);
    BeginLineExpand(Start, env, a);
    var e1 := "\n\\begin{" + env + "}" + a[0];
    assert Expand(p1, a) == e1;
    var p2 := CenteringLine(p1);
    CenteringLineExpand(p1, a);
    var e2 := e1 + "\n    \\centering";
    assert Expand(p2, a) == e2;
    var p3 := GraphicsLine(p2);
    GraphicsLineExpand(p2, a);
    var e3 := e2 + "\n    \\includegraphics[" + a[1] + "]{" + a[2] + "}" + a[3] + a[4];
    assert Expand(p3, a) == e3;
    EndLineExpand(p3, env, a);
    assert Expand(FigureTokens(env), a) == e3 + "\n\\end{" + env + "}";
  }

  lemma SidewaysBeginEnd()
    ensures "\n\\begin{{" + "sidewaysfigure" + "}}{0}" == "\n\\begin{{sidewaysfigure}}{0}"
    ensures "\n\\end{{" + "sidewaysfigure" + "}}" == "\n\\end{{sidewaysfigure}}"
  {
  }

  lemma NormalBeginEnd()
    ensures "\n\\begin{{" + "figure" + "}}{0}" == "\n\\begin{{figure}}{0}"
    ensures "\n\\end{{" + "figure" + "}}" == "\n\\end{{figure}}"
  {
  }

  lemma SidewaysTemplateSource()
    ensures Source(FigureTokens("sidewaysfigure")) == SidewaysFigure
  {
    FigureTokensSource("sidewaysfigure");
    SidewaysBeginEnd();
  }

  lemma NormalTemplateSource()
    ensures Source(FigureTokens("figure")) == NormalFigure
  {
    FigureTokensSource("figure");
    NormalBeginEnd();
  }

  /** The token lists spell out exactly `swfig` and `normalfig`. */
  lemma FigureTemplateSource(sideways: bool)
    ensures Source(FigureTokens(Environment(sideways))) == FigureTemplate(sideways)
  {
    if sideways {
      SidewaysTemplateSource();
    } else {
      NormalTemplateSource();
    }
  }

  /** `width={0}`. */
  function WidthOption(p: Tokens): Tokens {
    p.Add(Text("width=")).Add(Field(0))
  }

  lemma WidthOptionSource(p: Tokens)
    ensures Source(WidthOption(p)) == Source(p) + "width=" + "{0}"
  {
    assert TokenSource(Field(0)) == "{0}";
    var t1 := p.Add(Text("width="));
    var t2 := t1.Add(Field(0));
    assert WidthOption(p) == t2;
    assert Source(t1) == Source(p) + "width=";
    assert Source(t2) == Source(p) + "width=" + "{0}";
  }

  lemma WidthOptionExpand(p: Tokens, a: seq<string>)
    requires WellFormed(p, 1) && |a| == 1
    ensures WellFormed(WidthOption(p), 1)
    ensures Expand(WidthOption(p), a) == Expand(p, a) + "width=" + a[0]
  {
    var t1 := p.Add(Text("width="));
    var t2 := t1.Add(Field(0));
    assert WidthOption(p) == t2;
    assert WellFormed(t1, 1);
    assert WellFormed(t2, 1);
    assert Expand(t1, a) == Expand(p, a) + "width=";
    assert Expand(t2, a) == Expand(p, a) + "width=" + a[0];
  }

  /** `,{0}`. */
  function ExtraOptions(p: Tokens): Tokens {
    p.Add(Text(",")).Add(Field(0))
  }

  lemma ExtraOptionsSource(p: Tokens)
    ensures Source(ExtraOptions(p)) == Source(p) + "," + "{0}"
  {
    assert TokenSource(Field(0)) == "{0}";
    var t1 := p.Add(Text(","));
    var t2 := t1.Add(Field(0));
    assert ExtraOptions(p) == t2;
    assert Source(t1) == Source(p) + ",";
    assert Source(t2) == Source(p) + "," + "{0}";
  }

  lemma ExtraOptionsExpand(p: Tokens, a: seq<string>)
    requires WellFormed(p, 1) && |a| == 1
    ensures WellFormed(ExtraOptions(p), 1)
    ensures Expand(ExtraOptions(p), a) == Expand(p, a) + "," + a[0]
  {
    var t1 := p.Add(Text(","));
    var t2 := t1.Add(Field(0));
    assert ExtraOptions(p) == t2;
    assert WellFormed(t1, 1);
    assert WellFormed(t2, 1);
    assert Expand(t1, a) == Expand(p, a) + ",";
    assert Expand(t2, a) == Expand(p, a) + "," + a[0];
  }

  /** The `\includegraphics` options: `width=<width>`, followed by a comma
      and `fig_args` when `fig_args` is non-empty (Python truthiness). */
  function IncludeArgs(width: string, figArgs: string): (r: string)
    ensures figArgs == [] ==> r == "width=" + width
    ensures figArgs != [] ==> r == "width=" + width + "," + figArgs
  {
    WidthOptionSource(Start);
    WidthOptionExpand(Start, [width]);
    FormatSource(WidthOption(Start), [width]);
    var args := Format("width={0}", [width]).text;
    if figArgs != [] then
      ExtraOptionsSource(Start);
      ExtraOptionsExpand(Start, [figArgs]);
      FormatSource(ExtraOptions(Start), [figArgs]);
      args + Format(",{0}", [figArgs]).text
    else
      args
  }

  /** The text `append_figure` writes: the template formatted with the
      location, the graphics options, the path, the caption and the label,
      then one blank line. */
  function AppendFigure(f: FigureCall): (r: string)
    ensures r ==
      "\n\\begin{" + Environment(f.sideways) + "}" + f.loc +
      "\n    \\centering" +
      "\n    \\includegraphics[" + IncludeArgs(f.width, f.figArgs) + "]{" + f.path + "}" +
      CaptionSegment(f.caption) + LabelSegment(FigureLabel, f.lab) +
      "\n\\end{" + Environment(f.sideways) + "}" +
      "\n\n"
  {
    var env := Environment(f.sideways);
    var args := [f.loc, IncludeArgs(f.width, f.figArgs), f.path,
                 CaptionSegment(f.caption), LabelSegment(FigureLabel, f.lab)];
    FigureTemplateSource(f.sideways);
    FigureTokensExpand(env, args);
    FormatSource(FigureTokens(env), args);
    Format(FigureTemplate(f.sideways), args).text + "\n\n"
  }

  /** The default call: a plain `figure` placed `[htp]` at the full line
      width, with neither caption nor label. */
  lemma DefaultFigureText(path: string)
    ensures AppendFigure(DefaultFigure(path)) ==
      "\n\\begin{figure}[htp]" + "\n    \\centering" +
      "\n    \\includegraphics[width=\\linewidth]{" + path + "}" +
      "\n\\end{figure}" + "\n\n"
  {
    var f := DefaultFigure(path);
    assert IncludeArgs(f.width, f.figArgs) == "width=\\linewidth";
    assert CaptionSegment(f.caption) == "" && LabelSegment(FigureLabel, f.lab) == "";
    DefaultBegin();
    var y := "\n\\begin{figure}[htp]" + "\n    \\centering";
    DefaultGraphics(y);
    var x := y + "\n    \\includegraphics[width=\\linewidth]{" + path;
    assert AppendFigure(f) == x + "}" + "" + "" + "\n\\end{" + "figure" + "}" + "\n\n";
    assert "\n\\end{" + "figure" + "}" == "\n\\end{figure}";
    Assoc(x + "}", "\n\\end{" + "figure", "}");
  }

  lemma DefaultBegin()
    ensures "\n\\begin{" + "figure" + "}" + "[htp]" == "\n\\begin{figure}[htp]"
  {
    assert "\n\\begin{" + "figure" == "\n\\begin{figure";
    assert "\n\\begin{figure" + "}" == "\n\\begin{figure}";
  }

  lemma DefaultGraphics(y: string)
    ensures y + "\n    \\includegraphics[" + "width=\\linewidth" + "]{"
      == y + "\n    \\includegraphics[width=\\linewidth]{"
  {
    Assoc(y, "\n    \\includegraphics[", "width=\\linewidth");
    assert "\n    \\includegraphics[" + "width=\\linewidth" == "\n    \\includegraphics[width=\\linewidth";
    Assoc(y, "\n    \\includegraphics[width=\\linewidth", "]{");
  }


  // ---------------------------------------------------------------------
  // Properties of the figure text.

  /** `s` begins with `p`. */
  predicate StartsWith(s: string, p: string) {
    |p| <= |s| && s[..|p|] == p
  }

  lemma TakeAppend(a: string, b: string, k: nat)
    requires k <= |a|
    ensures (a + b)[..k] == a[..k]
  {
  }

  /** The text starts with the opening line of the chosen environment. */
  lemma FigureOpening(f: FigureCall)
    ensures StartsWith(AppendFigure(f), "\n\\begin{" + Environment(f.sideways) + "}")
  {
    var env := Environment(f.sideways);
    var t0 := "\n\\begin{" + env + "}";
    var k := |t0|;
    var t1 := t0 + f.loc;
    var t2 := t1 + "\n    \\centering";
    var t3 := t2 + "\n    \\includegraphics[";
    var t4 := t3 + IncludeArgs(f.width, f.figArgs);
    var t5 := t4 + "]{";
    var t6 := t5 + f.path;
    var t7 := t6 + "}";
    var t8 := t7 + CaptionSegment(f.caption);
    var t9 := t8 + LabelSegment(FigureLabel, f.lab);
    var t10 := t9 + "\n\\end{";
    var t11 := t10 + env;
    var t12 := t11 + "}";
    var t13 := t12 + "\n\n";
    assert AppendFigure(f) == t13;
    TakeAppend(t0, f.loc, k);
    TakeAppend(t1, "\n    \\centering", k);
    TakeAppend(t2, "\n    \\includegraphics[", k);
    TakeAppend(t3, IncludeArgs(f.width, f.figArgs), k);
    TakeAppend(t4, "]{", k);
    TakeAppend(t5, f.path, k);
    TakeAppend(t6, "}", k);
    TakeAppend(t7, CaptionSegment(f.caption), k);
    TakeAppend(t8, LabelSegment(FigureLabel, f.lab), k);
    TakeAppend(t9, "\n\\end{", k);
    TakeAppend(t10, env, k);
    TakeAppend(t11, "}", k);
    TakeAppend(t12, "\n\n", k);
    assert t0[..k] == t0;
  }

  /** Which of the two environment openers a text starting with `env`'s
      opener begins with. */
  lemma OpenerChoice(s: string, sideways: bool)
    requires StartsWith(s, "\n\\begin{" + Environment(sideways) + "}")
    ensures StartsWith(s, "\n\\begin{sidewaysfigure}") <==> sideways
    ensures StartsWith(s, "\n\\begin{figure}") <==> !sideways
  {
    var sw := "\n\\begin{sidewaysfigure}";
    var nf := "\n\\begin{figure}";
    assert sw == "\n\\begin{" + "sidewaysfigure" + "}";
    assert nf == "\n\\begin{" + "figure" + "}";
    if sideways {
      assert s[8] == 's';
    } else {
      assert s[8] == 'f';
    }
  }

  /** The sideways environment is used exactly when `sideways` is set, and
      the ordinary `figure` environment otherwise. */
  lemma FigureEnvironmentChoice(f: FigureCall)
    ensures StartsWith(AppendFigure(f), "\n\\begin{sidewaysfigure}") <==> f.sideways
    ensures StartsWith(AppendFigure(f), "\n\\begin{figure}") <==> !f.sideways
  {
    FigureOpening(f);
    OpenerChoice(AppendFigure(f), f.sideways);
  }

  /** The first comma in `s`, or `|s|` when there is none. */
  function FirstComma(s: string): (i: nat)
    ensures i <= |s|
    ensures i < |s| ==> s[i] == ','
    ensures forall k :: 0 <= k < i ==> s[k] != ','
  {
    if s == [] then 0
    else if s[0] == ',' then 0
    else 1 + FirstComma(s[1..])
  }

  /** Reads the width and the extra options back from an `\includegraphics`
      option string. */
  function ParseIncludeArgs(s: string): Option<(string, string)> {
    if |s| >= 6 && s[..6] == "width=" then
      var rest := s[6..];
      var i := FirstComma(rest);
      if i == |rest| then Some((rest, "")) else Some((rest[..i], rest[i + 1..]))
    else
      None
  }

  lemma FirstCommaAfter(w: string, a: string)
    requires ',' !in w
    ensures FirstComma(w + "," + a) == |w|
  {
    var s := w + "," + a;
    var i := FirstComma(s);
    assert s[|w|] == ',';
  }

  lemma FirstCommaNone(w: string)
    requires ',' !in w
    ensures FirstComma(w) == |w|
  {
  }

  /** The width and the extra options can be read back from the option
      string as long as the width holds no comma. */
  lemma IncludeArgsRoundTrip(width: string, figArgs: string)
    requires ',' !in width
    ensures ParseIncludeArgs(IncludeArgs(width, figArgs)) == Some((width, figArgs))
  {
    var s := IncludeArgs(width, figArgs);
    assert s[..6] == "width=";
    if figArgs == [] {
      assert s[6..] == width;
      FirstCommaNone(width);
    } else {
      var rest := width + "," + figArgs;
      assert s[6..] == rest;
      FirstCommaAfter(width, figArgs);
      assert rest[..|width|] == width;
      assert rest[|width| + 1..] == figArgs;
    }
  }

  /** A comma in the width cannot be told apart from the separator. */
  lemma IncludeArgsAmbiguous()
    ensures IncludeArgs("a,b", "") == IncludeArgs("a", "b")
  {
    assert "width=" + "a,b" == "width=" + "a" + "," + "b";
  }

  /** The number of line breaks in `s`. */
  function Newlines(s: string): nat {
    if s == [] then 0
    else
      assert s == [s[0]] + s[1..];
      Indicator(s[0] == '\n') + Newlines(s[1..])
  }

  lemma {:induction false} NewlinesAppend(a: string, b: string)
    ensures Newlines(a + b) == Newlines(a) + Newlines(b)
  {
    if a == [] {
      assert a + b == b;
    } else {
      assert (a + b)[0] == a[0];
      assert (a + b)[1..] == a[1..] + b;
      NewlinesAppend(a[1..], b);
    }
  }

  lemma {:induction false} NoNewlines(s: string)
    requires '\n' !in s
    ensures Newlines(s) == 0
  {
    if s != [] {
      assert s[0] in s;
      assert forall c | c in s[1..] :: c in s;
      NoNewlines(s[1..]);
    }
  }

  /** A line break followed by text on one line. */
  lemma NewLine(s: string)
    requires '\n' !in s
    ensures Newlines("\n" + s) == 1
  {
    assert ("\n" + s)[1..] == s;
    NoNewlines(s);
  }

  lemma SegmentNewlines(caption: Option<string>, lab: Option<string>)
    requires caption.Some? ==> '\n' !in caption.value
    requires lab.Some? ==> '\n' !in lab.value
    ensures Newlines(CaptionSegment(caption)) == Indicator(caption.Some?)
    ensures Newlines(LabelSegment(FigureLabel, lab)) == Indicator(lab.Some?)
  {
    if caption.Some? {
      var rest := "\\caption{" + caption.value + "}";
      assert CaptionSegment(caption) == "\n" + rest;
      NewLine(rest);
    }
    if lab.Some? {
      var rest := "\\label{" + "fig:" + lab.value + "}";
      assert LabelSegment(FigureLabel, lab) == "\n" + rest;
      NewLine(rest);
    }
  }

  // The fixed lines of the figure templates each hold one line break.

  lemma EnvironmentNewlines(sideways: bool)
    ensures Newlines(Environment(sideways)) == 0
  {
    NoNewlines(Environment(sideways));
  }

  lemma OpenerNewlines(sideways: bool)
    ensures Newlines("\n\\begin{" + Environment(sideways) + "}") == 1
  {
    var env := Environment(sideways);
    NewLine("\\begin{" + env + "}");
    assert "\n\\begin{" + env + "}" == "\n" + ("\\begin{" + env + "}");
  }

  lemma LeadingNewline(s: string)
    requires |s| > 0 && s[0] == '\n' && '\n' !in s[1..]
    ensures Newlines(s) == 1
  {
    NoNewlines(s[1..]);
  }

  lemma CenteringNewlines()
    ensures Newlines("\n    \\centering") == 1
  {
    var s := "\n    \\centering";
    assert forall i | 1 <= i < |s| :: s[i] != '\n';
    LeadingNewline(s);
  }

  lemma GraphicsNewlines()
    ensures Newlines("\n    \\includegraphics[") == 1
  {
    var s := "\n    \\includegraphics[";
    assert forall i | 1 <= i < |s| :: s[i] != '\n';
    LeadingNewline(s);
  }

  lemma CloserNewlines()
    ensures Newlines("\n\\end{") == 1
  {
    NewLine("\\end{");
    assert "\n\\end{" == "\n" + "\\end{";
  }

  lemma GapNewlines()
    ensures Newlines("\n\n") == 2
  {
    NewLine("");
    NewlinesAppend("\n", "\n");
  }

  lemma ArgsNewlines(width: string, figArgs: string)
    requires '\n' !in width && '\n' !in figArgs
    ensures Newlines(IncludeArgs(width, figArgs)) == 0
  {
    var r := IncludeArgs(width, figArgs);
    assert forall i | 0 <= i < 6 :: r[i] == "width="[i];
    NoNewlines(r);
  }

  /** The line breaks of a figure, piece by piece. */
  lemma FigurePieceNewlines(f: FigureCall)
    ensures Newlines(AppendFigure(f)) ==
      Newlines("\n\\begin{" + Environment(f.sideways) + "}") + Newlines(f.loc)
      + Newlines("\n    \\centering") + Newlines("\n    \\includegraphics[")
      + Newlines(IncludeArgs(f.width, f.figArgs)) + Newlines("]{") + Newlines(f.path) + Newlines("}")
      + Newlines(CaptionSegment(f.caption)) + Newlines(LabelSegment(FigureLabel, f.lab))
      + Newlines("\n\\end{") + Newlines(Environment(f.sideways)) + Newlines("}") + Newlines("\n\n")
  {
    var env := Environment(f.sideways);
    var args := IncludeArgs(f.width, f.figArgs);
    var t0 := "\n\\begin{" + env + "}";
    var t1 := t0 + f.loc;
    var t2 := t1 + "\n    \\centering";
    var t3 := t2 + "\n    \\includegraphics[";
    var t4 := t3 + args;
    var t5 := t4 + "]{";
    var t6 := t5 + f.path;
    var t7 := t6 + "}";
    var t8 := t7 + CaptionSegment(f.caption);
    var t9 := t8 + LabelSegment(FigureLabel, f.lab);
    var t10 := t9 + "\n\\end{";
    var t11 := t10 + env;
    var t12 := t11 + "}";
    var t13 := t12 + "\n\n";
    assert AppendFigure(f) == t13;
    NewlinesAppend(t0, f.loc);
    NewlinesAppend(t1, "\n    \\centering");
    NewlinesAppend(t2, "\n    \\includegraphics[");
    NewlinesAppend(t3, args);
    NewlinesAppend(t4, "]{");
    NewlinesAppend(t5, f.path);
    NewlinesAppend(t6, "}");
    NewlinesAppend(t7, CaptionSegment(f.caption));
    NewlinesAppend(t8, LabelSegment(FigureLabel, f.lab));
    NewlinesAppend(t9, "\n\\end{");
    NewlinesAppend(t10, env);
    NewlinesAppend(t11, "}");
    NewlinesAppend(t12, "\n\n");
  }

  /** The template's own text, around the arguments, holds six line
      breaks: one per template line and two for the blank line. */
  lemma TemplateNewlines(sideways: bool)
    ensures Newlines("\n\\begin{" + Environment(sideways) + "}")
      + Newlines("\n    \\centering") + Newlines("\n    \\includegraphics[")
      + Newlines("]{") + Newlines("}")
      + Newlines("\n\\end{") + Newlines(Environment(sideways)) + Newlines("}") + Newlines("\n\n")
      == 6
  {
    OpenerNewlines(sideways);
    EnvironmentNewlines(sideways);
    CenteringNewlines();
    GraphicsNewlines();
    CloserNewlines();
    GapNewlines();
    NoNewlines("]{");
    NoNewlines("}");
  }

  /** The line breaks of a figure: six in the template lines and the
      blank line, plus those of the arguments. */
  lemma FigureNewlinesSplit(f: FigureCall)
    ensures Newlines(AppendFigure(f)) ==
      6 + Newlines(f.loc) + Newlines(IncludeArgs(f.width, f.figArgs)) + Newlines(f.path)
      + Newlines(CaptionSegment(f.caption)) + Newlines(LabelSegment(FigureLabel, f.lab))
  {
    FigurePieceNewlines(f);
    TemplateNewlines(f.sideways);
  }

  /** With single-line arguments a figure takes four lines and a blank
      line, plus one line for a caption and one for a label when given:
      an absent caption or label leaves no empty line behind. */
  lemma FigureLineCount(f: FigureCall)
    requires '\n' !in f.path && '\n' !in f.loc && '\n' !in f.width && '\n' !in f.figArgs
    requires f.caption.Some? ==> '\n' !in f.caption.value
    requires f.lab.Some? ==> '\n' !in f.lab.value
    ensures Newlines(AppendFigure(f)) == 6 + Indicator(f.caption.Some?) + Indicator(f.lab.Some?)
  {
    ArgsNewlines(f.width, f.figArgs);
    NoNewlines(f.loc);
    NoNewlines(f.path);
    SegmentNewlines(f.caption, f.lab);
    FigureNewlinesSplit(f);
  }
}

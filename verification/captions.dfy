/** The optional caption and label lines shared by the figure and table
    emitters (pytextools/__init__.py lines 107-115 and 180-188).  Each is
    built with `str.format` from a one-field template and is the empty string
    when the caller passed `None`. */
module Captions {
  import opened PyFormat

  /** `'\n\caption{{{0}}}'`: in this non-raw literal `\n` is a newline while
      `\c` is not an escape and stays a backslash followed by `c`. */
  const CaptionTemplate: Tokens :=
    Start.Add(Text("\n\\caption")).Add(LeftBrace).Add(Field(0)).Add(RightBrace)

  /** Figures label as `fig:<label>`, tables as `tab:<label>`. */
  datatype LabelKind = FigureLabel | TableLabel

  function LabelPrefix(kind: LabelKind): string {
    match kind
    case FigureLabel => "fig:"
    case TableLabel => "tab:"
  }

  /** `'\n\label{{fig:{0}}}'` and `'\n\label{{tab:{0}}}'`. */
  function LabelTemplate(kind: LabelKind): Tokens {
    Start.Add(Text("\n\\label")).Add(LeftBrace).Add(Text(LabelPrefix(kind))).Add(Field(0)).Add(RightBrace)
  }

  /** The token lists spell out exactly the source's template literals. */
  lemma CaptionTemplateSource()
    ensures Source(CaptionTemplate) == "\n\\caption{{{0}}}"
  {
    assert TokenSource(Field(0)) == "{0}";
  }

  lemma LabelTemplateSource()
    ensures Source(LabelTemplate(FigureLabel)) == "\n\\label{{fig:{0}}}"
    ensures Source(LabelTemplate(TableLabel)) == "\n\\label{{tab:{0}}}"
  {
    assert TokenSource(Field(0)) == "{0}";
  }

  lemma ExpandCaption(c: string)
    ensures WellFormed(CaptionTemplate, 1)
    ensures Expand(CaptionTemplate, [c]) == "\n\\caption{" + c + "}"
  {
    var t1 := Start.Add(Text("\n\\caption"));
    var t2 := t1.Add(LeftBrace);
    var t3 := t2.Add(Field(0));
    var t4 := t3.Add(RightBrace);
    assert WellFormed(t1, 1);
    assert WellFormed(t2, 1);
    assert WellFormed(t3, 1);
    assert WellFormed(t4, 1);
    var a := [c];
    var r1 := "\n\\caption";
    assert Expand(t1, a) == r1;
    var r2 := r1 + "{";
    assert Expand(t2, a) == r2;
    var r3 := r2 + c;
    assert Expand(t3, a) == r3;
    var r4 := r3 + "}";
    assert Expand(t4, a) == r4;
    assert CaptionTemplate == t4;
  }

  lemma ExpandLabel(kind: LabelKind, l: string)
    ensures WellFormed(LabelTemplate(kind), 1)
    ensures Expand(LabelTemplate(kind), [l]) == "\n\\label{" + LabelPrefix(kind) + l + "}"
  {
    var p := LabelPrefix(kind);
    var t1 := Start.Add(Text("\n\\label"));
    var t2 := t1.Add(LeftBrace);
    var t3 := t2.Add(Text(p));
    var t4 := t3.Add(Field(0));
    var t5 := t4.Add(RightBrace);
    assert WellFormed(t1, 1);
    assert WellFormed(t2, 1);
    assert WellFormed(t3, 1);
    assert WellFormed(t4, 1);
    assert WellFormed(t5, 1);
    var a := [l];
    var r1 := "\n\\label";
    assert Expand(t1, a) == r1;
    var r2 := r1 + "{";
    assert Expand(t2, a) == r2;
    var r3 := r2 + p;
    assert Expand(t3, a) == r3;
    var r4 := r3 + l;
    assert Expand(t4, a) == r4;
    var r5 := r4 + "}";
    assert Expand(t5, a) == r5;
    assert LabelTemplate(kind) == t5;
  }

  /** The caption segment: nothing at all when there is no caption, otherwise
      a line break and `\caption{...}` around the caption copied verbatim. */
  function CaptionSegment(caption: Option<string>): (r: string)
    ensures caption.None? ==> r == ""
    ensures caption.Some? ==> r == "\n\\caption{" + caption.value + "}"
  {
    match caption
    case None => ""
    case Some(c) =>
      ExpandCaption(c);
      FormatSource(CaptionTemplate, [c]);
      Format(Source(CaptionTemplate), [c]).text
  }

  /** The label segment: nothing at all when there is no label, otherwise a
      line break and `\label{fig:...}` or `\label{tab:...}`. */
  function LabelSegment(kind: LabelKind, lab: Option<string>): (r: string)
    ensures lab.None? ==> r == ""
    ensures lab.Some? ==> r == "\n\\label{" + LabelPrefix(kind) + lab.value + "}"
  {
    match lab
    case None => ""
    case Some(l) =>
      ExpandLabel(kind, l);
      FormatSource(LabelTemplate(kind), [l]);
      Format(Source(LabelTemplate(kind)), [l]).text
  }
}

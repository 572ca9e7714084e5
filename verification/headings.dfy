/** The heading emitters `append_section_heading`, `append_newpage` and
    `append_chapter_title` (pytextools/__init__.py lines 218-234). */
module Headings {
  import opened PyFormat

  /** `' ' * indent`: Python repeats a string zero times for any count
      that is not positive. */
  function Spaces(indent: int): (r: string)
    ensures |r| == if indent > 0 then indent else 0
    ensures forall i :: 0 <= i < |r| ==> r[i] == ' '
    decreases indent
  {
    if indent <= 0 then "" else " " + Spaces(indent - 1)
  }

  // The templates read token by token, one function per group of tokens.

  /** `{0}\\section{{{1}}}`: the indent, then the section command. */
  function SectionHead(p: Tokens): Tokens {
    p.Add(Field(0)).Add(Text("\\section")).Add(LeftBrace).Add(Field(1)).Add(RightBrace)
  }

  lemma SectionHeadSource(p: Tokens)
    ensures Source(SectionHead(p)) == Source(p) + "{0}" + "\\section" + "{{" + "{1}" + "}}"
  {
    assert TokenSource(Field(0)) == "{0}";
    assert TokenSource(Field(1)) == "{1}";
    var t1 := p.Add(Field(0));
    var t2 := t1.Add(Text("\\section"));
    var t3 := t2.Add(LeftBrace);
    var t4 := t3.Add(Field(1));
    var t5 := t4.Add(RightBrace);
    assert SectionHead(p) == t5;
    assert Source(t1) == Source(p) + "{0}";
    assert Source(t2) == Source(p) + "{0}" + "\\section";
    assert Source(t3) == Source(p) + "{0}" + "\\section" + "{{";
    assert Source(t4) == Source(p) + "{0}" + "\\section" + "{{" + "{1}";
    assert Source(t5) == Source(p) + "{0}" + "\\section" + "{{" + "{1}" + "}}";
  }

  lemma SectionHeadExpand(p: Tokens, n: nat, a: seq<string>)
    requires n >= 2 && WellFormed(p, n) && |a| == n
    ensures WellFormed(SectionHead(p), n)
    ensures Expand(SectionHead(p), a) == Expand(p, a) + a[0] + "\\section{" + a[1] + "}"
  {
    var t1 := p.Add(Field(0));
    var t2 := t1.Add(Text("\\section"));
    var t3 := t2.Add(LeftBrace);
    var t4 := t3.Add(Field(1));
    var t5 := t4.Add(RightBrace);
    assert SectionHead(p) == t5;
    assert WellFormed(t1, n);
    assert WellFormed(t2, n);
    assert WellFormed(t3, n);
    assert WellFormed(t4, n);
    assert WellFormed(t5, n);
    assert Expand(t1, a) == Expand(p, a) + a[0];
    assert Expand(t2, a) == Expand(p, a) + a[0] + "\\section";
    assert Expand(t3, a) == Expand(p, a) + a[0] + "\\section{";
    assert Expand(t4, a) == Expand(p, a) + a[0] + "\\section{" + a[1];
    assert Expand(t5, a) == Expand(p, a) + a[0] + "\\section{" + a[1] + "}";
  }

  /** `\\label{{{2}}}`: the label of a section. */
  function LabelTail(p: Tokens): Tokens {
    p.Add(Text("\\label")).Add(LeftBrace).Add(Field(2)).Add(RightBrace)
  }

  lemma LabelTailSource(p: Tokens)
    ensures Source(LabelTail(p)) == Source(p) + "\\label" + "{{" + "{2}" + "}}"
  {
    assert TokenSource(Field(2)) == "{2}";
    var t1 := p.Add(Text("\\label"));
    var t2 := t1.Add(LeftBrace);
    var t3 := t2.Add(Field(2));
    var t4 := t3.Add(RightBrace);
    assert LabelTail(p) == t4;
    assert Source(t1) == Source(p) + "\\label";
    assert Source(t2) == Source(p) + "\\label" + "{{";
    assert Source(t3) == Source(p) + "\\label" + "{{" + "{2}";
    assert Source(t4) == Source(p) + "\\label" + "{{" + "{2}" + "}}";
  }

  lemma LabelTailExpand(p: Tokens, n: nat, a: seq<string>)
    requires n >= 3 && WellFormed(p, n) && |a| == n
    ensures WellFormed(LabelTail(p), n)
    ensures Expand(LabelTail(p), a) == Expand(p, a) + "\\label{" + a[2] + "}"
  {
    var t1 := p.Add(Text("\\label"));
    var t2 := t1.Add(LeftBrace);
    var t3 := t2.Add(Field(2));
    var t4 := t3.Add(RightBrace);
    assert LabelTail(p) == t4;
    assert WellFormed(t1, n);
    assert WellFormed(t2, n);
    assert WellFormed(t3, n);
    assert WellFormed(t4, n);
    assert Expand(t1, a) == Expand(p, a) + "\\label";
    assert Expand(t2, a) == Expand(p, a) + "\\label{";
    assert Expand(t3, a) == Expand(p, a) + "\\label{" + a[2];
    assert Expand(t4, a) == Expand(p, a) + "\\label{" + a[2] + "}";
  }

  /** The line break ending the heading and the blank line after it. */
  function BlankLine(p: Tokens): Tokens {
    p.Add(Text("\n\n"))
  }

  lemma BlankLineSource(p: Tokens)
    ensures Source(BlankLine(p)) == Source(p) + "\n\n"
  {
    var t1 := p.Add(Text("\n\n"));
    assert BlankLine(p) == t1;
    assert Source(t1) == Source(p) + "\n\n";
  }

  lemma BlankLineExpand(p: Tokens, n: nat, a: seq<string>)
    requires WellFormed(p, n) && |a| == n
    ensures WellFormed(BlankLine(p), n)
    ensures Expand(BlankLine(p), a) == Expand(p, a) + "\n\n"
  {
    var t1 := p.Add(Text("\n\n"));
    assert BlankLine(p) == t1;
    assert WellFormed(t1, n);
    assert Expand(t1, a) == Expand(p, a) + "\n\n";
  }

  /** `\chapter{{{0}}}`: in this non-raw literal `\c` is a backslash followed by `c`. */
  function ChapterHead(p: Tokens): Tokens {
    p.Add(Text("\\chapter")).Add(LeftBrace).Add(Field(0)).Add(RightBrace)
  }

  lemma ChapterHeadSource(p: Tokens)
    ensures Source(ChapterHead(p)) == Source(p) + "\\chapter" + "{{" + "{0}" + "}}"
  {
    assert TokenSource(Field(0)) == "{0}";
    var t1 := p.Add(Text("\\chapter"));
    var t2 := t1.Add(LeftBrace);
    var t3 := t2.Add(Field(0));
    var t4 := t3.Add(RightBrace);
    assert ChapterHead(p) == t4;
    assert Source(t1) == Source(p) + "\\chapter";
    assert Source(t2) == Source(p) + "\\chapter" + "{{";
    assert Source(t3) == Source(p) + "\\chapter" + "{{" + "{0}";
    assert Source(t4) == Source(p) + "\\chapter" + "{{" + "{0}" + "}}";
  }

  lemma ChapterHeadExpand(p: Tokens, a: seq<string>)
    requires WellFormed(p, 1) && |a| == 1
    ensures WellFormed(ChapterHead(p), 1)
    ensures Expand(ChapterHead(p), a) == Expand(p, a) + "\\chapter{" + a[0] + "}"
  {
    var t1 := p.Add(Text("\\chapter"));
    var t2 := t1.Add(LeftBrace);
    var t3 := t2.Add(Field(0));
    var t4 := t3.Add(RightBrace);
    assert ChapterHead(p) == t4;
    assert WellFormed(t1, 1);
    assert WellFormed(t2, 1);
    assert WellFormed(t3, 1);
    assert WellFormed(t4, 1);
    assert Expand(t1, a) == Expand(p, a) + "\\chapter";
    assert Expand(t2, a) == Expand(p, a) + "\\chapter{";
    assert Expand(t3, a) == Expand(p, a) + "\\chapter{" + a[0];
    assert Expand(t4, a) == Expand(p, a) + "\\chapter{" + a[0] + "}";
  }

  /** `\label{{{0}}}`: the label of a chapter. */
  function ChapterLabel(p: Tokens): Tokens {
    p.Add(Text("\\label")).Add(LeftBrace).Add(Field(0)).Add(RightBrace)
  }

  lemma ChapterLabelSource(p: Tokens)
    ensures Source(ChapterLabel(p)) == Source(p) + "\\label" + "{{" + "{0}" + "}}"
  {
    assert TokenSource(Field(0)) == "{0}";
    var t1 := p.Add(Text("\\label"));
    var t2 := t1.Add(LeftBrace);
    var t3 := t2.Add(Field(0));
    var t4 := t3.Add(RightBrace);
    assert ChapterLabel(p) == t4;
    assert Source(t1) == Source(p) + "\\label";
    assert Source(t2) == Source(p) + "\\label" + "{{";
    assert Source(t3) == Source(p) + "\\label" + "{{" + "{0}";
    assert Source(t4) == Source(p) + "\\label" + "{{" + "{0}" + "}}";
  }

  lemma ChapterLabelExpand(p: Tokens, a: seq<string>)
    requires WellFormed(p, 1) && |a| == 1
    ensures WellFormed(ChapterLabel(p), 1)
    ensures Expand(ChapterLabel(p), a) == Expand(p, a) + "\\label{" + a[0] + "}"
  {
    var t1 := p.Add(Text("\\label"));
    var t2 := t1.Add(LeftBrace);
    var t3 := t2.Add(Field(0));
    var t4 := t3.Add(RightBrace);
    assert ChapterLabel(p) == t4;
    assert WellFormed(t1, 1);
    assert WellFormed(t2, 1);
    assert WellFormed(t3, 1);
    assert WellFormed(t4, 1);
    assert Expand(t1, a) == Expand(p, a) + "\\label";
    assert Expand(t2, a) == Expand(p, a) + "\\label{";
    assert Expand(t3, a) == Expand(p, a) + "\\label{" + a[0];
    assert Expand(t4, a) == Expand(p, a) + "\\label{" + a[0] + "}";
  }

  function SectionTokens(): Tokens {
    BlankLine(SectionHead(Start))
  }

  function LabelledSectionTokens(): Tokens {
    BlankLine(LabelTail(SectionHead(Start)))
  }

  /** The templates of lines 220 and 222. */
  const SectionTemplate: string := "{0}\\section{{{1}}}\n\n"
  const LabelledSectionTemplate: string := "{0}\\section{{{1}}}\\label{{{2}}}\n\n"

  lemma SectionTemplateSource()
    ensures Source(SectionTokens()) == SectionTemplate
  {
    SectionHeadSource(Start);
    BlankLineSource(SectionHead(Start));
  }

  lemma SectionHeadText()
    ensures Source(SectionHead(Start)) == "{0}\\section{{{1}}}"
  {
    SectionHeadSource(Start);
  }

  lemma LabelTailText(p: Tokens)
    ensures Source(LabelTail(p)) == Source(p) + "\\label{{{2}}}"
  {
    LabelTailSource(p);
  }

  lemma LabelledSectionLiteral()
    ensures "{0}\\section{{{1}}}" + "\\label{{{2}}}" + "\n\n" == LabelledSectionTemplate
  {
  }

  lemma LabelledSectionTemplateSource()
    ensures Source(LabelledSectionTokens()) == LabelledSectionTemplate
  {
    SectionHeadText();
    LabelTailText(SectionHead(Start));
    BlankLineSource(LabelTail(SectionHead(Start)));
    LabelledSectionLiteral();
  }

  lemma SectionExpand(a: seq<string>)
    requires |a| == 2
    ensures WellFormed(SectionTokens(), 2)
    ensures Expand(SectionTokens(), a) == a[0] + "\\section{" + a[1] + "}" + "\n\n"
  {
    SectionHeadExpand(Start, 2, a);
    BlankLineExpand(SectionHead(Start), 2, a);
  }

  lemma LabelledSectionExpand(a: seq<string>)
    requires |a| == 3
    ensures WellFormed(LabelledSectionTokens(), 3)
    ensures Expand(LabelledSectionTokens(), a) ==
      a[0] + "\\section{" + a[1] + "}" + "\\label{" + a[2] + "}" + "\n\n"
  {
    SectionHeadExpand(Start, 3, a);
    LabelTailExpand(SectionHead(Start), 3, a);
    BlankLineExpand(LabelTail(SectionHead(Start)), 3, a);
  }

  /** `append_section_heading`: the indent, `\section{<name>}`, then
      `\label{<label>}` when a label is given (without any prefix), then a
      blank line. */
  function SectionHeading(secname: string, lab: Option<string>, indent: int): (r: string)
    ensures lab.None? ==> r == Spaces(indent) + "\\section{" + secname + "}" + "\n\n"
    ensures lab.Some? ==>
      r == Spaces(indent) + "\\section{" + secname + "}" + "\\label{" + lab.value + "}" + "\n\n"
  {
    match lab
    case None =>
      var a := [Spaces(indent), secname];
      SectionTemplateSource();
      SectionExpand(a);
      FormatSource(SectionTokens(), a);
      Format(SectionTemplate, a).text
    case Some(l) =>
      var a := [Spaces(indent), secname, l];
      LabelledSectionTemplateSource();
      LabelledSectionExpand(a);
      FormatSource(LabelledSectionTokens(), a);
      Format(LabelledSectionTemplate, a).text
  }

  /** `append_newpage`: the page break command on a line of its own,
      followed by a blank line. */
  function NewPage(): (r: string)
    ensures |r| >= 2 && r[|r| - 2..] == "\n\n"
    ensures r[..|r| - 2] == "\\clearpage" && '\n' !in r[..|r| - 2]
  {
    var r := "\\clearpage" + "\n\n";
    assert r[..|r| - 2] == "\\clearpage";
    r
  }

  const ChapterTemplate: string := "\\chapter{{{0}}}"
  const ChapterLabelTemplate: string := "\\label{{{0}}}"

  lemma ChapterTemplateSource()
    ensures Source(ChapterHead(Start)) == ChapterTemplate
    ensures Source(ChapterLabel(Start)) == ChapterLabelTemplate
  {
    ChapterHeadSource(Start);
    ChapterLabelSource(Start);
  }

  /** Line 230: the formatted chapter command. */
  function ChapterCommand(title: string): (r: string)
    ensures r == "\\chapter{" + title + "}"
  {
    ChapterHeadExpand(Start, [title]);
    FormatSource(ChapterHead(Start), [title]);
    Format(Source(ChapterHead(Start)), [title]).text
  }

  /** Line 232: the formatted label command. */
  function ChapterLabelCommand(l: string): (r: string)
    ensures r == "\\label{" + l + "}"
  {
    ChapterLabelExpand(Start, [l]);
    FormatSource(ChapterLabel(Start), [l]);
    Format(Source(ChapterLabel(Start)), [l]).text
  }

  /** `append_chapter_title`: `\chapter{<title>}`, then `\label{<label>}`
      when a label is given, then a blank line. */
  function ChapterTitle(title: string, lab: Option<string>): (r: string)
    ensures r == "\\chapter{" + title + "}"
      + (if lab.Some? then "\\label{" + lab.value + "}" else "") + "\n\n"
  {
    var txt := ChapterCommand(title);
    var txt := if lab.Some? then txt + ChapterLabelCommand(lab.value) else txt;
    txt + "\n\n"
  }

  // ---------------------------------------------------------------------
  // Properties of the headings.

  /** The number of spaces `s` starts with. */
  function LeadingSpaces(s: string): (n: nat)
    ensures n <= |s|
    ensures forall i :: 0 <= i < n ==> s[i] == ' '
    ensures n < |s| ==> s[n] != ' '
  {
    if s == [] || s[0] != ' ' then 0 else 1 + LeadingSpaces(s[1..])
  }

  lemma LeadingSpacesAt(s: string, k: nat)
    requires k < |s| && s[k] != ' '
    requires forall i :: 0 <= i < k ==> s[i] == ' '
    ensures LeadingSpaces(s) == k
  {
  }

  /** The indent can be read back from a section heading: the number of
      leading spaces is `indent`, or zero when `indent` is not positive. */
  lemma SectionIndent(secname: string, lab: Option<string>, indent: int)
    ensures LeadingSpaces(SectionHeading(secname, lab, indent)) == if indent > 0 then indent else 0
  {
    var sp := Spaces(indent);
    var r := SectionHeading(secname, lab, indent);
    var h := sp + "\\section{";
    assert r[..|h|] == h;
    assert r[|sp|] == h[|sp|] == '\\';
    forall i | 0 <= i < |sp|
      ensures r[i] == ' '
    {
      assert r[i] == h[i] == sp[i];
    }
    LeadingSpacesAt(r, |sp|);
  }

  /** A label goes in just before the closing blank line; nothing else
      about the heading changes. */
  lemma SectionLabelInsertion(secname: string, l: string, indent: int)
    ensures var plain := SectionHeading(secname, None, indent);
      |plain| >= 2 &&
      SectionHeading(secname, Some(l), indent) == plain[..|plain| - 2] + "\\label{" + l + "}" + "\n\n"
  {
    var head := Spaces(indent) + "\\section{" + secname + "}";
    var plain := SectionHeading(secname, None, indent);
    assert plain == head + "\n\n";
    assert plain[..|plain| - 2] == head;
  }

  lemma ChapterLabelInsertion(title: string, l: string)
    ensures var plain := ChapterTitle(title, None);
      |plain| >= 2 &&
      ChapterTitle(title, Some(l)) == plain[..|plain| - 2] + "\\label{" + l + "}" + "\n\n"
  {
    var head := "\\chapter{" + title + "}";
    var plain := ChapterTitle(title, None);
    assert plain == head + "" + "\n\n";
    assert plain[..|plain| - 2] == head;
  }

  /** Every heading emitter finishes with a line break and a blank line. */
  lemma HeadingsEndWithBlankLine(secname: string, title: string, lab: Option<string>, indent: int)
    ensures var s := SectionHeading(secname, lab, indent);
      |s| >= 2 && s[|s| - 2..] == "\n\n"
    ensures var c := ChapterTitle(title, lab);
      |c| >= 2 && c[|c| - 2..] == "\n\n"
    ensures var n := NewPage();
      |n| >= 2 && n[|n| - 2..] == "\n\n" && n[..|n| - 2] == "\\clearpage"
  {
    var s := SectionHeading(secname, lab, indent);
    var c := ChapterTitle(title, lab);
    var n := NewPage();
    assert s[|s| - 2..] == "\n\n";
    assert c[|c| - 2..] == "\n\n";
    assert n == "\\clearpage" + "\n\n";
  }
}

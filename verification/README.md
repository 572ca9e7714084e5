# pytextools LaTeX emitters in Dafny

This project models the LaTeX fragment builders of `pytextools`. Each of them
appends one fragment to an open `.tex` file:

- `append_figure` writes a `figure` or `sidewaysfigure` environment around one
  `\includegraphics`, with an optional caption and label.
- `append_table` wraps a pre-rendered table body in nested environments. These
  are `turn`, `minipage` and `table[H]` for a sideways table, otherwise
  `table{loc}`, then optionally `threeparttable`. It adds optional `\centering`
  and `\small` lines, places the caption and label above or below the body,
  and writes a `tablenotes` block.
- `append_section_heading`, `append_newpage` and `append_chapter_title` write
  headings.

Every file write is treated as appending to one output string. Each emitter
is therefore a pure function from its arguments to a `string`.

Modules:

- `PyFormat` (`py_format.dfy`) models the part of Python 3's `str.format` the
  templates use. That part is the `{{`/`}}` escapes and positional fields
  `{0}`…`{9}`, with substituted values copied verbatim.
  - Templates are also described as token lists (`Tokens`).
  - `FormatSource` proves that formatting a template's text gives the token
    list's expansion.
- `Captions` (`captions.dfy`) models the optional `\caption` and `\label`
  segments shared by figures and tables.
- `Figure` (`figure.dfy`) models `append_figure` and its two module-level
  templates. The templates are kept as the literal source text.
- `Table` (`table.dfy`) models `append_table` in two forms:
  - `Writes` is the sequence of `file.write` arguments, statement by statement.
  - `Layout` is the same output as structural pieces: environment openers and
    closers, directives, the caption line, the body and the notes.
  - `WritesMatchLayout` proves that the two render the same text for every
    combination of flags.
  - Nesting, counts and order are proved on `Layout`.
- `Headings` (`headings.dfy`) models the three heading emitters.

Backslash sequences such as `'\c'`, `'\l'` and `'\e'` in the source's
non-raw literals are not escapes in Python. They are modelled as a backslash
followed by the letter (`"\\c"` in Dafny). The raw templates `swfig` and
`normalfig` start with a line break, because their `r"""` is followed by a
newline.

## Model

| member | source | states |
|---|---|---|
| PyFormat.FormatSource | pytextools/__init__.py:6-7 | A template whose markup braces are doubled and whose fields are `{n}` formats without error. The result is the markup with single braces and each argument inserted verbatim. |
| PyFormat.EscapeRoundTrip | pytextools/__init__.py:6-7 | Doubling every markup brace and then formatting gives back the markup, whatever the arguments. |
| PyFormat.LoneBraces | pytextools/__init__.py:6-7 | A brace meant as markup but left single is read as template syntax. A lone `}`, or a `{` whose field is never closed, gives `ValueError`. So does a `{` inside a field name, as in `{0{}`, because Python 3 rejects it at once. A `{` inside a `[...]` key, as in `{0[{]}`, is part of the key: the field parses, and the index access is reported as `Unsupported`. |
| Captions.CaptionTemplateSource | pytextools/__init__.py:108 | The caption token list spells exactly the literal `'\n\caption{{{0}}}'`, with `\c` kept as a backslash and `c`. |
| Captions.LabelTemplateSource | pytextools/__init__.py:113 | The label token lists spell exactly `'\n\label{{fig:{0}}}'`, and likewise the `tab:` form of line 186. |
| Captions.CaptionSegment | pytextools/__init__.py:107-110 | The result is the empty string when there is no caption. Otherwise it is a line break, then `\caption{`, the caption verbatim, then `}`. |
| Captions.LabelSegment | pytextools/__init__.py:112-115 | The result is the empty string when there is no label. Otherwise it is a line break, then `\label{fig:` (or `tab:`), the label verbatim, then `}`. |
| Figure.FigureTemplateSource | pytextools/__init__.py:8-21 | The token list of the chosen environment spells exactly `swfig` when sideways and `normalfig` otherwise, including the leading line break and the four-space indents. |
| Figure.IncludeArgs | pytextools/__init__.py:117-119 | The result is `width=` plus the width. `,` plus `fig_args` is appended exactly when `fig_args` is non-empty. |
| Figure.AppendFigure | pytextools/__init__.py:102-120 | The output is the chosen template filled with location, options, path, caption segment and label segment in that order, then exactly `"\n\n"`. |
| Figure.DefaultFigureText | pytextools/__init__.py:79-80 | A call that passes only the path writes a plain `figure` placed `[htp]`, with `width=\linewidth` and neither caption nor label. The text is given in full. |
| Figure.FigureEnvironmentChoice | pytextools/__init__.py:102-105 | The output opens `sidewaysfigure` if and only if `sideways`, and opens `figure` if and only if not. |
| Figure.IncludeArgsRoundTrip | pytextools/__init__.py:117-119 | When the width contains no comma, the width and `fig_args` can be read back from the option string. |
| Figure.IncludeArgsAmbiguous | pytextools/__init__.py:117-119 | Without that condition they cannot: width `a,b` with no extra options gives the same string as width `a` with options `b`. |
| Figure.FigureLineCount | pytextools/__init__.py:107-120 | With single-line arguments the fragment has 6 line breaks, plus one per caption and one per label given, so an absent caption or label leaves no empty line. |
| Table.OverrideAlwaysHolds | pytextools/__init__.py:160 | `tablenotes is not None or tablenotes != ""` is true for every value, `None` and `""` included. |
| Table.Normalize | pytextools/__init__.py:160-162 | After the override, `threeparttable` and `caption_above` are both true and every other argument is unchanged. |
| Table.TableOpening | pytextools/__init__.py:169 | Formatting `'\\begin{{table}}{0}\n'` gives `\begin{table}`, then the location, then a line break. |
| Table.AppendTable | pytextools/__init__.py:123-215 | Gives the complete text for every call. It has the opening lines, then `\centering` if asked, and `\begin{threeparttable}` always. Next come `\small` if asked, then caption, label and a line break, then the body. The notes sit between `\begin{tablenotes}` and `\end{tablenotes}`, followed by the closers and `"\n\n"`. |
| Table.DefaultTableText | pytextools/__init__.py:123-125 | The call with every default argument (`DefaultTable`: `small`, `loc='[htp]'`, caption above, no `threeparttable`, empty notes, no caption or label) gives the full layout and text. That is `\begin{table}[htp]`, `\begin{threeparttable}`, `\small`, a bare line break, the body, an empty `tablenotes` block, the closers and `"\n\n"`. |
| Table.WritesMatchLayout | pytextools/__init__.py:164-215 | For every combination of flags, the source's sequence of writes and the structural layout render the same text. |
| Table.AppendTableLayout | pytextools/__init__.py:160-215 | The output of `append_table` is the rendering of the layout of the overridden flags. |
| Table.LayoutBalanced | pytextools/__init__.py:164-213 | Replaying openers and closers on a stack never meets a mismatched closer and ends empty, for every combination of `sideways`, `threeparttable`, `centering`, `small` and `caption_above`. |
| Table.LayoutOpened | pytextools/__init__.py:164-175 | Environments open in the order `turn`, `minipage`, `table` (or `table` alone), then `threeparttable` and `tablenotes` when the flag is set. |
| Table.LayoutClosed | pytextools/__init__.py:202-213 | They close in the reverse order: `tablenotes`, `threeparttable`, then `table`, `minipage`, `turn`. |
| Table.LayoutCounts | pytextools/__init__.py:171-207 | The body and the caption line each occur exactly once. `\centering`, `\small`, the `threeparttable` opener and the notes occur exactly when their flag is set. |
| Table.CaptionPlacement | pytextools/__init__.py:190-200 | The caption line comes before the body if and only if `caption_above`. |
| Table.PreambleOrder | pytextools/__init__.py:171-178 | `\centering` comes before the `threeparttable` opener, which comes before `\small`. Every one of them comes before the caption line and the body. |
| Table.OverrideConsequences | pytextools/__init__.py:160-207 | For every call, the caption precedes the body, the table is wrapped in `threeparttable`, and the notes block occurs exactly once. |
| Table.FlagsIgnored | pytextools/__init__.py:160-162 | The output does not depend on the `threeparttable` or `caption_above` arguments. |
| Table.TableBoundaries | pytextools/__init__.py:164-215 | The fragment starts with the opening lines and ends with `\end{table}`, then the `minipage` and `turn` closers when sideways, then `"\n\n"`. |
| Table.NotesText | pytextools/__init__.py:202-207 | The notes are written verbatim between `\begin{tablenotes}` plus a line break and a line break plus `\end{tablenotes}`, followed by `\end{threeparttable}`. When `threeparttable` is off, nothing is written. |
| Table.OverrideOnEmptyNotes | pytextools/__init__.py:160-162 | On the default call (`DefaultTable`, lines 123-125) with only the caption asked below, and so with empty notes and no `threeparttable`, the source still writes an empty notes block and puts the caption above. |
| Table.NormalizeIntended | pytextools/__init__.py:153-162 | With the test as the docstring describes it, both flags are forced only when notes are non-empty. Otherwise the call is left as it is. |
| Table.AppendTableIntended | pytextools/__init__.py:153-215 | With the intended override, the output is the rendering of the layout of the intended flags. |
| Table.IntendedAgreesWithNotes | pytextools/__init__.py:153-162 | With non-empty notes, the intended override and the source produce the same text. |
| Table.IntendedKeepsFlags | pytextools/__init__.py:153-162 | With empty notes, the intended override opens `threeparttable` exactly when asked, and puts the caption where the caller asked. |
| Headings.Spaces | pytextools/__init__.py:220 | `' ' * indent` is `indent` spaces, or none when `indent` is not positive. |
| Headings.SectionTemplateSource | pytextools/__init__.py:220 | The token list spells exactly `'{0}\\section{{{1}}}\n\n'`. |
| Headings.LabelledSectionTemplateSource | pytextools/__init__.py:222 | The token list spells exactly `'{0}\\section{{{1}}}\label{{{2}}}\n\n'`. |
| Headings.SectionHeading | pytextools/__init__.py:218-222 | The output is the indent, then `\section{name}`, then `\label{label}` when a label is given (with no prefix), then `"\n\n"`. |
| Headings.SectionIndent | pytextools/__init__.py:218-222 | The number of leading spaces of a section heading is the indent, or zero when the indent is not positive. |
| Headings.SectionLabelInsertion | pytextools/__init__.py:219-222 | A labelled heading is the unlabelled one with `\label{label}` inserted just before the closing blank line. |
| Headings.ChapterTemplateSource | pytextools/__init__.py:230-232 | The token lists spell exactly `'\chapter{{{0}}}'` and `'\label{{{0}}}'`. |
| Headings.ChapterCommand | pytextools/__init__.py:230 | Formatting the chapter template gives `\chapter{`, then the title verbatim, then `}`. |
| Headings.ChapterLabelCommand | pytextools/__init__.py:232 | Formatting the label template gives `\label{`, then the label verbatim, then `}`. |
| Headings.ChapterTitle | pytextools/__init__.py:229-234 | The output is `\chapter{title}`, then `\label{label}` when a label is given, then `"\n\n"`. |
| Headings.ChapterLabelInsertion | pytextools/__init__.py:231-234 | A labelled chapter title is the unlabelled one with `\label{label}` inserted just before the closing blank line. |
| Headings.NewPage | pytextools/__init__.py:225-226 | `append_newpage` writes the `\clearpage` command on a line of its own, followed by a blank line. |
| Headings.HeadingsEndWithBlankLine | pytextools/__init__.py:218-234 | Section headings, chapter titles and `\clearpage` all end with `"\n\n"`. |

## Left out

- `fixed` and `scientific` (pytextools/__init__.py:51-76) are not modelled. They rely on Python's float format specifications and `np.isnan`, which are floating-point rendering.
- `with_file`, `_process_file` and `create_dirs` (pytextools/__init__.py:24-48) are not modelled. They are file-handle plumbing and filesystem side effects.
- What the file already holds is not modelled. Each emitter returns the text it appends.
- `df.to_latex` (pytextools/__init__.py:194) is a pandas call. Its result is the opaque `body` string parameter, and `na_rep` and `**kwargs` are not modelled, because they only reach that call.
- `tablenotes=None` is not modelled. `tablenotes` is a plain string whose default is `""`. With `None` the forced notes block would fail at line 204 when writing `None`. `OverrideCondition` still takes the Python value as an option, to show that the test holds for `None` too.
- The usage text at pytextools/__init__.py:236-374 is not modelled. It is a string literal that is never executed.
- PyFormat.LoneBraces: states the `{`-in-a-field-name and `[...]`-key cases on the templates `{0{}` and `{0[{]}` rather than for every template, because no template in the emitters puts braces inside a field. The scan itself (`PyFormat.FieldCloses`) follows Python 3 for every template.
- `PyFormat.Format` covers only the escapes and numbered fields the templates use. Automatic numbering, named fields, attribute and index access, conversions and format specifications are reported as `Unsupported` rather than modelled.
- Two details of the table output are kept exactly as the code writes them:
  - A sideways table ends `\end{table}\end{minipage}\n\end{turn}\n` and then `"\n\n"`. So it has no line break after `\end{table}`, and it ends with three line breaks rather than a single blank line.
  - Lines 192 and 200 write `lab + '\n'` even when there is neither caption nor label, which leaves a bare line break next to the body.
- The override test at line 160 fires for every call, including empty notes, although the docstring (lines 153-155) ties it to notes being given. `Table.AppendTable` follows the code. The docstring's reading is modelled separately, as described under Findings.

## Findings

| source | as written | input that shows it | evidently intended | confidence | as-written member | corrected member |
|---|---|---|---|---|---|---|
| pytextools/__init__.py:160 | `if tablenotes is not None or tablenotes != "":` is true for every value, so `threeparttable` and `caption_above` are always forced | `tablenotes=""` (the default) with `threeparttable=False, caption_above=False`: the output still holds an empty `tablenotes` block and the caption is placed above the body | `tablenotes is not None and tablenotes != ""`: force both flags only when notes are given (docstring lines 153-155) | not executed | Table.OverrideOnEmptyNotes | Table.IntendedKeepsFlags |

`Table.Normalize` and `Table.AppendTable` model the test as written. The
counterexample is `Table.OverrideOnEmptyNotes`, on the default call with the
caption asked below.

`Table.NormalizeIntended` and `Table.AppendTableIntended` model the intended
test:

- `Table.IntendedAgreesWithNotes` proves that the intended test changes
  nothing when notes are given.
- `Table.IntendedKeepsFlags` proves that without notes the caller's flags
  decide the structure.

The structural lemmas (`LayoutBalanced`, `LayoutOpened`, `LayoutClosed`,
`LayoutCounts`, `CaptionPlacement`, `PreambleOrder`) hold for every
combination of flags. They therefore apply to both readings.

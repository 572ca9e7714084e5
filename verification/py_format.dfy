/** Python 3's `str.format`, restricted to the part of its mini-language that
    the emitters' templates use: the escapes `{{` and `}}` and explicit
    positional fields `{0}`, `{1}`, ... .  Substituted values are copied
    verbatim and never scanned again.  A field is scanned as Python 3
    scans it, so a malformed one is a `ValueError`.  A well-formed field
    outside that part (automatic numbering `{}`, named fields, attribute and
    index access, conversions, format specs) is reported as `Unsupported`
    rather than modelled. */
module PyFormat {

  datatype Option<+T> = None | Some(value: T)

  /** Python's `int(b)`: one for `True`, zero for `False`. */
  function Indicator(b: bool): nat {
    if b then 1 else 0
  }

  /** The exceptions Python 3's `str.format` raises: `ValueError` for a lone
      brace or a field that does not parse, `IndexError` for a positional
      index past the end of the arguments. */
  datatype FormatError = ValueError | IndexError | Unsupported

  datatype Formatted = Ok(text: string) | Err(error: FormatError)

  predicate IsDigit(c: char) {
    '0' <= c <= '9'
  }

  /** The decimal digit for `n % 10`. */
  function DigitChar(n: nat): (c: char)
    ensures IsDigit(c)
  {
    ('0' as int + n % 10) as char
  }

  predicate IsBrace(c: char) {
    c == '{' || c == '}'
  }

  /** Text in which neither brace occurs: the format engine copies it as is. */
  predicate BraceFree(s: string) {
    forall i :: 0 <= i < |s| ==> !IsBrace(s[i])
  }

  /** Index just past the run of digits that starts at `i`. */
  function DigitEnd(t: string, i: nat): (j: nat)
    requires i <= |t|
    ensures i <= j <= |t|
    decreases |t| - i
  {
    if i == |t| || !IsDigit(t[i]) then i else DigitEnd(t, i + 1)
  }

  /** Where Python 3's field scan stands: in the field name, inside a `[...]`
      key of the field name, just after `!`, just after the conversion
      character, or inside a format spec `depth` braces deep. */
  datatype FieldState = InName | InKey | AfterBang | AfterConversion | InSpec(depth: nat)

  /** The character `c` ends the field. */
  predicate Ends(s: FieldState, c: char) {
    c == '}' && (s.InName? || s.AfterConversion? || (s.InSpec? && s.depth <= 1))
  }

  /** The character `c` makes the field a `ValueError`: a `{` in the field
      name, or anything but `}` or `:` after a conversion character. */
  predicate Fails(s: FieldState, c: char) {
    (s.InName? && c == '{') || (s.AfterConversion? && c != '}' && c != ':')
  }

  /** The scan state after reading `c`. */
  function Next(s: FieldState, c: char): FieldState {
    match s
    case InName =>
      if c == '[' then InKey
      else if c == ':' then InSpec(1)
      else if c == '!' then AfterBang
      else InName
    case InKey => if c == ']' then InName else InKey
    case AfterBang => AfterConversion
    case AfterConversion => InSpec(1)
    case InSpec(d) =>
      if c == '{' then InSpec(d + 1)
      else if c == '}' && d > 1 then InSpec(d - 1)
      else InSpec(d)
  }

  /** Whether the scan of a replacement field, resumed at `i` in state `s`,
      reaches the `}` that ends the field.  A `[...]` key is skipped whole
      and braces nest only inside a format spec; the scan fails at the end
      of the text. */
  predicate FieldCloses(t: string, i: nat, s: FieldState)
    requires i <= |t|
    decreases |t| - i
  {
    i < |t| && !Fails(s, t[i]) && (Ends(s, t[i]) || FieldCloses(t, i + 1, Next(s, t[i])))
  }

  /** Whether the replacement field whose text starts at `i` parses. */
  predicate HasClose(t: string, i: nat)
    requires i <= |t|
  {
    FieldCloses(t, i, InName)
  }

  /** Decimal value of the digits `t[i..j]`, as Python's `int` reads a field
      name. */
  function DigitsValue(t: string, i: nat, j: nat): nat
    requires i <= j <= |t|
    decreases j - i
  {
    if i == j then 0
    else
      var d := t[j - 1];
      10 * DigitsValue(t, i, j - 1) + (if IsDigit(d) then d as int - '0' as int else 0)
  }

  function Prepend(s: string, r: Formatted): (p: Formatted)
    ensures p.Ok? <==> r.Ok?
    ensures p.Ok? ==> p.text == s + r.text
    ensures p.Err? ==> p == r
  {
    match r
    case Ok(t) => Ok(s + t)
    case Err(e) => Err(e)
  }

  /** `t[i:].format(*args)`: the template is read left to right and the first
      malformed construct decides the exception. */
  function FormatFrom(t: string, i: nat, args: seq<string>): Formatted
    requires i <= |t|
    decreases |t| - i
  {
    if i == |t| then Ok("")
    else if t[i] == '{' then
      if i + 1 < |t| && t[i + 1] == '{' then Prepend("{", FormatFrom(t, i + 2, args))
      else if !HasClose(t, i + 1) then Err(ValueError)
      else
        var j := DigitEnd(t, i + 1);
        if j == i + 1 || j == |t| || t[j] != '}' then Err(Unsupported)
        else
          var n := DigitsValue(t, i + 1, j);
          if n < |args| then Prepend(args[n], FormatFrom(t, j + 1, args))
          else Err(IndexError)
    else if t[i] == '}' then
      if i + 1 < |t| && t[i + 1] == '}' then Prepend("}", FormatFrom(t, i + 2, args))
      else Err(ValueError)
    else Prepend([t[i]], FormatFrom(t, i + 1, args))
  }

  /** `t.format(*args)`. */
  function Format(t: string, args: seq<string>): Formatted {
    FormatFrom(t, 0, args)
  }

  /** Doubles every brace so that `Format` reproduces the text: the convention
      the templates follow for the braces that belong to the markup. */
  function Escape(s: string): (e: string)
    ensures |e| >= |s|
  {
    if |s| == 0 then ""
    else if IsBrace(s[0]) then [s[0], s[0]] + Escape(s[1..])
    else [s[0]] + Escape(s[1..])
  }

  lemma {:induction false} DigitEndShift(p: string, t: string, i: nat)
    requires i <= |t|
    ensures DigitEnd(p + t, |p| + i) == |p| + DigitEnd(t, i)
    decreases |t| - i
  {
    if i < |t| {
      assert (p + t)[|p| + i] == t[i];
      DigitEndShift(p, t, i + 1);
    }
  }

  lemma {:induction false} ClosesShift(p: string, t: string, i: nat, s: FieldState)
    requires i <= |t|
    ensures FieldCloses(p + t, |p| + i, s) == FieldCloses(t, i, s)
    decreases |t| - i
  {
    if i < |t| {
      assert (p + t)[|p| + i] == t[i];
      ClosesShift(p, t, i + 1, Next(s, t[i]));
    }
  }

  lemma HasCloseShift(p: string, t: string, i: nat)
    requires i <= |t|
    ensures HasClose(p + t, |p| + i) == HasClose(t, i)
  {
    ClosesShift(p, t, i, InName);
  }

  lemma {:induction false} DigitsValueShift(p: string, t: string, i: nat, j: nat)
    requires i <= j <= |t|
    ensures DigitsValue(p + t, |p| + i, |p| + j) == DigitsValue(t, i, j)
    decreases j - i
  {
    if i < j {
      assert (p + t)[|p| + j - 1] == t[j - 1];
      DigitsValueShift(p, t, i, j - 1);
    }
  }

  /** Reading a template does not depend on what precedes the read position. */
  lemma {:induction false} FormatShift(p: string, t: string, i: nat, args: seq<string>)
    requires i <= |t|
    ensures FormatFrom(p + t, |p| + i, args) == FormatFrom(t, i, args)
    decreases |t| - i
  {
    var pt := p + t;
    var k := |p| + i;
    if i < |t| {
      assert pt[k] == t[i];
      if i + 1 < |t| {
        assert pt[k + 1] == t[i + 1];
      }
      if t[i] == '{' && !(i + 1 < |t| && t[i + 1] == '{') {
        HasCloseShift(p, t, i + 1);
        DigitEndShift(p, t, i + 1);
        var j := DigitEnd(t, i + 1);
        if j < |t| {
          assert pt[|p| + j] == t[j];
          DigitsValueShift(p, t, i + 1, j);
          FormatShift(p, t, j + 1, args);
        }
      } else if IsBrace(t[i]) {
        if i + 1 < |t| {
          FormatShift(p, t, i + 2, args);
        }
      } else {
        FormatShift(p, t, i + 1, args);
      }
    }
  }

  /** Escaping and formatting are inverse: markup written with doubled braces
      comes out with single ones, whatever the arguments. */
  lemma {:induction false} EscapeRoundTrip(s: string, args: seq<string>)
    ensures Format(Escape(s), args) == Ok(s)
    decreases |s|
  {
    if |s| > 0 {
      var e := Escape(s);
      var rest := Escape(s[1..]);
      EscapeRoundTrip(s[1..], args);
      assert s == [s[0]] + s[1..];
      if IsBrace(s[0]) {
        assert e == [s[0], s[0]] + rest;
        FormatShift([s[0], s[0]], rest, 0, args);
      } else {
        assert e == [s[0]] + rest;
        FormatShift([s[0]], rest, 0, args);
      }
    }
  }

  /** Brace-free text formats to itself. */
  lemma {:induction false} FormatPlainFrom(s: string, i: nat, args: seq<string>)
    requires i <= |s|
    requires BraceFree(s)
    ensures FormatFrom(s, i, args) == Ok(s[i..])
    decreases |s| - i
  {
    if i < |s| {
      assert !IsBrace(s[i]);
      FormatPlainFrom(s, i + 1, args);
      assert s[i..] == [s[i]] + s[i + 1..];
    }
  }

  lemma FormatPlain(s: string, args: seq<string>)
    requires BraceFree(s)
    ensures Format(s, args) == Ok(s)
  {
    FormatPlainFrom(s, 0, args);
  }

  lemma {:induction false} DigitEndAppend(a: string, b: string, i: nat)
    requires i <= |a| && DigitEnd(a, i) < |a|
    ensures DigitEnd(a + b, i) == DigitEnd(a, i)
    decreases |a| - i
  {
    assert (a + b)[i] == a[i];
    if IsDigit(a[i]) {
      DigitEndAppend(a, b, i + 1);
    }
  }

  lemma {:induction false} DigitsValueAppend(a: string, b: string, i: nat, j: nat)
    requires i <= j <= |a|
    ensures DigitsValue(a + b, i, j) == DigitsValue(a, i, j)
    decreases j - i
  {
    if i < j {
      assert (a + b)[j - 1] == a[j - 1];
      DigitsValueAppend(a, b, i, j - 1);
    }
  }

  lemma {:induction false} ClosesAppend(a: string, b: string, i: nat, s: FieldState)
    requires i <= |a|
    requires FieldCloses(a, i, s)
    ensures FieldCloses(a + b, i, s)
    decreases |a| - i
  {
    assert (a + b)[i] == a[i];
    if !Ends(s, a[i]) {
      ClosesAppend(a, b, i + 1, Next(s, a[i]));
    }
  }

  lemma HasCloseAppend(a: string, b: string, i: nat)
    requires i <= |a|
    requires HasClose(a, i)
    ensures HasClose(a + b, i)
  {
    ClosesAppend(a, b, i, InName);
  }

  /** A positional field that formats within `a` reads the same with more
      text after it. */
  lemma FieldAppend(a: string, b: string, i: nat, args: seq<string>)
    requires i < |a| && a[i] == '{' && !(i + 1 < |a| && a[i + 1] == '{')
    requires FormatFrom(a, i, args).Ok?
    ensures var j := DigitEnd(a, i + 1);
      j < |a| && a[j] == '}' && DigitsValue(a, i + 1, j) < |args|
      && FormatFrom(a, i, args) == Prepend(args[DigitsValue(a, i + 1, j)], FormatFrom(a, j + 1, args))
      && FormatFrom(a + b, i, args) == Prepend(args[DigitsValue(a, i + 1, j)], FormatFrom(a + b, j + 1, args))
  {
    var ab := a + b;
    assert ab[i] == a[i];
    if i + 1 < |a| {
      assert ab[i + 1] == a[i + 1];
    }
    HasCloseAppend(a, b, i + 1);
    var j := DigitEnd(a, i + 1);
    DigitEndAppend(a, b, i + 1);
    assert ab[j] == a[j];
    DigitsValueAppend(a, b, i + 1, j);
  }

  /** A template that formats successfully consists of whole escapes and whole
      fields, so formatting distributes over appending more template text. */
  lemma {:induction false} FormatAppendFrom(a: string, b: string, i: nat, args: seq<string>)
    requires i <= |a|
    requires FormatFrom(a, i, args).Ok?
    ensures FormatFrom(a + b, i, args) == Prepend(FormatFrom(a, i, args).text, Format(b, args))
    decreases |a| - i
  {
    var ab := a + b;
    if i == |a| {
      FormatShift(a, b, 0, args);
    } else {
      assert ab[i] == a[i];
      if i + 1 < |a| {
        assert ab[i + 1] == a[i + 1];
      }
      if a[i] == '{' && !(i + 1 < |a| && a[i + 1] == '{') {
        FieldAppend(a, b, i, args);
        FormatAppendFrom(a, b, DigitEnd(a, i + 1) + 1, args);
      } else if IsBrace(a[i]) {
        FormatAppendFrom(a, b, i + 2, args);
      } else {
        FormatAppendFrom(a, b, i + 1, args);
      }
    }
  }

  lemma FormatAppend(a: string, b: string, args: seq<string>)
    requires Format(a, args).Ok?
    ensures Format(a + b, args) == Prepend(Format(a, args).text, Format(b, args))
  {
    FormatAppendFrom(a, b, 0, args);
  }

  /** A brace meant as markup but left single is read as template syntax: a
      lone closing brace is a `ValueError`, as is an opening brace whose
      field is never closed, and so is a `{` inside a field name.  A `{`
      inside a `[...]` key is part of the key, which is index access and
      outside the modelled subset. */
  lemma LoneBraces(rest: string, args: seq<string>)
    ensures |rest| == 0 || rest[0] != '}' ==> Format("}" + rest, args) == Err(ValueError)
    ensures '}' !in rest && (|rest| == 0 || rest[0] != '{') ==> Format("{" + rest, args) == Err(ValueError)
    ensures Format("{0{}", args) == Err(ValueError)
    ensures Format("{0[{]}", args) == Err(Unsupported)
  {
    if '}' !in rest && (|rest| == 0 || rest[0] != '{') {
      HasCloseShift("{", rest, 0);
      NoClose(rest, 0, InName);
    }
    var t := "{0{}";
    assert t[1] == '0' && t[2] == '{';
    assert !HasClose(t, 1);
    var k := "{0[{]}";
    assert k[1] == '0' && k[2] == '[' && k[3] == '{' && k[4] == ']' && k[5] == '}';
    assert FieldCloses(k, 5, InName);
    assert HasClose(k, 1);
    assert DigitEnd(k, 1) == 2;
  }

  lemma {:induction false} NoClose(t: string, i: nat, s: FieldState)
    requires i <= |t|
    requires '}' !in t
    ensures !FieldCloses(t, i, s)
    decreases |t| - i
  {
    if i < |t| {
      NoClose(t, i + 1, Next(s, t[i]));
    }
  }

  /** A single-digit positional field substitutes that argument verbatim, and
      an index past the arguments is an `IndexError`. */
  lemma FormatField(n: nat, rest: string, args: seq<string>)
    requires n < 10
    ensures Format(['{', DigitChar(n), '}'] + rest, args)
            == (if n < |args| then Prepend(args[n], Format(rest, args)) else Err(IndexError))
  {
    var f := ['{', DigitChar(n), '}'];
    var t := f + rest;
    assert t[0] == '{' && t[1] == DigitChar(n) && t[2] == '}';
    assert HasClose(t, 2);
    assert DigitEnd(t, 1) == 2;
    assert DigitsValue(t, 1, 2) == n;
    FormatShift(f, rest, 0, args);
  }

  /** A template read as the sequence of its pieces, left to right. */
  datatype Token = Text(s: string) | LeftBrace | RightBrace | Field(n: nat)
  datatype Tokens = Start | Then(init: Tokens, last: Token) {
    function Add(t: Token): Tokens {
      Then(this, t)
    }
  }

  function TokenSource(t: Token): string {
    match t
    case Text(s) => s
    case LeftBrace => "{{"
    case RightBrace => "}}"
    case Field(n) => ['{', DigitChar(n), '}']
  }

  function Source(ts: Tokens): string {
    match ts
    case Start => ""
    case Then(init, last) => Source(init) + TokenSource(last)
  }

  predicate TokenOk(t: Token, arity: nat) {
    match t
    case Text(s) => BraceFree(s)
    case Field(n) => n < 10 && n < arity
    case _ => true
  }

  predicate WellFormed(ts: Tokens, arity: nat) {
    match ts
    case Start => true
    case Then(init, last) => WellFormed(init, arity) && TokenOk(last, arity)
  }

  function TokenText(t: Token, args: seq<string>): string
    requires TokenOk(t, |args|)
  {
    match t
    case Text(s) => s
    case LeftBrace => "{"
    case RightBrace => "}"
    case Field(n) => args[n]
  }

  function Expand(ts: Tokens, args: seq<string>): string
    requires WellFormed(ts, |args|)
  {
    match ts
    case Start => ""
    case Then(init, last) => Expand(init, args) + TokenText(last, args)
  }

  lemma FormatToken(t: Token, args: seq<string>)
    requires TokenOk(t, |args|)
    ensures Format(TokenSource(t), args) == Ok(TokenText(t, args))
  {
    match t
    case Text(s) => FormatPlain(s, args);
    case LeftBrace =>
      assert Format("{{", args) == Ok("{");
    case RightBrace =>
      assert Format("}}", args) == Ok("}");
    case Field(n) =>
      FormatField(n, "", args);
      assert TokenSource(t) + "" == TokenSource(t);
  }

  lemma {:induction false} FormatSource(ts: Tokens, args: seq<string>)
    requires WellFormed(ts, |args|)
    ensures Format(Source(ts), args) == Ok(Expand(ts, args))
  {
    match ts
    case Start =>
    case Then(init, last) =>
      FormatSource(init, args);
      FormatToken(last, args);
      FormatAppend(Source(init), TokenSource(last), args);
  }
}

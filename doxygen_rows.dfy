/** The shape of a generated Doxygen comment. A comment is a sequence of
    rows: plain text, a numbered snippet placeholder `${n:default}` after a
    prefix, or the final placeholder `$0`. The handlers build the rendered
    strings directly; these functions say which rows they render. */
module DoxygenRows {
  import opened Wrappers
  import opened Text

  /** The plugin's comment options (`g:clang_doxygen_*`), verbatim strings. */
  datatype Style = Style(
    useBlock: string,
    blockNoNewline: string,
    blockStart: string,
    blockEnd: string,
    commentMiddle: string,
    tagBrief: string,
    tagParam: string,
    tagReturn: string)

  /** The text `handleFunctionTemplate` writes regardless of the options:
      line comments `/// ` with `\brief`, `\param` and `\return`. */
  function TemplateStyle(): Style {
    Style("0", "0", "", "", "/// ", "\\brief ", "\\param ", "\\return ")
  }

  datatype Row =
    | Plain(text: string)
    | Field(prefix: string, stop: nat, default: string)
    | FinalField(prefix: string)

  /** A numbered snippet placeholder, `${n:default}`. */
  function FieldText(stop: nat, default: string): string {
    "${" + NatStr(stop) + ":" + default + "}"
  }

  function Render(r: Row): string {
    match r
    case Plain(t) => t
    case Field(p, n, d) => p + FieldText(n, d)
    case FinalField(p) => p + "$0"
  }

  function RenderRows(rows: seq<Row>): (lines: seq<string>)
    ensures |lines| == |rows|
    ensures forall i :: 0 <= i < |rows| ==> lines[i] == Render(rows[i])
  {
    if rows == [] then [] else [Render(rows[0])] + RenderRows(rows[1..])
  }

  /** Tab-stop numbers of the numbered placeholders, in emitted order. */
  function Stops(rows: seq<Row>): seq<nat> {
    if rows == [] then []
    else (if rows[0].Field? then [rows[0].stop] else []) + Stops(rows[1..])
  }

  /** Default texts of the numbered placeholders, in emitted order. */
  function Defaults(rows: seq<Row>): seq<string> {
    if rows == [] then []
    else (if rows[0].Field? then [rows[0].default] else []) + Defaults(rows[1..])
  }

  /** Number of `$0` placeholders. */
  function FinalCount(rows: seq<Row>): nat {
    if rows == [] then 0
    else (if rows[0].FinalField? then 1 else 0) + FinalCount(rows[1..])
  }

  /** `from, from + 1, ..., from + n - 1`. */
  function Count(from: nat, n: nat): seq<nat> {
    seq(n, i requires 0 <= i < n => from + i)
  }

  lemma {:induction false} FieldsAppend(a: seq<Row>, b: seq<Row>)
    ensures Stops(a + b) == Stops(a) + Stops(b)
    ensures Defaults(a + b) == Defaults(a) + Defaults(b)
    ensures FinalCount(a + b) == FinalCount(a) + FinalCount(b)
    decreases |a|
  {
    if a != [] {
      assert (a + b)[1..] == a[1..] + b;
      FieldsAppend(a[1..], b);
    } else {
      assert a + b == b;
    }
  }

  // ---- The sections of a comment ----

  /** The opening rows, whose last holds the brief placeholder `${1:name}`
      appended to it (`doxygenLines[-1] += ...`). */
  function OpeningRows(s: Style, name: string): seq<Row> {
    if s.useBlock == "1" then
      if s.blockNoNewline == "1" then [Field(s.blockStart + s.tagBrief, 1, name)]
      else [Plain(s.blockStart), Field(s.commentMiddle + s.tagBrief, 1, name)]
    else [Field(s.commentMiddle + s.tagBrief, 1, name)]
  }

  /** A blank comment line and the line carrying `$0`. */
  function BodyRows(s: Style): seq<Row> {
    [Plain(s.commentMiddle), FinalField(s.commentMiddle)]
  }

  function ParamRow(s: Style, name: string, stop: nat): Row {
    Field(s.commentMiddle + s.tagParam + name + " ", stop, name)
  }

  /** One parameter row per name, numbered from `first` on. */
  function ParamRows(s: Style, names: seq<string>, first: nat): seq<Row> {
    seq(|names|, i requires 0 <= i < |names| => ParamRow(s, names[i], first + i))
  }

  /** A separator line, then the parameters from tab stop 2 on; nothing at
      all without parameters. */
  function ParamSection(s: Style, names: seq<string>): seq<Row> {
    if names == [] then [] else [Plain(s.commentMiddle)] + ParamRows(s, names, 2)
  }

  /** A separator line and the return placeholder, for a non-void result. */
  function ReturnSection(s: Style, ret: Option<string>, stop: nat): seq<Row> {
    match ret
    case None => []
    case Some(v) => [Plain(s.commentMiddle), Field(s.commentMiddle + s.tagReturn, stop, v)]
  }

  function ClosingRows(s: Style): seq<Row> {
    if s.useBlock == "1" then [Plain(s.blockEnd)] else []
  }

  /** `handleClassDecl`'s comment before indentation. */
  function ClassRows(s: Style, name: string): seq<Row> {
    OpeningRows(s, name) + BodyRows(s) + ClosingRows(s)
  }

  /** `handleFunctionDecl`'s comment before indentation (and, with
      `TemplateStyle()`, `handleFunctionTemplate`'s). */
  function FunctionRows(s: Style, name: string, params: seq<string>, ret: Option<string>): seq<Row> {
    OpeningRows(s, name) + BodyRows(s) + ParamSection(s, params)
    + ReturnSection(s, ret, |params| + 2) + ClosingRows(s)
  }

  // ---- Properties of the placeholders ----

  lemma {:induction false} ParamRowsFields(s: Style, names: seq<string>, first: nat)
    ensures Stops(ParamRows(s, names, first)) == Count(first, |names|)
    ensures Defaults(ParamRows(s, names, first)) == names
    ensures FinalCount(ParamRows(s, names, first)) == 0
    decreases |names|
  {
    var rows := ParamRows(s, names, first);
    if names != [] {
      assert rows[1..] == ParamRows(s, names[1..], first + 1);
      ParamRowsFields(s, names[1..], first + 1);
      assert Count(first, |names|) == [first] + Count(first + 1, |names| - 1);
      assert names == [names[0]] + names[1..];
    }
  }

  lemma SingleFields(r: Row)
    ensures Stops([r]) == (if r.Field? then [r.stop] else [])
    ensures Defaults([r]) == (if r.Field? then [r.default] else [])
    ensures FinalCount([r]) == (if r.FinalField? then 1 else 0)
  {
    assert [r][1..] == [];
  }

  lemma OpeningBodyClosingFields(s: Style, name: string)
    ensures Stops(OpeningRows(s, name)) == [1] && Defaults(OpeningRows(s, name)) == [name]
    ensures FinalCount(OpeningRows(s, name)) == 0
    ensures Stops(BodyRows(s)) == [] && Defaults(BodyRows(s)) == [] && FinalCount(BodyRows(s)) == 1
    ensures Stops(ClosingRows(s)) == [] && Defaults(ClosingRows(s)) == [] && FinalCount(ClosingRows(s)) == 0
  {
    var brief := OpeningRows(s, name)[|OpeningRows(s, name)| - 1];
    SingleFields(brief);
    if |OpeningRows(s, name)| == 2 {
      SingleFields(Plain(s.blockStart));
      FieldsAppend([Plain(s.blockStart)], [brief]);
      assert OpeningRows(s, name) == [Plain(s.blockStart)] + [brief];
    }
    SingleFields(Plain(s.commentMiddle));
    SingleFields(FinalField(s.commentMiddle));
    FieldsAppend([Plain(s.commentMiddle)], [FinalField(s.commentMiddle)]);
    assert BodyRows(s) == [Plain(s.commentMiddle)] + [FinalField(s.commentMiddle)];
    SingleFields(Plain(s.blockEnd));
  }

  lemma ReturnSectionFields(s: Style, ret: Option<string>, stop: nat)
    ensures Stops(ReturnSection(s, ret, stop)) == (if ret.Some? then [stop] else [])
    ensures Defaults(ReturnSection(s, ret, stop)) == (if ret.Some? then [ret.value] else [])
    ensures FinalCount(ReturnSection(s, ret, stop)) == 0
  {
    if ret.Some? {
      var f := Field(s.commentMiddle + s.tagReturn, stop, ret.value);
      SingleFields(Plain(s.commentMiddle));
      SingleFields(f);
      FieldsAppend([Plain(s.commentMiddle)], [f]);
      assert ReturnSection(s, ret, stop) == [Plain(s.commentMiddle)] + [f];
    }
  }

  /** A class comment has exactly one numbered placeholder, `${1:name}`,
      and one `$0`: no parameter and no return lines. */
  lemma ClassFields(s: Style, name: string)
    ensures Stops(ClassRows(s, name)) == [1]
    ensures Defaults(ClassRows(s, name)) == [name]
    ensures FinalCount(ClassRows(s, name)) == 1
  {
    OpeningBodyClosingFields(s, name);
    FieldsAppend(OpeningRows(s, name), BodyRows(s));
    FieldsAppend(OpeningRows(s, name) + BodyRows(s), ClosingRows(s));
  }

  /** Tab stops of a function comment run 1, 2, ..., k without gaps, in the
      order name, parameters, return value; `$0` occurs once. */
  lemma FunctionFields(s: Style, name: string, params: seq<string>, ret: Option<string>)
    ensures Stops(FunctionRows(s, name, params, ret))
            == Count(1, 1 + |params| + (if ret.Some? then 1 else 0))
    ensures Defaults(FunctionRows(s, name, params, ret))
            == [name] + params + (if ret.Some? then [ret.value] else [])
    ensures FinalCount(FunctionRows(s, name, params, ret)) == 1
  {
    var o, b, p, r, c := OpeningRows(s, name), BodyRows(s), ParamSection(s, params),
                         ReturnSection(s, ret, |params| + 2), ClosingRows(s);
    assert FunctionRows(s, name, params, ret) == o + b + p + r + c;
    OpeningBodyClosingFields(s, name);
    ReturnSectionFields(s, ret, |params| + 2);
    ParamSectionFields(s, params);
    PartsFields(o, b, p, r, c, name, params, ret);
  }

  lemma PartsFields(o: seq<Row>, b: seq<Row>, p: seq<Row>, r: seq<Row>, c: seq<Row>,
                    name: string, params: seq<string>, ret: Option<string>)
    requires Stops(o) == [1] && Defaults(o) == [name] && FinalCount(o) == 0
    requires Stops(b) == [] && Defaults(b) == [] && FinalCount(b) == 1
    requires Stops(p) == Count(2, |params|) && Defaults(p) == params && FinalCount(p) == 0
    requires Stops(r) == (if ret.Some? then [|params| + 2] else [])
    requires Defaults(r) == (if ret.Some? then [ret.value] else []) && FinalCount(r) == 0
    requires Stops(c) == [] && Defaults(c) == [] && FinalCount(c) == 0
    ensures Stops(o + b + p + r + c) == Count(1, 1 + |params| + (if ret.Some? then 1 else 0))
    ensures Defaults(o + b + p + r + c) == [name] + params + (if ret.Some? then [ret.value] else [])
    ensures FinalCount(o + b + p + r + c) == 1
  {
    FieldsAppend5(o, b, p, r, c);
    PartsStops(Stops(o), Stops(b), Stops(p), Stops(r), Stops(c), |params|, ret.Some?);
    PartsDefaults(Defaults(o), Defaults(b), Defaults(p), Defaults(r), Defaults(c), name, params, ret);
  }

  lemma PartsStops(o: seq<nat>, b: seq<nat>, p: seq<nat>, r: seq<nat>, c: seq<nat>, n: nat, extra: bool)
    requires o == [1] && b == [] && p == Count(2, n) && c == []
    requires r == (if extra then [n + 2] else [])
    ensures o + b + p + r + c == Count(1, 1 + n + (if extra then 1 else 0))
  {
    CountSplit(n, extra);
    assert o + b + p + r + c == [1] + Count(2, n) + r;
  }

  lemma PartsDefaults(o: seq<string>, b: seq<string>, p: seq<string>, r: seq<string>, c: seq<string>,
                      name: string, params: seq<string>, ret: Option<string>)
    requires o == [name] && b == [] && p == params && c == []
    requires r == (if ret.Some? then [ret.value] else [])
    ensures o + b + p + r + c == [name] + params + (if ret.Some? then [ret.value] else [])
  {
    assert o + b + p + r + c == [name] + params + r;
  }

  lemma CountSplit(n: nat, extra: bool)
    ensures Count(1, 1 + n + (if extra then 1 else 0))
            == [1] + Count(2, n) + (if extra then [n + 2] else [])
  {
    var all := Count(1, 1 + n + (if extra then 1 else 0));
    var parts := [1] + Count(2, n) + (if extra then [n + 2] else []);
    assert |all| == |parts|;
    forall i | 0 <= i < |all| ensures all[i] == parts[i] {
      if i == 0 {
      } else if i <= n {
        assert parts[i] == Count(2, n)[i - 1];
      }
    }
  }

  lemma FieldsAppend5(o: seq<Row>, b: seq<Row>, p: seq<Row>, r: seq<Row>, c: seq<Row>)
    ensures Stops(o + b + p + r + c) == Stops(o) + Stops(b) + Stops(p) + Stops(r) + Stops(c)
    ensures Defaults(o + b + p + r + c) == Defaults(o) + Defaults(b) + Defaults(p) + Defaults(r) + Defaults(c)
    ensures FinalCount(o + b + p + r + c) == FinalCount(o) + FinalCount(b) + FinalCount(p) + FinalCount(r) + FinalCount(c)
  {
    FieldsAppend(o, b);
    FieldsAppend(o + b, p);
    FieldsAppend(o + b + p, r);
    FieldsAppend(o + b + p + r, c);
  }

  lemma ParamSectionFields(s: Style, names: seq<string>)
    ensures Stops(ParamSection(s, names)) == Count(2, |names|)
    ensures Defaults(ParamSection(s, names)) == names
    ensures FinalCount(ParamSection(s, names)) == 0
  {
    ParamRowsFields(s, names, 2);
    if names != [] {
      SingleFields(Plain(s.commentMiddle));
      FieldsAppend([Plain(s.commentMiddle)], ParamRows(s, names, 2));
    }
  }

  /** Where each line of a function comment sits: the brief placeholder
      closes the opening, a separator precedes the parameters only when
      there are some, a separator and the return placeholder follow only for
      a result, and the block end is last only in block style. */
  lemma FunctionLayout(s: Style, name: string, params: seq<string>, ret: Option<string>)
    ensures var rows := FunctionRows(s, name, params, ret);
            var h := |OpeningRows(s, name)|;
            var p := if params == [] then 0 else |params| + 1;
            var q := if ret.Some? then 2 else 0;
            && h == (if s.useBlock == "1" && s.blockNoNewline != "1" then 2 else 1)
            && |rows| == h + 2 + p + q + (if s.useBlock == "1" then 1 else 0)
            && rows[h - 1].Field? && rows[h - 1].stop == 1 && rows[h - 1].default == name
            && rows[h] == Plain(s.commentMiddle) && rows[h + 1] == FinalField(s.commentMiddle)
            && (params != [] ==> rows[h + 2] == Plain(s.commentMiddle))
            && (forall i :: 0 <= i < |params| ==> rows[h + 3 + i] == ParamRow(s, params[i], i + 2))
            && (ret.Some? ==>
                  && rows[h + 2 + p] == Plain(s.commentMiddle)
                  && rows[h + 3 + p] == Field(s.commentMiddle + s.tagReturn, |params| + 2, ret.value))
            && (s.useBlock == "1" ==> rows[|rows| - 1] == Plain(s.blockEnd))
  {
    var o, b, p, r, c := OpeningRows(s, name), BodyRows(s), ParamSection(s, params),
                         ReturnSection(s, ret, |params| + 2), ClosingRows(s);
    assert FunctionRows(s, name, params, ret) == o + b + p + r + c;
    ConcatIndex5(o, b, p, r, c);
  }

  /** Indexing into a five-part concatenation. */
  lemma ConcatIndex5<T>(o: seq<T>, b: seq<T>, p: seq<T>, r: seq<T>, c: seq<T>)
    ensures var all := o + b + p + r + c;
            && |all| == |o| + |b| + |p| + |r| + |c|
            && (forall i :: 0 <= i < |o| ==> all[i] == o[i])
            && (forall i :: 0 <= i < |b| ==> all[|o| + i] == b[i])
            && (forall i :: 0 <= i < |p| ==> all[|o| + |b| + i] == p[i])
            && (forall i :: 0 <= i < |r| ==> all[|o| + |b| + |p| + i] == r[i])
            && (forall i :: 0 <= i < |c| ==> all[|o| + |b| + |p| + |r| + i] == c[i])
  {
  }

  // ---- Indentation ----

  /** Every line preceded by `width` spaces (`indent * " "`). */
  function Indented(lines: seq<string>, width: int): (r: seq<string>)
    ensures |r| == |lines|
    ensures forall i :: 0 <= i < |r| ==> r[i] == Spaces(width) + lines[i]
  {
    if lines == [] then [] else [Spaces(width) + lines[0]] + Indented(lines[1..], width)
  }
}

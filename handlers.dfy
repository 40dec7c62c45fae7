/** The three comment builders: `handleClassDecl`, `handleFunctionDecl` and
    `handleFunctionTemplate`. Each builds its lines step by step, prefixes
    every line with the computed indentation and returns the line above
    which the comment goes. The functions here say what they return. */
module Handlers {
  import opened Wrappers
  import opened Text
  import opened Buffer
  import opened CommentScan
  import opened SyntaxTree
  import opened DoxygenRows

  /** The plugin options and the editor's `&tabstop`. */
  datatype Config = Config(style: Style, tabstop: int)

  /** A generated comment and the line number it is inserted above. */
  datatype Comment = Comment(insertLine: int, lines: seq<string>)

  datatype Failure =
    | NoDeclarationFound      // the walk reached `None`: "No supported declaration found"
    | MissingTemplateAnchor   // "Unable to find TemplateTypeParameter."
    | NoSourceLocation        // a step off the buffer returned `None` and its unpacking fails
    | EmptyBufferRange        // `getBufferContent` sliced no lines and indexing them fails
    | OutOfFuel               // the walk took more steps than it was allowed

  // ---- Indentation ----

  /** Tabs on the name's line before the name's column. */
  function TabsBeforeName(buf: Lines, c: Node): (k: nat)
    requires ValidPos(buf, c.location)
    ensures k <= c.location.col - 1 && k <= |buf[c.location.line - 1]|
  {
    CountChar(PySlice(buf[c.location.line - 1], 0, c.location.col - 1), '\t')
  }

  /** Width of the comment's indentation: the declaration's start column
      with each tab before the name counted `tabstop` wide. */
  function IndentWidth(buf: Lines, c: Node, tabstop: int): (w: int)
    requires ValidPos(buf, c.location)
    ensures w == (c.extent.start.col - 1 - TabsBeforeName(buf, c)) + TabsBeforeName(buf, c) * tabstop
    ensures TabsBeforeName(buf, c) == 0 ==> w == c.extent.start.col - 1
    ensures tabstop >= 1 ==> w >= c.extent.start.col - 1
  {
    var k := TabsBeforeName(buf, c);
    assert tabstop >= 1 ==> k * tabstop >= k;
    (c.extent.start.col - 1 - k) + k * tabstop
  }

  /** With only spaces before the name, the comment is indented to the
      declaration's start column. */
  lemma IndentWithoutTabs(buf: Lines, c: Node, tabstop: int)
    requires ValidPos(buf, c.location)
    requires var line := buf[c.location.line - 1];
             forall i :: 0 <= i < |line| && i < c.location.col - 1 ==> line[i] != '\t'
    ensures IndentWidth(buf, c, tabstop) == c.extent.start.col - 1
  {
    var line := buf[c.location.line - 1];
    var before := PySlice(line, 0, c.location.col - 1);
    assert forall i :: 0 <= i < |before| ==> before[i] == line[i];
  }

  /** The indentation each handler computes before prefixing its lines. */
  method CommentIndent(buf: Lines, c: Node, tabstop: int) returns (indent: int)
    requires ValidPos(buf, c.location)
    ensures indent == IndentWidth(buf, c, tabstop)
  {
    var tabCount := CountChar(PySlice(buf[c.location.line - 1], 0, c.location.col - 1), '\t');
    indent := (c.extent.start.col - 1 - tabCount) + tabCount * tabstop;
  }

  /** `indentString + doxygenLines[l]` for every `l`, in place. */
  method AddIndentation(doxygenLines: seq<string>, indent: int) returns (indented: seq<string>)
    ensures indented == Indented(doxygenLines, indent)
  {
    var indentString := Spaces(indent);
    indented := doxygenLines;
    for l := 0 to |indented|
      invariant |indented| == |doxygenLines|
      invariant forall i :: 0 <= i < l ==> indented[i] == indentString + doxygenLines[i]
      invariant forall i :: l <= i < |indented| ==> indented[i] == doxygenLines[i]
    {
      indented := indented[l := indentString + indented[l]];
    }
    assert forall i :: 0 <= i < |indented| ==> indented[i] == Indented(doxygenLines, indent)[i];
  }

  // ---- What each handler returns ----

  function ReturnOf(k: TypeKind): Option<string> {
    match k
    case VoidType => None
    case NonVoidType(s) => Some(s)
  }

  function ClassComment(buf: Lines, t: Tree, n: nat, cfg: Config): Comment
    requires WellFormed(buf, t) && n < |t.nodes| && ValidPos(buf, t.nodes[n].location)
  {
    var c := t.nodes[n];
    Comment(c.extent.start.line,
            Indented(RenderRows(ClassRows(cfg.style, c.spelling)), IndentWidth(buf, c, cfg.tabstop)))
  }

  function FunctionComment(buf: Lines, t: Tree, n: nat, cfg: Config): Comment
    requires WellFormed(buf, t) && n < |t.nodes| && ValidPos(buf, t.nodes[n].location)
  {
    var c := t.nodes[n];
    var rows := FunctionRows(cfg.style, c.spelling, ParamNames(t, c.children), ReturnOf(c.resultKind));
    Comment(c.extent.start.line, Indented(RenderRows(rows), IndentWidth(buf, c, cfg.tabstop)))
  }

  /** The text between the template type parameter and the function name,
      with block comments removed, that decides whether a result exists. */
  function TemplateResultText(buf: Lines, t: Tree, n: nat): (r: Result<string, Failure>)
    requires WellFormed(buf, t) && n < |t.nodes| && ValidPos(buf, t.nodes[n].location)
    ensures var cs := t.nodes[n].children;
            r == Err(MissingTemplateAnchor) <==> forall j :: 0 <= j < |cs| ==> t.nodes[cs[j]].kind != TemplateTypeParameter
    ensures r.Err? ==> r.error == MissingTemplateAnchor || r.error == NoSourceLocation || r.error == EmptyBufferRange
  {
    var c := t.nodes[n];
    match FirstOfKind(t, c.children, TemplateTypeParameter, 0)
    case None => Err(MissingTemplateAnchor)
    case Some(i) =>
      var anchor := t.nodes[c.children[i]];
      var startLine, startCol := anchor.extent.end.line, anchor.extent.end.col + 1;
      match PreviousLocation(buf, c.location.line, c.location.col)
      case None => Err(NoSourceLocation)
      case Some(e) =>
        if startLine > e.line then Err(EmptyBufferRange)
        else Ok(StripBlockComments(JoinLines(BufferContent(buf, startLine, startCol, e.line, e.col))))
  }

  /** The result placeholder's default, present unless `void` occurs. */
  function TemplateReturn(text: string, k: TypeKind): Option<string> {
    if HasSubstring(text, "void") then None else Some(TypeKindSpelling(k))
  }

  function TemplateRows(t: Tree, n: nat, text: string): seq<Row>
    requires n < |t.nodes| && InArena(t, t.nodes[n].children)
  {
    var c := t.nodes[n];
    FunctionRows(TemplateStyle(), c.spelling, ParamNames(t, c.children), TemplateReturn(text, c.resultKind))
  }

  function TemplateComment(buf: Lines, t: Tree, n: nat, cfg: Config): Result<Comment, Failure>
    requires WellFormed(buf, t) && n < |t.nodes| && ValidPos(buf, t.nodes[n].location)
  {
    var c := t.nodes[n];
    match TemplateResultText(buf, t, n)
    case Err(f) => Err(f)
    case Ok(text) =>
      Ok(Comment(c.extent.start.line, Indented(RenderRows(TemplateRows(t, n, text)), IndentWidth(buf, c, cfg.tabstop))))
  }

  // ---- Properties of the handlers' results ----

  lemma {:induction false} RenderRowsAppend(a: seq<Row>, b: seq<Row>)
    ensures RenderRows(a + b) == RenderRows(a) + RenderRows(b)
    decreases |a|
  {
    if a == [] {
      assert a + b == b;
    } else {
      assert (a + b)[1..] == a[1..] + b;
      RenderRowsAppend(a[1..], b);
    }
  }

  /** A function template without a template type parameter child yields no
      comment, and that is the only cause of this failure. */
  lemma TemplateAnchorRequired(buf: Lines, t: Tree, n: nat, cfg: Config)
    requires WellFormed(buf, t) && n < |t.nodes| && ValidPos(buf, t.nodes[n].location)
    ensures var cs := t.nodes[n].children;
            TemplateComment(buf, t, n, cfg) == Err(MissingTemplateAnchor)
            <==> forall j :: 0 <= j < |cs| ==> t.nodes[cs[j]].kind != TemplateTypeParameter
  {
  }

  /** A template comment carries a return placeholder exactly when the
      scanned text, comments removed, has no `void`; its tab stops still run
      1, 2, ... without gaps, in the order name, parameters, result. */
  lemma TemplateReturnIffNoVoid(t: Tree, n: nat, text: string)
    requires n < |t.nodes| && InArena(t, t.nodes[n].children)
    ensures var c := t.nodes[n];
            var params := ParamNames(t, c.children);
            var hasResult := !HasSubstring(text, "void");
            && Stops(TemplateRows(t, n, text)) == Count(1, 1 + |params| + (if hasResult then 1 else 0))
            && Defaults(TemplateRows(t, n, text))
               == [c.spelling] + params + (if hasResult then [TypeKindSpelling(c.resultKind)] else [])
            && FinalCount(TemplateRows(t, n, text)) == 1
  {
    var c := t.nodes[n];
    FunctionFields(TemplateStyle(), c.spelling, ParamNames(t, c.children), TemplateReturn(text, c.resultKind));
  }

  // ---- The handlers ----

  /** The parameter loop: one line per `PARM_DECL` child, each taking the
      next tab stop. */
  method CollectParamLines(t: Tree, children: seq<nat>, s: Style, tabStopCounter: nat)
    returns (paramLines: seq<string>, next: nat)
    requires InArena(t, children)
    ensures paramLines == RenderRows(ParamRows(s, ParamNames(t, children), tabStopCounter))
    ensures next == tabStopCounter + |ParamNames(t, children)|
  {
    paramLines := [];
    next := tabStopCounter;
    ghost var names: seq<string> := [];
    for k := 0 to |children|
      invariant names == ParamNames(t, children[..k])
      invariant paramLines == RenderRows(ParamRows(s, names, tabStopCounter))
      invariant next == tabStopCounter + |names|
    {
      var arg := t.nodes[children[k]];
      ParamNamesSnoc(t, children, k);
      if arg.kind == ParmDecl {
        var line := s.commentMiddle + s.tagParam + arg.spelling + " " + FieldText(next, arg.spelling);
        ParamLinesSnoc(s, names, arg.spelling, tabStopCounter, paramLines, line);
        paramLines := paramLines + [line];
        next := next + 1;
        names := names + [arg.spelling];
      }
    }
    assert children[..|children|] == children;
  }

  lemma ParamNamesSnoc(t: Tree, cs: seq<nat>, k: nat)
    requires InArena(t, cs) && k < |cs|
    ensures t.nodes[cs[k]].kind == ParmDecl ==>
              ParamNames(t, cs[..k + 1]) == ParamNames(t, cs[..k]) + [t.nodes[cs[k]].spelling]
    ensures t.nodes[cs[k]].kind != ParmDecl ==> ParamNames(t, cs[..k + 1]) == ParamNames(t, cs[..k])
  {
    assert cs[..k + 1][..k] == cs[..k];
  }

  lemma ParamLinesSnoc(s: Style, names: seq<string>, name: string, first: nat,
                       lines: seq<string>, line: string)
    requires lines == RenderRows(ParamRows(s, names, first))
    requires line == s.commentMiddle + s.tagParam + name + " " + FieldText(first + |names|, name)
    ensures lines + [line] == RenderRows(ParamRows(s, names + [name], first))
  {
    ParamRowsSnoc(s, names, name, first);
    RenderRowsAppend(ParamRows(s, names, first), [ParamRow(s, name, first + |names|)]);
  }

  lemma ParamRowsSnoc(s: Style, names: seq<string>, name: string, first: nat)
    ensures ParamRows(s, names + [name], first)
            == ParamRows(s, names, first) + [ParamRow(s, name, first + |names|)]
  {
  }

  /** The opening lines with the brief placeholder, the blank line and the
      `$0` line, as all three handlers begin. */
  method OpenComment(s: Style, name: string) returns (doxygenLines: seq<string>)
    ensures doxygenLines == RenderRows(OpeningRows(s, name) + BodyRows(s))
  {
    var tabStopCounter: nat := 1;
    doxygenLines := [];
    if s.useBlock == "1" {
      if s.blockNoNewline == "1" {
        doxygenLines := doxygenLines + [s.blockStart];
      } else {
        doxygenLines := doxygenLines + [s.blockStart];
        doxygenLines := doxygenLines + [s.commentMiddle];
      }
    } else {
      doxygenLines := doxygenLines + [s.commentMiddle];
    }
    var last := |doxygenLines| - 1;
    doxygenLines := doxygenLines[last := doxygenLines[last] + s.tagBrief + FieldText(tabStopCounter, name)];
    doxygenLines := doxygenLines + [s.commentMiddle];
    doxygenLines := doxygenLines + [s.commentMiddle + "$0"];
    ghost var rows := OpeningRows(s, name) + BodyRows(s);
    assert forall i :: 0 <= i < |rows| ==> doxygenLines[i] == Render(rows[i]);
  }

  lemma RenderParamSection(s: Style, names: seq<string>)
    ensures RenderRows(ParamSection(s, names))
            == (if names == [] then [] else [s.commentMiddle]) + RenderRows(ParamRows(s, names, 2))
  {
    if names != [] {
      RenderRowsAppend([Plain(s.commentMiddle)], ParamRows(s, names, 2));
    }
  }

  lemma RenderReturnSection(s: Style, ret: Option<string>, stop: nat)
    ensures RenderRows(ReturnSection(s, ret, stop))
            == (match ret
                case None => []
                case Some(v) => [s.commentMiddle, s.commentMiddle + s.tagReturn + FieldText(stop, v)])
  {
  }

  lemma RenderClosing(s: Style)
    ensures RenderRows(ClosingRows(s)) == if s.useBlock == "1" then [s.blockEnd] else []
  {
  }

  lemma RenderRows5(o: seq<Row>, b: seq<Row>, p: seq<Row>, r: seq<Row>, c: seq<Row>)
    ensures RenderRows(o + b + p + r + c)
            == RenderRows(o + b) + RenderRows(p) + RenderRows(r) + RenderRows(c)
  {
    RenderRowsAppend(o + b, p);
    RenderRowsAppend(o + b + p, r);
    RenderRowsAppend(o + b + p + r, c);
  }

  /** A rendered function comment is its rendered sections, in order. */
  lemma RenderFunctionSections(s: Style, name: string, names: seq<string>, ret: Option<string>)
    ensures RenderRows(FunctionRows(s, name, names, ret))
            == RenderRows(OpeningRows(s, name) + BodyRows(s)) + RenderRows(ParamSection(s, names))
               + RenderRows(ReturnSection(s, ret, |names| + 2)) + RenderRows(ClosingRows(s))
  {
    RenderRows5(OpeningRows(s, name), BodyRows(s), ParamSection(s, names),
                ReturnSection(s, ret, |names| + 2), ClosingRows(s));
  }

  /** The rows appended after the fixed opening, joined. */
  lemma FunctionSectionsJoin(s: Style, name: string, names: seq<string>, ret: Option<string>,
                             head: seq<string>, withParams: seq<string>, withReturn: seq<string>,
                             lines: seq<string>)
    requires head == RenderRows(OpeningRows(s, name) + BodyRows(s))
    requires withParams == head + RenderRows(ParamSection(s, names))
    requires withReturn == withParams + RenderRows(ReturnSection(s, ret, |names| + 2))
    requires lines == withReturn + RenderRows(ClosingRows(s))
    ensures lines == RenderRows(FunctionRows(s, name, names, ret))
  {
    RenderFunctionSections(s, name, names, ret);
  }

  /** The separator line, if there are parameter lines, and the lines. */
  method AppendParamLines(doxygenLines: seq<string>, s: Style, t: Tree, children: seq<nat>)
    returns (lines: seq<string>, tabStopCounter: nat)
    requires InArena(t, children)
    ensures lines == doxygenLines + RenderRows(ParamSection(s, ParamNames(t, children)))
    ensures tabStopCounter == 2 + |ParamNames(t, children)|
  {
    var paramLines;
    paramLines, tabStopCounter := CollectParamLines(t, children, s, 2);
    RenderParamSection(s, ParamNames(t, children));
    lines := doxygenLines;
    if |paramLines| > 0 {
      lines := lines + [s.commentMiddle];
    }
    lines := lines + paramLines;
  }

  /** The separator and the `\return` placeholder for a non-void result. */
  method AppendReturnLines(doxygenLines: seq<string>, s: Style, k: TypeKind, tabStopCounter: nat)
    returns (lines: seq<string>)
    ensures lines == doxygenLines + RenderRows(ReturnSection(s, ReturnOf(k), tabStopCounter))
  {
    lines := doxygenLines;
    if k != VoidType {
      lines := lines + [s.commentMiddle];
      lines := lines + [s.commentMiddle + s.tagReturn + FieldText(tabStopCounter, TypeKindSpelling(k))];
    }
    RenderReturnSection(s, ReturnOf(k), tabStopCounter);
  }

  /** The block-end line in block style. */
  method CloseBlock(doxygenLines: seq<string>, s: Style) returns (lines: seq<string>)
    ensures lines == doxygenLines + RenderRows(ClosingRows(s))
  {
    lines := doxygenLines;
    if s.useBlock == "1" {
      lines := lines + [s.blockEnd];
    }
    RenderClosing(s);
  }

  method HandleClassDecl(buf: Lines, t: Tree, n: nat, cfg: Config)
    returns (insertLine: int, doxygenLines: seq<string>)
    requires WellFormed(buf, t) && n < |t.nodes| && ValidPos(buf, t.nodes[n].location)
    ensures Comment(insertLine, doxygenLines) == ClassComment(buf, t, n, cfg)
  {
    var c := t.nodes[n];
    var s := cfg.style;
    doxygenLines := OpenComment(s, c.spelling);
    doxygenLines := CloseBlock(doxygenLines, s);
    RenderRowsAppend(OpeningRows(s, c.spelling) + BodyRows(s), ClosingRows(s));
    var indent := CommentIndent(buf, c, cfg.tabstop);
    doxygenLines := AddIndentation(doxygenLines, indent);
    insertLine := c.extent.start.line;
  }

  method HandleFunctionDecl(buf: Lines, t: Tree, n: nat, cfg: Config)
    returns (insertLine: int, doxygenLines: seq<string>)
    requires WellFormed(buf, t) && n < |t.nodes| && ValidPos(buf, t.nodes[n].location)
    ensures Comment(insertLine, doxygenLines) == FunctionComment(buf, t, n, cfg)
  {
    var c := t.nodes[n];
    var s := cfg.style;
    doxygenLines := OpenComment(s, c.spelling);
    ghost var head := doxygenLines;
    var tabStopCounter;
    doxygenLines, tabStopCounter := AppendParamLines(doxygenLines, s, t, c.children);
    ghost var withParams := doxygenLines;
    doxygenLines := AppendReturnLines(doxygenLines, s, c.resultKind, tabStopCounter);
    ghost var withReturn := doxygenLines;
    doxygenLines := CloseBlock(doxygenLines, s);
    FunctionSectionsJoin(s, c.spelling, ParamNames(t, c.children), ReturnOf(c.resultKind),
                         head, withParams, withReturn, doxygenLines);
    var indent := CommentIndent(buf, c, cfg.tabstop);
    doxygenLines := AddIndentation(doxygenLines, indent);
    insertLine := c.extent.start.line;
  }

  /** The first `TEMPLATE_TYPE_PARAMETER` child, by its index among the
      children (the loop with `break`). */
  method FindTemplateTypeParameter(t: Tree, children: seq<nat>) returns (anchor: Option<nat>)
    requires InArena(t, children)
    ensures anchor == FirstOfKind(t, children, TemplateTypeParameter, 0)
  {
    anchor := None;
    var k := 0;
    while k < |children|
      invariant 0 <= k <= |children|
      invariant forall j :: 0 <= j < k ==> t.nodes[children[j]].kind != TemplateTypeParameter
    {
      if t.nodes[children[k]].kind == TemplateTypeParameter {
        anchor := Some(k);
        break;
      }
      k := k + 1;
    }
  }

  /** The template handler's opening lines, written with the fixed
      `///` markers whatever the options say. */
  method OpenTemplateComment(name: string) returns (doxygenLines: seq<string>)
    ensures doxygenLines == RenderRows(OpeningRows(TemplateStyle(), name) + BodyRows(TemplateStyle()))
  {
    doxygenLines := ["/// \\brief " + FieldText(1, name)];
    doxygenLines := doxygenLines + ["/// "];
    doxygenLines := doxygenLines + ["/// $0"];
    assert "/// " + "\\brief " == "/// \\brief ";
    assert "/// " + "$0" == "/// $0";
    ghost var rows := OpeningRows(TemplateStyle(), name) + BodyRows(TemplateStyle());
    assert forall i :: 0 <= i < |rows| ==> doxygenLines[i] == Render(rows[i]);
  }

  lemma TemplateLiterals()
    ensures TemplateStyle().commentMiddle == "/// "
    ensures TemplateStyle().commentMiddle + TemplateStyle().tagReturn == "/// \\return "
  {
  }

  /** The anchor search, the scan between the anchor and the name, and the
      removal of block comments from the scanned text. */
  method TemplateResultString(buf: Lines, t: Tree, n: nat) returns (r: Result<string, Failure>)
    requires WellFormed(buf, t) && n < |t.nodes| && ValidPos(buf, t.nodes[n].location)
    ensures r == TemplateResultText(buf, t, n)
  {
    var c := t.nodes[n];
    // The first template type parameter anchors the scan for the result type.
    var anchor := FindTemplateTypeParameter(t, c.children);
    if anchor.None? {
      return Err(MissingTemplateAnchor);
    }
    var templateTypeParameter := t.nodes[c.children[anchor.value]];

    var startLine := templateTypeParameter.extent.end.line;
    var startCol := templateTypeParameter.extent.end.col + 1;
    var previous := PreviousLocation(buf, c.location.line, c.location.col);
    if previous.None? {
      return Err(NoSourceLocation);
    }
    var endLine, endCol := previous.value.line, previous.value.col;
    if startLine > endLine {
      return Err(EmptyBufferRange);
    }
    var resultLines := GetBufferContent(buf, startLine, startCol, endLine, endCol);
    r := Ok(StripBlockComments(JoinLines(resultLines)));
  }

  /** The `void` search and, when it finds nothing, the result lines. */
  method AppendTemplateReturn(doxygenLines: seq<string>, resultString: string, tabStopCounter: nat, k: TypeKind)
    returns (lines: seq<string>)
    ensures lines == doxygenLines + RenderRows(ReturnSection(TemplateStyle(), TemplateReturn(resultString, k), tabStopCounter))
  {
    lines := doxygenLines;
    if !HasSubstring(resultString, "void") {
      lines := lines + ["/// "];
      lines := lines + ["/// \\return " + FieldText(tabStopCounter, TypeKindSpelling(k))];
      TemplateLiterals();
    }
    RenderReturnSection(TemplateStyle(), TemplateReturn(resultString, k), tabStopCounter);
  }

  lemma TemplateSectionsJoin(name: string, names: seq<string>, ret: Option<string>,
                             head: seq<string>, withParams: seq<string>, lines: seq<string>)
    requires head == RenderRows(OpeningRows(TemplateStyle(), name) + BodyRows(TemplateStyle()))
    requires withParams == head + RenderRows(ParamSection(TemplateStyle(), names))
    requires lines == withParams + RenderRows(ReturnSection(TemplateStyle(), ret, |names| + 2))
    ensures lines == RenderRows(FunctionRows(TemplateStyle(), name, names, ret))
  {
    RenderFunctionSections(TemplateStyle(), name, names, ret);
    RenderClosing(TemplateStyle());
  }

  /** A failed scan is the template handler's failure. */
  lemma TemplateCommentErr(buf: Lines, t: Tree, n: nat, cfg: Config)
    requires WellFormed(buf, t) && n < |t.nodes| && ValidPos(buf, t.nodes[n].location) && TemplateResultText(buf, t, n).Err?
    ensures TemplateComment(buf, t, n, cfg) == Err(TemplateResultText(buf, t, n).error)
  {
  }

  /** After a successful scan, the template comment is the template rows,
      rendered and indented. */
  lemma TemplateCommentOk(buf: Lines, t: Tree, n: nat, cfg: Config, text: string, lines: seq<string>)
    requires WellFormed(buf, t) && n < |t.nodes| && ValidPos(buf, t.nodes[n].location) && TemplateResultText(buf, t, n) == Ok(text)
    requires lines == Indented(RenderRows(TemplateRows(t, n, text)), IndentWidth(buf, t.nodes[n], cfg.tabstop))
    ensures TemplateComment(buf, t, n, cfg) == Ok(Comment(t.nodes[n].extent.start.line, lines))
  {
  }

  method HandleFunctionTemplate(buf: Lines, t: Tree, n: nat, cfg: Config)
    returns (r: Result<Comment, Failure>)
    requires WellFormed(buf, t) && n < |t.nodes| && ValidPos(buf, t.nodes[n].location)
    ensures r == TemplateComment(buf, t, n, cfg)
  {
    var c := t.nodes[n];
    var doxygenLines := OpenTemplateComment(c.spelling);
    ghost var head := doxygenLines;
    var tabStopCounter;
    doxygenLines, tabStopCounter := AppendParamLines(doxygenLines, TemplateStyle(), t, c.children);
    ghost var withParams := doxygenLines;

    var text := TemplateResultString(buf, t, n);
    if text.Err? {
      TemplateCommentErr(buf, t, n, cfg);
      return Err(text.error);
    }
    var resultString := text.value;
    doxygenLines := AppendTemplateReturn(doxygenLines, resultString, tabStopCounter, c.resultKind);
    TemplateSectionsJoin(c.spelling, ParamNames(t, c.children), TemplateReturn(resultString, c.resultKind),
                         head, withParams, doxygenLines);

    var indent := CommentIndent(buf, c, cfg.tabstop);
    doxygenLines := AddIndentation(doxygenLines, indent);
    TemplateCommentOk(buf, t, n, cfg, resultString, doxygenLines);
    return Ok(Comment(c.extent.start.line, doxygenLines));
  }
}

/** Worked scenarios: small buffers with the cursors libclang would report
    for them, and the comments (or failures) the model produces. */
module Examples {
  import opened Wrappers
  import opened Text
  import opened Buffer
  import opened CommentScan
  import opened SyntaxTree
  import opened DoxygenRows
  import opened Handlers
  import opened Resolver

  /** Javadoc-like block comments. */
  const BlockStyle := Style("1", "0", "/**", " */", " * ", "@brief ", "@param ", "@return ")

  // ---- An indented class ----

  const ClassBuffer: Lines := ["  class Widget {};"]

  const ClassTree := Tree([
    Node(OtherKind("TranslationUnit"), "", Pos(0, 0), Extent(Pos(0, 0), Pos(0, 0)), VoidType, [1], None),
    Node(ClassDecl, "Widget", Pos(1, 9), Extent(Pos(1, 3), Pos(1, 18)), VoidType, [], Some(0))
  ])

  function ClassLookup(p: Pos): Option<nat> {
    if p.line == 1 && 3 <= p.col <= 17 then Some(1) else Some(0)
  }

  lemma ClassReady()
    ensures Ready(ClassBuffer, ClassTree, ClassLookup)
  {
    assert NodeInBounds(ClassBuffer, ClassTree.nodes[0], 2);
    assert NodeInBounds(ClassBuffer, ClassTree.nodes[1], 2);
  }

  lemma ClassRendered()
    ensures RenderRows(ClassRows(BlockStyle, "Widget"))
            == ["/**", " * @brief ${1:Widget}", " * ", " * $0", " */"]
  {
    var rows := ClassRows(BlockStyle, "Widget");
    assert " * " + "@brief " == " * @brief ";
    assert rows == [Plain("/**"), Field(" * @brief ", 1, "Widget"), Plain(" * "), FinalField(" * "), Plain(" */")];
    assert NatStr(1) == "1";
    assert FieldText(1, "Widget") == "${1:Widget}";
    assert " * @brief " + "${1:Widget}" == " * @brief ${1:Widget}";
    assert " * " + "$0" == " * $0";
    var lines := RenderRows(rows);
    assert lines[1] == " * @brief ${1:Widget}";
    assert lines[3] == " * $0";
  }

  /** The cursor at the start of the line is moved past the indentation onto
      the class, whose comment is indented the same two columns. */
  lemma ClassAtLineStart()
    ensures Ready(ClassBuffer, ClassTree, ClassLookup)
    ensures Generate(ClassBuffer, ClassTree, ClassLookup, Config(BlockStyle, 8), 1, 1, 4)
            == Ok(Comment(1, ["  /**", "   * @brief ${1:Widget}", "   * ", "   * $0", "   */"]))
  {
    ClassResolved();
    ClassCommentText();
  }

  /** The clamped cursor lands on the class itself. */
  lemma ClassResolved()
    ensures Ready(ClassBuffer, ClassTree, ClassLookup)
    ensures var cfg := Config(BlockStyle, 8);
            Generate(ClassBuffer, ClassTree, ClassLookup, cfg, 1, 1, 4)
            == Ok(ClassComment(ClassBuffer, ClassTree, 1, cfg))
  {
    ClassReady();
    ClassLeadingWhitespace();
    assert ClassLookup(Pos(1, 3)) == Some(1);
    assert Walk(ClassBuffer, ClassTree, ClassLookup, Some(1), 4) == Ok(1);
  }

  lemma ClassLeadingWhitespace()
    ensures LeadingWhitespace(ClassBuffer[0]) == 2
  {
    var line := ClassBuffer[0];
    assert line[2] == 'c' && line[0] == ' ' && line[1] == ' ';
    LeadingWhitespaceAt(line, 2);
  }

  lemma ClassCommentText()
    ensures WellFormed(ClassBuffer, ClassTree)
    ensures ClassComment(ClassBuffer, ClassTree, 1, Config(BlockStyle, 8))
            == Comment(1, ["  /**", "   * @brief ${1:Widget}", "   * ", "   * $0", "   */"])
  {
    ClassReady();
    ClassIndent();
    ClassRendered();
    ClassIndented();
  }

  /** No tabs before the name: the indent is the start column minus one. */
  lemma ClassIndent()
    ensures ValidPos(ClassBuffer, ClassTree.nodes[1].location)
    ensures IndentWidth(ClassBuffer, ClassTree.nodes[1], 8) == 2
  {
    var line := ClassBuffer[0];
    assert line[..8] == "  class ";
    assert forall i :: 0 <= i < |line| && i < 8 ==> line[i] != '\t';
    IndentWithoutTabs(ClassBuffer, ClassTree.nodes[1], 8);
  }

  lemma ClassIndented()
    ensures Indented(["/**", " * @brief ${1:Widget}", " * ", " * $0", " */"], 2)
            == ["  /**", "   * @brief ${1:Widget}", "   * ", "   * $0", "   */"]
  {
    assert Spaces(2) == "  ";
    assert "  " + "/**" == "  /**";
    assert "  " + " * @brief ${1:Widget}" == "   * @brief ${1:Widget}";
    assert "  " + " * " == "   * ";
    assert "  " + " * $0" == "   * $0";
    assert "  " + " */" == "   */";
    IndentedExample(["/**", " * @brief ${1:Widget}", " * ", " * $0", " */"],
                    ["  /**", "   * @brief ${1:Widget}", "   * ", "   * $0", "   */"], 2);
  }

  /** Prefixing is checked line by line. */
  lemma IndentedExample(lines: seq<string>, expected: seq<string>, width: int)
    requires |lines| == |expected|
    requires forall i :: 0 <= i < |lines| ==> Spaces(width) + lines[i] == expected[i]
    ensures Indented(lines, width) == expected
  {
  }
  // ---- Function templates: the text before the name decides the result ----

  /** A template whose result type is preceded by a block comment holding
      the word `void`. */
  const HiddenVoidLine := "template<typename T> /* void */ T make();"

  function TemplateTree(name: string, nameCol: int, endCol: int): Tree {
    Tree([
      Node(OtherKind("TranslationUnit"), "", Pos(0, 0), Extent(Pos(0, 0), Pos(0, 0)), VoidType, [1], None),
      Node(FunctionTemplate, name, Pos(1, nameCol), Extent(Pos(1, 1), Pos(1, endCol)),
           NonVoidType("Unexposed"), [2], Some(0)),
      Node(TemplateTypeParameter, "T", Pos(1, 19), Extent(Pos(1, 10), Pos(1, 20)), VoidType, [], Some(1))
    ])
  }

  lemma TemplateWellFormed(buf: Lines, name: string, nameCol: int, endCol: int)
    requires |buf| == 1 && 20 <= nameCol && 20 <= endCol
    ensures WellFormed(buf, TemplateTree(name, nameCol, endCol))
  {
    var t := TemplateTree(name, nameCol, endCol);
    assert NodeInBounds(buf, t.nodes[0], 3);
    assert NodeInBounds(buf, t.nodes[1], 3);
    assert NodeInBounds(buf, t.nodes[2], 3);
  }

  /** The scan runs from just after the template parameter to just before
      the name; a `void` inside a block comment does not count, so this
      template gets a result placeholder. */
  lemma HiddenVoidIgnored()
    ensures WellFormed([HiddenVoidLine], TemplateTree("make", 35, 41))
    ensures TemplateResultText([HiddenVoidLine], TemplateTree("make", 35, 41), 1) == Ok("  T ")
  {
    TemplateWellFormed([HiddenVoidLine], "make", 35, 41);
    HiddenVoidScanned();
    StripHiddenVoid(" /* void */ T ");
    ScannedText([HiddenVoidLine], TemplateTree("make", 35, 41), 34, " /* void */ T ", "  T ");
  }

  /** What remains has no `void`, so the result placeholder is emitted. */
  lemma HiddenVoidGivesResult()
    ensures TemplateReturn("  T ", NonVoidType("Unexposed")) == Some("Unexposed")
  {
    NoVoidIn("  T ");
  }

  /** The scan of a one-line template built by `TemplateTree`. */
  lemma ScannedText(buf: Lines, t: Tree, prevCol: int, scanned: string, text: string)
    requires WellFormed(buf, t) && |t.nodes| == 3 && |buf| == 1
    requires t.nodes[1].children == [2] && t.nodes[2].kind == TemplateTypeParameter
    requires t.nodes[2].extent.end == Pos(1, 20)
    requires PreviousLocation(buf, 1, t.nodes[1].location.col) == Some(Pos(1, prevCol))
    requires t.nodes[1].location.line == 1 && prevCol >= 0
    requires BufferContent(buf, 1, 21, 1, prevCol) == [scanned]
    requires StripBlockComments(scanned) == text
    ensures TemplateResultText(buf, t, 1) == Ok(text)
  {
    assert FirstOfKind(t, t.nodes[1].children, TemplateTypeParameter, 0) == Some(0);
    assert JoinLines([scanned]) == scanned;
  }

  lemma HiddenVoidScanned()
    ensures PreviousLocation([HiddenVoidLine], 1, 35) == Some(Pos(1, 34))
    ensures BufferContent([HiddenVoidLine], 1, 21, 1, 34) == [" /* void */ T "]
  {
    assert |HiddenVoidLine| == 41;
    HiddenVoidSlice();
  }

  lemma HiddenVoidSlice()
    ensures PySlice(HiddenVoidLine, 20, 34) == " /* void */ T "
  {
    assert HiddenVoidLine == "template<typename T>" + " /* void */ T " + "make();";
  }

  lemma StripHiddenVoid(scanned: string)
    requires scanned == " /* void */ T "
    ensures StripBlockComments(scanned) == "  T "
  {
    NoDelimiters(" void ");
    NoDelimiters(" T ");
    StripCommentAfterChar(' ', " void ", " T ");
    assert scanned == [' '] + "/*" + " void " + "*/" + " T ";
    assert [' '] + " T " == "  T ";
  }

  /** A character, a comment, and text without comments: only the comment goes. */
  lemma StripCommentAfterChar(c: char, body: string, rest: string)
    requires c != '/'
    requires forall j :: !CloseAt(body, j)
    requires forall j :: !OpenAt(rest, j)
    ensures StripBlockComments([c] + "/*" + body + "*/" + rest) == [c] + rest
  {
    var comment := "/*" + body + "*/" + rest;
    assert [c] + "/*" + body + "*/" + rest == [c] + comment;
    StripKeepsPlainChar(c, comment);
    StripLeadingComment(body, rest);
    StripWithoutOpener(rest);
  }

  /** Without `*` a string holds neither comment delimiter. */
  lemma NoDelimiters(s: string)
    requires forall i :: 0 <= i < |s| ==> s[i] != '*'
    ensures forall j :: !CloseAt(s, j) && !OpenAt(s, j)
  {
  }

  lemma NoVoidIn(s: string)
    requires forall i :: 0 <= i < |s| ==> s[i] != 'v'
    ensures !HasSubstring(s, "void")
  {
    forall i ensures !OccursAt(s, "void", i) {
      if 0 <= i && i + 4 <= |s| {
        assert s[i..i + 4][0] == s[i];
      }
    }
  }

  /** `template<typename T> void reset(T x);`: a plain `void` before the
      name suppresses the result placeholder. */
  const VoidLine := "template<typename T> void reset(T x);"

  lemma VoidTemplateHasNoResult()
    ensures WellFormed([VoidLine], TemplateTree("reset", 27, 37))
    ensures TemplateResultText([VoidLine], TemplateTree("reset", 27, 37), 1) == Ok(" void ")
    ensures TemplateReturn(" void ", NonVoidType("Unexposed")) == None
  {
    TemplateWellFormed([VoidLine], "reset", 27, 37);
    VoidScanned();
    StripWithoutOpener(" void ");
    ScannedText([VoidLine], TemplateTree("reset", 27, 37), 26, " void ", " void ");
    VoidSuppressesResult();
  }

  lemma VoidSuppressesResult()
    ensures TemplateReturn(" void ", NonVoidType("Unexposed")) == None
  {
    assert OccursAt(" void ", "void", 1);
  }

  lemma VoidScanned()
    ensures PreviousLocation([VoidLine], 1, 27) == Some(Pos(1, 26))
    ensures BufferContent([VoidLine], 1, 21, 1, 26) == [" void "]
  {
    assert |VoidLine| == 37;
    VoidSlice();
  }

  lemma VoidSlice()
    ensures PySlice(VoidLine, 20, 26) == " void "
  {
    assert VoidLine == "template<typename T>" + " void " + "reset(T x);";
  }

  // ---- Failures ----

  const PlainBuffer: Lines := ["int x;"]

  /** A variable inside the translation unit: no supported kind on the way up. */
  const PlainTree := Tree([
    Node(OtherKind("TranslationUnit"), "", Pos(0, 0), Extent(Pos(0, 0), Pos(0, 0)), VoidType, [1], None),
    Node(OtherKind("VarDecl"), "x", Pos(1, 5), Extent(Pos(1, 1), Pos(1, 6)), VoidType, [], Some(0))
  ])

  function PlainLookup(p: Pos): Option<nat> {
    if p.line == 1 && 1 <= p.col <= 5 then Some(1) else Some(0)
  }

  lemma NoSupportedDeclaration()
    ensures Ready(PlainBuffer, PlainTree, PlainLookup)
    ensures Generate(PlainBuffer, PlainTree, PlainLookup, Config(BlockStyle, 8), 1, 1, 4) == Err(NoDeclarationFound)
  {
    PlainReady();
    assert LeadingWhitespace(PlainBuffer[0]) == 0 by {
      assert !IsSpace(PlainBuffer[0][0]);
    }
    assert PlainLookup(Pos(1, ClampColumn(PlainBuffer[0], 1))) == Some(1);
    assert Escapes(PlainBuffer, PlainTree, PlainLookup, 1, 1);
    WalkEscapes(PlainBuffer, PlainTree, PlainLookup, 1, 4);
    GenerateFails(PlainBuffer, PlainTree, PlainLookup, Config(BlockStyle, 8), 1, 1, 4, NoDeclarationFound);
  }

  lemma PlainReady()
    ensures Ready(PlainBuffer, PlainTree, PlainLookup)
  {
    assert NodeInBounds(PlainBuffer, PlainTree.nodes[0], 2);
    assert NodeInBounds(PlainBuffer, PlainTree.nodes[1], 2);
  }

  const RefBuffer: Lines := ["T x;"]

  /** A type reference at the very start of the buffer has no position
      before it. */
  const RefTree := Tree([
    Node(OtherKind("TranslationUnit"), "", Pos(0, 0), Extent(Pos(0, 0), Pos(0, 0)), VoidType, [1], None),
    Node(TypeRef, "T", Pos(1, 1), Extent(Pos(1, 1), Pos(1, 2)), VoidType, [], Some(0))
  ])

  function RefLookup(p: Pos): Option<nat> {
    if p.line == 1 && p.col == 1 then Some(1) else Some(0)
  }

  lemma TypeRefAtBufferStart()
    ensures Ready(RefBuffer, RefTree, RefLookup)
    ensures Generate(RefBuffer, RefTree, RefLookup, Config(BlockStyle, 8), 1, 1, 4) == Err(NoSourceLocation)
  {
    assert NodeInBounds(RefBuffer, RefTree.nodes[0], 2);
    assert NodeInBounds(RefBuffer, RefTree.nodes[1], 2);
    assert LeadingWhitespace(RefBuffer[0]) == 0 by {
      assert !IsSpace(RefBuffer[0][0]);
    }
    assert Step(RefBuffer, RefTree, RefLookup, 1) == Stuck(NoSourceLocation);
  }
}

/** Resolution of the cursor position to a supported declaration and the
    dispatch to its comment builder (`generateDoxygenForSourceLocation`).
    The parsed unit is a `Tree`; libclang's "cursor at this position" query
    is the function `lookup`, which yields a node index or nothing. */
module Resolver {
  import opened Wrappers
  import opened Text
  import opened Buffer
  import opened SyntaxTree
  import opened Handlers

  datatype Handler = ClassHandler | FunctionHandler | TemplateHandler

  /** The `elif` chain on the cursor kind, for the kinds with a builder. */
  function HandlerFor(k: Kind): (h: Option<Handler>)
    ensures h == Some(FunctionHandler) <==> k in FunctionKinds
    ensures h == Some(TemplateHandler) <==> k in TemplateKinds
    ensures h == Some(ClassHandler) <==> k in ClassKinds
    ensures h.None? <==> k !in FunctionKinds + TemplateKinds + ClassKinds
  {
    match k
    case FunctionDecl | CxxMethod | Constructor | Destructor | ObjCInstanceMethodDecl => Some(FunctionHandler)
    case FunctionTemplate => Some(TemplateHandler)
    case ClassDecl | ClassTemplate | ObjCInterfaceDecl | ObjCCategoryDecl | ObjCImplementationDecl =>
      Some(ClassHandler)
    case _ => None
  }

  /** The starting column moved past the line's leading whitespace. */
  function ClampColumn(s: string, col: int): (r: int)
    ensures r >= col && r >= LeadingWhitespace(s) + 1
    ensures col >= LeadingWhitespace(s) + 1 ==> r == col
    ensures col < LeadingWhitespace(s) + 1 ==> r == LeadingWhitespace(s) + 1
  {
    var indent := LeadingWhitespace(s);
    if col < indent + 1 then indent + 1 else col
  }

  /** Every index the position query yields names a node of the tree. */
  ghost predicate LookupInRange(t: Tree, lookup: Pos -> Option<nat>) {
    forall p :: lookup(p).Some? ==> lookup(p).value < |t.nodes|
  }

  ghost predicate Ready(buf: Lines, t: Tree, lookup: Pos -> Option<nat>) {
    WellFormed(buf, t) && LookupInRange(t, lookup)
  }

  /** What one iteration of the loop does with the current node. */
  datatype Move =
    | Goto(next: Option<nat>)   // continue with this cursor
    | Resolved(decl: nat)       // hand the node to a builder
    | Stuck(failure: Failure)   // a source step fell off the buffer

  function Step(buf: Lines, t: Tree, lookup: Pos -> Option<nat>, c: nat): (m: Move)
    requires Ready(buf, t, lookup) && c < |t.nodes|
    ensures m.Goto? && m.next.Some? ==> m.next.value < |t.nodes|
    ensures m.Resolved? <==> IsDeclaration(t.nodes[c].kind)
    ensures m.Resolved? ==> m.decl == c
  {
    var x := t.nodes[c];
    if x.kind == TypeRef then
      match PreviousLocation(buf, x.extent.start.line, x.extent.start.col)
      case None => Stuck(NoSourceLocation)
      case Some(p) => Goto(lookup(p))
    else if x.kind == NamespaceRef then
      match NextLocation(buf, x.extent.end.line, x.extent.end.col)
      case None => Stuck(NoSourceLocation)
      case Some(p) => Goto(lookup(p))
    else if IsDeclaration(x.kind) then Resolved(c)
    else Goto(x.parent)
  }

  /** A declaration is resolved where it stands; only a reference step can
      fall off the buffer, a type reference exactly at its very start and a
      namespace reference exactly at its very end; every other node defers
      to its lexical parent. */
  lemma StepCases(buf: Lines, t: Tree, lookup: Pos -> Option<nat>, c: nat)
    requires Ready(buf, t, lookup) && c < |t.nodes|
    ensures var m := Step(buf, t, lookup, c);
            var x := t.nodes[c];
            && (m.Stuck? ==> m.failure == NoSourceLocation && (x.kind == TypeRef || x.kind == NamespaceRef))
            && (x.kind == TypeRef ==> (m.Stuck? <==> x.extent.start.line == 1 && x.extent.start.col <= 1))
            && (x.kind == NamespaceRef ==>
                  (m.Stuck? <==> x.extent.end.line == |buf| && x.extent.end.col >= |buf[|buf| - 1]|))
            && (x.kind != TypeRef && x.kind != NamespaceRef && !IsDeclaration(x.kind) ==> m == Goto(x.parent))
            && (x.kind == TypeRef && !m.Stuck? ==>
                  exists p :: Before(p, x.extent.start) && m == Goto(lookup(p)))
            && (x.kind == NamespaceRef && !m.Stuck? ==>
                  exists p :: Before(x.extent.end, p) && m == Goto(lookup(p)))
  {
    var m := Step(buf, t, lookup, c);
    var x := t.nodes[c];
    if x.kind == TypeRef && !m.Stuck? {
      var p := PreviousLocation(buf, x.extent.start.line, x.extent.start.col).value;
      assert Before(p, x.extent.start) && m == Goto(lookup(p));
    }
    if x.kind == NamespaceRef && !m.Stuck? {
      var p := NextLocation(buf, x.extent.end.line, x.extent.end.col).value;
      assert Before(x.extent.end, p) && m == Goto(lookup(p));
    }
  }

  /** The loop, allowed at most `fuel` iterations. */
  function Walk(buf: Lines, t: Tree, lookup: Pos -> Option<nat>, c: Option<nat>, fuel: nat)
    : (r: Result<nat, Failure>)
    requires Ready(buf, t, lookup) && (c.Some? ==> c.value < |t.nodes|)
    ensures r.Ok? ==> r.value < |t.nodes| && IsDeclaration(t.nodes[r.value].kind)
    ensures c.None? ==> r == Err(NoDeclarationFound)
    ensures r.Err? ==> r.error == NoDeclarationFound || r.error == NoSourceLocation || r.error == OutOfFuel
    decreases fuel
  {
    match c
    case None => Err(NoDeclarationFound)
    case Some(n) =>
      if fuel == 0 then Err(OutOfFuel)
      else
        match Step(buf, t, lookup, n)
        case Resolved(d) => Ok(d)
        case Stuck(f) => Err(f)
        case Goto(next) => Walk(buf, t, lookup, next, fuel - 1)
  }

  /** The builder the resolved declaration's kind selects. */
  function Dispatch(buf: Lines, t: Tree, cfg: Config, n: nat): Result<Comment, Failure>
    requires WellFormed(buf, t) && n < |t.nodes| && IsDeclaration(t.nodes[n].kind)
  {
    match HandlerFor(t.nodes[n].kind).value
    case ClassHandler => Ok(ClassComment(buf, t, n, cfg))
    case FunctionHandler => Ok(FunctionComment(buf, t, n, cfg))
    case TemplateHandler => TemplateComment(buf, t, n, cfg)
  }

  /** The comment for the cursor at `line`, `col`, or why there is none. */
  function Generate(buf: Lines, t: Tree, lookup: Pos -> Option<nat>, cfg: Config,
                    line: int, col: int, fuel: nat): Result<Comment, Failure>
    requires Ready(buf, t, lookup) && 1 <= line <= |buf|
  {
    var start := Pos(line, ClampColumn(buf[line - 1], col));
    match Walk(buf, t, lookup, lookup(start), fuel)
    case Err(f) => Err(f)
    case Ok(n) => Dispatch(buf, t, cfg, n)
  }

  // ---- The loop's path ----

  /** From node `c`, `k` iterations that each move to another node reach `n`;
      none of the nodes passed is a declaration. */
  predicate Reaches(buf: Lines, t: Tree, lookup: Pos -> Option<nat>, c: nat, n: nat, k: nat)
    requires Ready(buf, t, lookup) && c < |t.nodes|
    decreases k
  {
    if k == 0 then c == n
    else
      var m := Step(buf, t, lookup, c);
      m.Goto? && m.next.Some? && Reaches(buf, t, lookup, m.next.value, n, k - 1)
  }

  /** From node `c`, the `k`-th iteration moves to no node at all. */
  predicate Escapes(buf: Lines, t: Tree, lookup: Pos -> Option<nat>, c: nat, k: nat)
    requires Ready(buf, t, lookup) && c < |t.nodes|
    decreases k
  {
    var m := Step(buf, t, lookup, c);
    m.Goto? &&
    if k == 0 then m.next.None?
    else m.next.Some? && Escapes(buf, t, lookup, m.next.value, k - 1)
  }

  /** The loop resolves to `n` exactly when `n` is a declaration reached
      from the cursor's node within the allowed iterations. */
  lemma WalkResolves(buf: Lines, t: Tree, lookup: Pos -> Option<nat>, c: nat, n: nat, fuel: nat)
    requires Ready(buf, t, lookup) && c < |t.nodes| && n < |t.nodes|
    ensures Walk(buf, t, lookup, Some(c), fuel) == Ok(n)
            ==> exists k :: 0 <= k < fuel && Reaches(buf, t, lookup, c, n, k) && IsDeclaration(t.nodes[n].kind)
    ensures (exists k :: 0 <= k < fuel && Reaches(buf, t, lookup, c, n, k) && IsDeclaration(t.nodes[n].kind))
            ==> Walk(buf, t, lookup, Some(c), fuel) == Ok(n)
  {
    if Walk(buf, t, lookup, Some(c), fuel) == Ok(n) {
      WalkResolvesSound(buf, t, lookup, c, n, fuel);
    }
    if exists k :: 0 <= k < fuel && Reaches(buf, t, lookup, c, n, k) && IsDeclaration(t.nodes[n].kind) {
      var k :| 0 <= k < fuel && Reaches(buf, t, lookup, c, n, k) && IsDeclaration(t.nodes[n].kind);
      WalkResolvesComplete(buf, t, lookup, c, n, fuel, k);
    }
  }

  lemma {:induction false} WalkResolvesSound(buf: Lines, t: Tree, lookup: Pos -> Option<nat>, c: nat, n: nat, fuel: nat)
    requires Ready(buf, t, lookup) && c < |t.nodes| && n < |t.nodes|
    requires Walk(buf, t, lookup, Some(c), fuel) == Ok(n)
    ensures exists k :: 0 <= k < fuel && Reaches(buf, t, lookup, c, n, k) && IsDeclaration(t.nodes[n].kind)
    decreases fuel
  {
    var m := Step(buf, t, lookup, c);
    if m.Resolved? {
      assert Reaches(buf, t, lookup, c, n, 0);
    } else {
      WalkResolvesSound(buf, t, lookup, m.next.value, n, fuel - 1);
      var k :| 0 <= k < fuel - 1 && Reaches(buf, t, lookup, m.next.value, n, k)
               && IsDeclaration(t.nodes[n].kind);
      assert Reaches(buf, t, lookup, c, n, k + 1);
    }
  }

  lemma {:induction false} WalkResolvesComplete(buf: Lines, t: Tree, lookup: Pos -> Option<nat>,
                                                c: nat, n: nat, fuel: nat, k: nat)
    requires Ready(buf, t, lookup) && c < |t.nodes| && n < |t.nodes|
    requires k < fuel && Reaches(buf, t, lookup, c, n, k) && IsDeclaration(t.nodes[n].kind)
    ensures Walk(buf, t, lookup, Some(c), fuel) == Ok(n)
    decreases k
  {
    var m := Step(buf, t, lookup, c);
    if k > 0 {
      WalkResolvesComplete(buf, t, lookup, m.next.value, n, fuel - 1, k - 1);
      assert Walk(buf, t, lookup, Some(c), fuel) == Walk(buf, t, lookup, m.next, fuel - 1);
    } else {
      assert c == n && m == Resolved(c);
    }
  }

  /** The loop ends with "no supported declaration" exactly when the chain
      of moves from the cursor's node runs out of nodes in time. */
  lemma {:induction false} WalkEscapes(buf: Lines, t: Tree, lookup: Pos -> Option<nat>, c: nat, fuel: nat)
    requires Ready(buf, t, lookup) && c < |t.nodes|
    ensures Walk(buf, t, lookup, Some(c), fuel) == Err(NoDeclarationFound)
            ==> exists k :: 0 <= k < fuel && Escapes(buf, t, lookup, c, k)
    ensures (exists k :: 0 <= k < fuel && Escapes(buf, t, lookup, c, k))
            ==> Walk(buf, t, lookup, Some(c), fuel) == Err(NoDeclarationFound)
    decreases fuel
  {
    if fuel == 0 {
    } else {
      var m := Step(buf, t, lookup, c);
      if m.Goto? && m.next.Some? {
        WalkEscapes(buf, t, lookup, m.next.value, fuel - 1);
        if Walk(buf, t, lookup, Some(c), fuel) == Err(NoDeclarationFound) {
          if fuel - 1 == 0 {
          } else {
            var k :| 0 <= k < fuel - 1 && Escapes(buf, t, lookup, m.next.value, k);
            assert Escapes(buf, t, lookup, c, k + 1);
          }
        }
        if exists k :: 0 <= k < fuel && Escapes(buf, t, lookup, c, k) {
          var k :| 0 <= k < fuel && Escapes(buf, t, lookup, c, k);
          assert 0 <= k - 1 < fuel - 1 && Escapes(buf, t, lookup, m.next.value, k - 1);
          assert Walk(buf, t, lookup, Some(c), fuel) == Walk(buf, t, lookup, m.next, fuel - 1);
        }
      } else if m.Goto? {
        assert Escapes(buf, t, lookup, c, 0);
        assert Walk(buf, t, lookup, Some(c), fuel) == Walk(buf, t, lookup, None, fuel - 1);
      } else {
        assert forall k :: !Escapes(buf, t, lookup, c, k);
      }
    }
  }

  /** More iterations never change an outcome reached without running out. */
  lemma {:induction false} WalkFuelMonotone(buf: Lines, t: Tree, lookup: Pos -> Option<nat>,
                                            c: Option<nat>, fuel: nat, more: nat)
    requires Ready(buf, t, lookup) && (c.Some? ==> c.value < |t.nodes|)
    requires fuel <= more && Walk(buf, t, lookup, c, fuel) != Err(OutOfFuel)
    ensures Walk(buf, t, lookup, c, more) == Walk(buf, t, lookup, c, fuel)
    decreases fuel
  {
    if c.Some? && fuel > 0 {
      var m := Step(buf, t, lookup, c.value);
      if m.Goto? {
        WalkFuelMonotone(buf, t, lookup, m.next, fuel - 1, more - 1);
      }
    }
  }

  /** A cursor anywhere in a line's leading whitespace is treated as if it
      were on the first non-blank column. */
  lemma LeadingWhitespaceIgnored(buf: Lines, t: Tree, lookup: Pos -> Option<nat>, cfg: Config,
                                 line: int, col: int, fuel: nat)
    requires Ready(buf, t, lookup) && 1 <= line <= |buf|
    requires col <= LeadingWhitespace(buf[line - 1]) + 1
    ensures Generate(buf, t, lookup, cfg, line, col, fuel)
            == Generate(buf, t, lookup, cfg, line, LeadingWhitespace(buf[line - 1]) + 1, fuel)
  {
  }

  /** A declaration under the cursor is documented itself: the builder its
      kind selects produces the result. */
  lemma DeclarationUnderCursor(buf: Lines, t: Tree, lookup: Pos -> Option<nat>, cfg: Config,
                               line: int, col: int, fuel: nat)
    requires Ready(buf, t, lookup) && 1 <= line <= |buf| && fuel >= 1
    requires var n := lookup(Pos(line, ClampColumn(buf[line - 1], col)));
             n.Some? && IsDeclaration(t.nodes[n.value].kind)
    ensures var n := lookup(Pos(line, ClampColumn(buf[line - 1], col))).value;
            var r := Generate(buf, t, lookup, cfg, line, col, fuel);
            && (t.nodes[n].kind in ClassKinds ==> r == Ok(ClassComment(buf, t, n, cfg)))
            && (t.nodes[n].kind in FunctionKinds ==> r == Ok(FunctionComment(buf, t, n, cfg)))
            && (t.nodes[n].kind in TemplateKinds ==> r == TemplateComment(buf, t, n, cfg))
  {
  }

  /** Only a function template can fail for want of a template parameter;
      a resolved class or function declaration always yields a comment. */
  lemma FailureCauses(buf: Lines, t: Tree, lookup: Pos -> Option<nat>, cfg: Config,
                      line: int, col: int, fuel: nat)
    requires Ready(buf, t, lookup) && 1 <= line <= |buf|
    ensures var start := lookup(Pos(line, ClampColumn(buf[line - 1], col)));
            var w := Walk(buf, t, lookup, start, fuel);
            var r := Generate(buf, t, lookup, cfg, line, col, fuel);
            && (r.Err? && w.Ok? ==> t.nodes[w.value].kind == FunctionTemplate)
            && (w.Ok? && t.nodes[w.value].kind != FunctionTemplate ==> r.Ok?)
            && (w.Err? ==> r == Err(w.error))
  {
  }

  // ---- The loop itself ----

  /** A move consumes one iteration and the walk continues from the new cursor. */
  lemma WalkGoto(buf: Lines, t: Tree, lookup: Pos -> Option<nat>, c: nat, steps: nat, next: Option<nat>)
    requires Ready(buf, t, lookup) && c < |t.nodes| && steps > 0
    requires Step(buf, t, lookup, c) == Goto(next)
    ensures next.Some? ==> next.value < |t.nodes|
    ensures Walk(buf, t, lookup, Some(c), steps) == Walk(buf, t, lookup, next, steps - 1)
  {
  }

  /** A node that is neither a reference nor a declaration moves to its parent. */
  lemma StepToParent(buf: Lines, t: Tree, lookup: Pos -> Option<nat>, c: nat)
    requires Ready(buf, t, lookup) && c < |t.nodes|
    requires var k := t.nodes[c].kind; k != TypeRef && k != NamespaceRef && !IsDeclaration(k)
    ensures Step(buf, t, lookup, c) == Goto(t.nodes[c].parent)
  {
  }

  /** A walk that stops at its first node: resolved there, stuck there, or
      with no iteration left. */
  lemma WalkStopsAt(buf: Lines, t: Tree, lookup: Pos -> Option<nat>, c: nat, steps: nat)
    requires Ready(buf, t, lookup) && c < |t.nodes|
    ensures steps == 0 ==> Walk(buf, t, lookup, Some(c), steps) == Err(OutOfFuel)
    ensures steps > 0 && IsDeclaration(t.nodes[c].kind) ==> Walk(buf, t, lookup, Some(c), steps) == Ok(c)
    ensures steps > 0 && Step(buf, t, lookup, c).Stuck? ==>
              Walk(buf, t, lookup, Some(c), steps) == Err(Step(buf, t, lookup, c).failure)
  {
  }

  /** A failed walk is the overall failure. */
  lemma GenerateFails(buf: Lines, t: Tree, lookup: Pos -> Option<nat>, cfg: Config,
                      line: int, col: int, fuel: nat, f: Failure)
    requires Ready(buf, t, lookup) && 1 <= line <= |buf|
    requires Walk(buf, t, lookup, lookup(Pos(line, ClampColumn(buf[line - 1], col))), fuel) == Err(f)
    ensures Generate(buf, t, lookup, cfg, line, col, fuel) == Err(f)
  {
  }

  /** A walk that resolves hands its node to the builder. */
  lemma GenerateResolves(buf: Lines, t: Tree, lookup: Pos -> Option<nat>, cfg: Config,
                         line: int, col: int, fuel: nat, n: nat)
    requires Ready(buf, t, lookup) && 1 <= line <= |buf| && n < |t.nodes| && IsDeclaration(t.nodes[n].kind)
    requires Walk(buf, t, lookup, lookup(Pos(line, ClampColumn(buf[line - 1], col))), fuel) == Ok(n)
    ensures Generate(buf, t, lookup, cfg, line, col, fuel) == Dispatch(buf, t, cfg, n)
  {
  }

  /** The builder call for a node of a supported kind. */
  method HandleDeclaration(buf: Lines, t: Tree, cfg: Config, n: nat) returns (r: Result<Comment, Failure>)
    requires WellFormed(buf, t) && n < |t.nodes| && IsDeclaration(t.nodes[n].kind)
    ensures r == Dispatch(buf, t, cfg, n)
  {
    match t.nodes[n].kind {
      case FunctionDecl | CxxMethod | Constructor | Destructor | ObjCInstanceMethodDecl =>
        var insertLine, doxygenLines := HandleFunctionDecl(buf, t, n, cfg);
        r := Ok(Comment(insertLine, doxygenLines));
      case FunctionTemplate =>
        r := HandleFunctionTemplate(buf, t, n, cfg);
      case ClassDecl | ClassTemplate | ObjCInterfaceDecl | ObjCCategoryDecl | ObjCImplementationDecl =>
        var insertLine, doxygenLines := HandleClassDecl(buf, t, n, cfg);
        r := Ok(Comment(insertLine, doxygenLines));
    }
  }

  /** The re-query for a type or namespace reference: one position before a
      type reference's start or after a namespace reference's end, or the
      failure when that step leaves the buffer. */
  method ReferenceStep(buf: Lines, t: Tree, lookup: Pos -> Option<nat>, c: nat)
    returns (next: Result<Option<nat>, Failure>)
    requires Ready(buf, t, lookup) && c < |t.nodes|
    requires t.nodes[c].kind == TypeRef || t.nodes[c].kind == NamespaceRef
    ensures next.Ok? ==> Step(buf, t, lookup, c) == Goto(next.value)
    ensures next.Err? ==> Step(buf, t, lookup, c) == Stuck(next.error)
  {
    var x := t.nodes[c];
    var p;
    if x.kind == TypeRef {
      p := PreviousLocation(buf, x.extent.start.line, x.extent.start.col);
    } else {
      p := NextLocation(buf, x.extent.end.line, x.extent.end.col);
    }
    if p.None? {
      return Err(NoSourceLocation);
    }
    return Ok(lookup(p.value));
  }

  method GenerateDoxygenForSourceLocation(buf: Lines, t: Tree, lookup: Pos -> Option<nat>, cfg: Config,
                                          line: int, col: int, fuel: nat)
    returns (r: Result<Comment, Failure>)
    requires Ready(buf, t, lookup) && 1 <= line <= |buf|
    ensures r == Generate(buf, t, lookup, cfg, line, col, fuel)
  {
    var indent := LeadingWhitespace(buf[line - 1]);
    var column := if col < indent + 1 then indent + 1 else col;
    var c: Option<nat> := lookup(Pos(line, column));
    ghost var outcome := Walk(buf, t, lookup, lookup(Pos(line, ClampColumn(buf[line - 1], col))), fuel);
    var steps := fuel;
    // Each iteration consumes one unit of fuel; `steps` is what remains.
    while c.Some?
      invariant c.Some? ==> c.value < |t.nodes|
      invariant Walk(buf, t, lookup, c, steps) == outcome
      decreases steps
    {
      WalkStopsAt(buf, t, lookup, c.value, steps);
      if steps == 0 {
        GenerateFails(buf, t, lookup, cfg, line, col, fuel, OutOfFuel);
        return Err(OutOfFuel);
      }
      var x := t.nodes[c.value];
      if x.kind == TypeRef || x.kind == NamespaceRef {
        var next := ReferenceStep(buf, t, lookup, c.value);
        if next.Err? {
          assert outcome == Err(next.error);
          GenerateFails(buf, t, lookup, cfg, line, col, fuel, next.error);
          return Err(next.error);
        }
        WalkGoto(buf, t, lookup, c.value, steps, next.value);
        c := next.value;
      } else if IsDeclaration(x.kind) {
        GenerateResolves(buf, t, lookup, cfg, line, col, fuel, c.value);
        r := HandleDeclaration(buf, t, cfg, c.value);
        return;
      } else {
        StepToParent(buf, t, lookup, c.value);
        WalkGoto(buf, t, lookup, c.value, steps, x.parent);
        c := x.parent;
      }
      steps := steps - 1;
    }
    GenerateFails(buf, t, lookup, cfg, line, col, fuel, NoDeclarationFound);
    return Err(NoDeclarationFound);
  }
}

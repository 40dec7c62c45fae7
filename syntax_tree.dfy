/** The parsed translation unit as an arena of cursors: each node has a
    kind, a spelling, the location of its name, an extent, the kind of its
    result type, its children in source order and its lexical parent. */
module SyntaxTree {
  import opened Wrappers
  import opened Buffer

  /** The cursor kinds the plugin tests for; every other kind is `OtherKind`. */
  datatype Kind =
    | TypeRef
    | NamespaceRef
    | FunctionDecl
    | CxxMethod
    | Constructor
    | Destructor
    | FunctionTemplate
    | ClassDecl
    | ClassTemplate
    | ObjCInstanceMethodDecl
    | ObjCInterfaceDecl
    | ObjCCategoryDecl
    | ObjCImplementationDecl
    | ParmDecl
    | TemplateTypeParameter
    | OtherKind(name: string)

  /** The kind of a function's result type. Only `VOID` is distinguished; any other
      kind is known by its printable spelling. */
  datatype TypeKind = VoidType | NonVoidType(spelling: string)

  /** `TypeKind.spelling`. */
  function TypeKindSpelling(k: TypeKind): string {
    match k
    case VoidType => "Void"
    case NonVoidType(s) => s
  }

  datatype Extent = Extent(start: Pos, end: Pos)

  datatype Node = Node(
    kind: Kind,
    spelling: string,
    location: Pos,
    extent: Extent,
    resultKind: TypeKind,
    children: seq<nat>,
    parent: Option<nat>)

  datatype Tree = Tree(nodes: seq<Node>)

  predicate ValidPos(buf: Lines, p: Pos) {
    1 <= p.line <= |buf| && 1 <= p.col
  }

  /** The declaration kinds the plugin writes comments for, grouped by the
      builder that documents them. */
  const FunctionKinds: set<Kind> := {FunctionDecl, CxxMethod, Constructor, Destructor, ObjCInstanceMethodDecl}
  const TemplateKinds: set<Kind> := {FunctionTemplate}
  const ClassKinds: set<Kind> :=
    {ClassDecl, ClassTemplate, ObjCInterfaceDecl, ObjCCategoryDecl, ObjCImplementationDecl}

  predicate IsDeclaration(k: Kind) {
    k in FunctionKinds + TemplateKinds + ClassKinds
  }

  /** What libclang guarantees of a cursor of the buffer's translation unit.
      The positions the plugin reads lie on lines of the buffer: the name
      location and start of a declaration, the start of a type reference,
      and the end of a namespace reference or a template type parameter.
      Other cursors promise nothing about their positions; the translation
      unit itself has the null location (0, 0). Links stay in the arena. */
  predicate NodeInBounds(buf: Lines, n: Node, count: nat) {
    && (IsDeclaration(n.kind) ==> ValidPos(buf, n.location) && ValidPos(buf, n.extent.start))
    && (n.kind == TypeRef ==> ValidPos(buf, n.extent.start))
    && (n.kind == NamespaceRef || n.kind == TemplateTypeParameter ==> ValidPos(buf, n.extent.end))
    && (forall i :: 0 <= i < |n.children| ==> n.children[i] < count)
    && (n.parent.Some? ==> n.parent.value < count)
  }

  predicate WellFormed(buf: Lines, t: Tree) {
    forall i :: 0 <= i < |t.nodes| ==> NodeInBounds(buf, t.nodes[i], |t.nodes|)
  }

  predicate InArena(t: Tree, cs: seq<nat>) {
    forall i :: 0 <= i < |cs| ==> cs[i] < |t.nodes|
  }

  /** Spellings of the `PARM_DECL` nodes among `cs`, in order. */
  function ParamNames(t: Tree, cs: seq<nat>): (names: seq<string>)
    requires InArena(t, cs)
    ensures |names| <= |cs|
  {
    if cs == [] then []
    else
      var last := t.nodes[cs[|cs| - 1]];
      ParamNames(t, cs[..|cs| - 1]) + (if last.kind == ParmDecl then [last.spelling] else [])
  }

  /** Parameter names of consecutive runs of children are concatenated. */
  lemma {:induction false} ParamNamesAppend(t: Tree, a: seq<nat>, b: seq<nat>)
    requires InArena(t, a) && InArena(t, b)
    ensures InArena(t, a + b)
    ensures ParamNames(t, a + b) == ParamNames(t, a) + ParamNames(t, b)
    decreases |b|
  {
    assert InArena(t, a + b) by {
      forall i | 0 <= i < |a + b| ensures (a + b)[i] < |t.nodes| {
        if i >= |a| { assert (a + b)[i] == b[i - |a|]; }
      }
    }
    if b == [] {
      assert a + b == a;
    } else {
      var init := b[..|b| - 1];
      assert (a + b)[..|a + b| - 1] == a + init;
      assert InArena(t, init) by {
        forall i | 0 <= i < |init| ensures init[i] < |t.nodes| { assert init[i] == b[i]; }
      }
      ParamNamesAppend(t, a, init);
    }
  }

  /** When every child is a parameter, the names are their spellings in order. */
  lemma {:induction false} AllParamNames(t: Tree, cs: seq<nat>)
    requires InArena(t, cs)
    requires forall i :: 0 <= i < |cs| ==> t.nodes[cs[i]].kind == ParmDecl
    ensures ParamNames(t, cs) == seq(|cs|, i requires 0 <= i < |cs| => t.nodes[cs[i]].spelling)
    decreases |cs|
  {
    if cs != [] {
      var init := cs[..|cs| - 1];
      assert forall i :: 0 <= i < |init| ==> init[i] == cs[i];
      AllParamNames(t, init);
    }
  }

  /** Without parameter children there are no parameter names. */
  lemma {:induction false} NoParamNames(t: Tree, cs: seq<nat>)
    requires InArena(t, cs)
    requires forall i :: 0 <= i < |cs| ==> t.nodes[cs[i]].kind != ParmDecl
    ensures ParamNames(t, cs) == []
    decreases |cs|
  {
    if cs != [] {
      var init := cs[..|cs| - 1];
      assert forall i :: 0 <= i < |init| ==> init[i] == cs[i];
      NoParamNames(t, init);
    }
  }

  /** Index in `cs`, at or after `from`, of the first node of kind `k`. */
  function FirstOfKind(t: Tree, cs: seq<nat>, k: Kind, from: nat): (r: Option<nat>)
    requires InArena(t, cs) && from <= |cs|
    ensures r.Some? ==> from <= r.value < |cs| && t.nodes[cs[r.value]].kind == k
    ensures r.Some? ==> forall j :: from <= j < r.value ==> t.nodes[cs[j]].kind != k
    ensures r.None? ==> forall j :: from <= j < |cs| ==> t.nodes[cs[j]].kind != k
    decreases |cs| - from
  {
    if from == |cs| then None
    else if t.nodes[cs[from]].kind == k then Some(from)
    else FirstOfKind(t, cs, k, from + 1)
  }
}

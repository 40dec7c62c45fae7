# vim-clang_doxygen in Dafny

A model of the core of `plugin/clang_doxygen.py`, the Vim plugin that writes
a Doxygen comment template above the C-family declaration under the cursor.

- **Buffer** (`buffer.dfy`) holds the editor buffer as a sequence of lines. It has
  one-step movement backward and forward over 1-based (line, column)
  positions, and the slice of text between two positions.
- **Resolver** (`resolver.dfy`) models the resolution loop. It first clamps the
  column past the line's leading whitespace. Then it walks from the node under
  the cursor:
  - a type reference steps back in the text and re-queries;
  - a namespace reference steps forward in the text and re-queries;
  - a node of a supported kind goes to its comment builder;
  - any other node moves to its lexical parent.
- **Handlers** (`handlers.dfy`) are the three comment builders for classes,
  functions and function templates. They build the lines step by step, number
  the snippet placeholders `${n:default}`, add the `$0` line, and indent every
  line by the declaration's computed indentation.
- **CommentScan** and **Text** (`comment_scan.dfy`, `text.dfy`) cover the
  template handler's return-type scan: non-greedy removal of `/* ... */`, the
  search for `void`, and the Python string operations the plugin relies on.
- **SyntaxTree** (`syntax_tree.dfy`) is the parsed unit: an arena of nodes, each with a
  kind, spelling, name location, extent, result-type kind, children and
  optional lexical parent.
- **DoxygenRows** (`doxygen_rows.dfy`) describes a comment as rows: plain text, a
  numbered placeholder, or the final `$0`. The placeholder facts are proved
  once on rows. The handler methods are proved to produce the rendered rows,
  indented.
- **Examples** (`examples.dfy`) works through concrete buffers. It covers:
  - an indented class;
  - a template whose `void` sits inside a block comment;
  - a `void` template;
  - a variable with no supported declaration above it;
  - a type reference at the very start of the buffer.

libclang's "cursor at this position" query becomes a function parameter
`lookup: Pos -> Option<nat>`. The `g:clang_doxygen_*` options and `&tabstop`
become a `Config` record. The buffer is a `seq<string>` parameter. The
plugin's `(None, None)` returns and the exceptions its code would raise
become `Failure` values.

## Model

| member | source | states |
|---|---|---|
| Buffer.PreviousLocation | plugin/clang_doxygen.py:180-185 | None exactly at (1, col ≤ 1); otherwise a strictly earlier position: exactly (line, col-1) when col > 1, and exactly (line-1, length of line line-1) when col ≤ 1 and line > 1 |
| Buffer.NextLocation | plugin/clang_doxygen.py:189-194 | None exactly at or past the end of the last line; otherwise a strictly later position: exactly (line, col+1) while col is before the line's end, and exactly (line+1, 1) at or past the end of a line other than the last |
| Buffer.PreviousAfterNext | plugin/clang_doxygen.py:180-194 | from any character of the buffer, stepping back undoes a step forward |
| Buffer.NextAfterPrevious | plugin/clang_doxygen.py:180-194 | from a character or a first column, stepping forward undoes a step back |
| Buffer.BufferContent | plugin/clang_doxygen.py:111-118 | endLine-startLine+1 lines; a one-line range is `line[startCol-1:endCol]`; otherwise only the first line loses its prefix and the last its suffix, interior lines unchanged |
| Buffer.GetBufferContent | plugin/clang_doxygen.py:111-118 | the slice-then-overwrite procedure yields exactly BufferContent |
| Text.LeadingWhitespace | plugin/clang_doxygen.py:206 | the end of the `^\s*` match: all characters before it are whitespace, the one at it is not |
| Text.IsSpace | plugin/clang_doxygen.py:206 | the class `\s` of the `^\s*` match, as Python 2 defines it on byte strings: space, tab, newline, carriage return, vertical tab, form feed |
| Text.LeadingWhitespaceAt | plugin/clang_doxygen.py:206 | exactly k whitespace characters followed by a non-whitespace one (or the end of the line) measure an indentation of k |
| Text.CountChar | plugin/clang_doxygen.py:42 | `str.count` of one character: the number of its occurrences (its multiplicity in the string), so zero exactly when it is absent |
| Text.Spaces | plugin/clang_doxygen.py:44 | `n * " "`: n spaces for positive n, empty otherwise |
| Text.PySlice | plugin/clang_doxygen.py:114-117 | Python slicing with clamped bounds: its length and its characters, and plain `s[i..j]` for in-range bounds |
| Text.JoinLines | plugin/clang_doxygen.py:160 | `"\n".join`: empty for no lines, the line itself for one line |
| Text.JoinLinesAppend | plugin/clang_doxygen.py:160 | joining two non-empty runs of lines puts exactly one newline between their joins |
| Text.HasSubstring | plugin/clang_doxygen.py:161 | `re.search` for a literal succeeds exactly when the pattern occurs at some index |
| Text.NatStr | plugin/clang_doxygen.py:29 | `str(n)`: non-empty decimal digits without a leading zero |
| Text.NatStrRoundTrip | plugin/clang_doxygen.py:29 | the decimal text of a tab-stop number reads back as that number |
| Text.NatStrInjective | plugin/clang_doxygen.py:29 | distinct tab-stop numbers give distinct texts |
| CommentScan.FindClose | plugin/clang_doxygen.py:159 | the non-greedy `.*?\*/`: the first closer at or after the given index, or none at all |
| CommentScan.StripBlockComments | plugin/clang_doxygen.py:159-160 | `re.sub` of `/\*.*?\*/` with DOTALL: the result is never longer than the input; the four lemmas below together fix its result on every input: no opener, a closed leading comment, a character that opens none, an unclosed opener |
| CommentScan.StripWithoutOpener | plugin/clang_doxygen.py:159-160 | text with no `/*` is left unchanged |
| CommentScan.StripLeadingComment | plugin/clang_doxygen.py:159-160 | a leading comment whose body has no `*/` is removed entirely, and the rest is scanned on its own |
| CommentScan.StripKeepsPlainChar | plugin/clang_doxygen.py:159-160 | a character that does not begin `/*` (a lone `/` included) is kept and the scan continues after it |
| CommentScan.StripKeepsUnclosed | plugin/clang_doxygen.py:159-160 | an opener with no closer starting two or more characters later is ordinary text: its `/` is kept and the scan resumes at the `*` |
| SyntaxTree.ParamNames | plugin/clang_doxygen.py:78-82 | the `PARM_DECL` spellings among the children: never more of them than children |
| SyntaxTree.ParamNamesAppend | plugin/clang_doxygen.py:78-82 | the names of consecutive runs of children are concatenated, so the order of the children is kept |
| SyntaxTree.AllParamNames | plugin/clang_doxygen.py:78-82 | when every child is a `PARM_DECL`, the names are all their spellings in child order |
| SyntaxTree.NoParamNames | plugin/clang_doxygen.py:78-80 | children none of which is a `PARM_DECL` give no names |
| SyntaxTree.TypeKindSpelling | plugin/clang_doxygen.py:90 | `TypeKind.spelling` of the result kind (also used at line 163): `Void` for `VOID`, otherwise the spelling the node carries |
| SyntaxTree.FirstOfKind | plugin/clang_doxygen.py:143-147 | the first child of the kind: a match, with no earlier one, or none among all the children |
| DoxygenRows.RenderRows | plugin/clang_doxygen.py:20-36 | one rendered line per row, in order |
| DoxygenRows.FieldText | plugin/clang_doxygen.py:29 | the placeholder text `"${" + str(n) + ":" + default + "}"`, written the same way at lines 29, 66, 81, 90, 125, 136 and 163; NatStrRoundTrip and NatStrInjective make its number readable back |
| DoxygenRows.TemplateStyle | plugin/clang_doxygen.py:125-163 | the text the template builder hard-codes whatever the options say: line comments `/// ` with `\brief `, `\param ` and `\return `, no block |
| DoxygenRows.BodyRows | plugin/clang_doxygen.py:31-32 | the blank comment line and the `$0` line that follow the brief line (also lines 68-69 and 127-128); see OpeningBodyClosingFields |
| DoxygenRows.ParamRow | plugin/clang_doxygen.py:81 | one `\param name ${k:name}` line with the name as its default (also line 136) |
| DoxygenRows.OpeningRows | plugin/clang_doxygen.py:57-69 | the block start and/or comment middle lines, the last carrying the brief placeholder `${1:name}`; its placeholders are in OpeningBodyClosingFields |
| DoxygenRows.ParamRows | plugin/clang_doxygen.py:78-82 | one `\param name ${k:name}` row per parameter, numbered from the first stop on; its placeholders are in ParamRowsFields |
| DoxygenRows.ParamSection | plugin/clang_doxygen.py:76-85 | a separator and the parameter rows from stop 2, or nothing without parameters; see ParamSectionFields |
| DoxygenRows.ReturnSection | plugin/clang_doxygen.py:87-91 | a separator and the `\return` placeholder for a non-void result, nothing otherwise; see ReturnSectionFields |
| DoxygenRows.ClosingRows | plugin/clang_doxygen.py:93-95 | the block end in block style, nothing otherwise |
| DoxygenRows.ClassRows | plugin/clang_doxygen.py:14-36 | the class comment before indentation: opening, blank and `$0` lines, closing; see ClassFields |
| DoxygenRows.FunctionRows | plugin/clang_doxygen.py:51-95 | the function comment before indentation, in source order of its sections; see FunctionFields and FunctionLayout |
| DoxygenRows.FieldsAppend | plugin/clang_doxygen.py:52-95 | placeholder numbers, defaults and `$0` count of a concatenation are those of the parts, concatenated |
| DoxygenRows.ParamRowsFields | plugin/clang_doxygen.py:78-82 | the parameter lines number consecutive tab stops from the first one on, with the parameter names as defaults, and hold no `$0` |
| DoxygenRows.OpeningBodyClosingFields | plugin/clang_doxygen.py:20-36 | the opening holds only `${1:name}`, the body only `$0`, the block end nothing, in every option setting |
| DoxygenRows.ReturnSectionFields | plugin/clang_doxygen.py:87-91 | the return section holds one placeholder, defaulting to the result spelling, exactly for a non-void result |
| DoxygenRows.ParamSectionFields | plugin/clang_doxygen.py:76-85 | the parameter section numbers 2..n+1 with the parameter names as defaults |
| DoxygenRows.ClassFields | plugin/clang_doxygen.py:14-36 | a class comment has exactly the placeholder `${1:name}` and one `$0`: no parameter and no return placeholder |
| DoxygenRows.FunctionFields | plugin/clang_doxygen.py:66-91 | a function comment numbers 1..k without gaps: the name, then the n parameters as 2..n+1, then the result as n+2 only if non-void; `$0` exactly once |
| DoxygenRows.FunctionLayout | plugin/clang_doxygen.py:57-95 | line positions: brief last in the opening, then blank and `$0`; a separator before the parameters only if there are some; separator and return line only for a result; block end last only in block style |
| DoxygenRows.Indented | plugin/clang_doxygen.py:44-46 | every line is the unprefixed line after exactly `width` spaces |
| Handlers.IndentWidth | plugin/clang_doxygen.py:42-43 | `(start column - 1 - k) + k * tabstop` for the k tabs before the name; start column - 1 when k = 0; at least that when tabstop ≥ 1 |
| Handlers.TabsBeforeName | plugin/clang_doxygen.py:42 | the tabs before the name's column on its line: never more than the columns before the name, nor than the line's length |
| Handlers.IndentWithoutTabs | plugin/clang_doxygen.py:42-43 | only spaces before the name: the indentation is the start column minus one |
| Handlers.CommentIndent | plugin/clang_doxygen.py:101-102 | the tab count and formula each handler computes equal IndentWidth |
| Handlers.AddIndentation | plugin/clang_doxygen.py:103-105 | the in-place rewriting loop prefixes every line with the indent string, as Indented says |
| Handlers.RenderRowsAppend | plugin/clang_doxygen.py:85 | rendering distributes over appending lines |
| Handlers.CollectParamLines | plugin/clang_doxygen.py:76-82 | the loop over children emits one line per `PARM_DECL` with the next tab stop, and the counter ends advanced by their number |
| Handlers.OpenComment | plugin/clang_doxygen.py:57-69 | the opening lines (block start and/or comment middle), the brief placeholder appended to the last of them, the blank and `$0` lines |
| Handlers.AppendParamLines | plugin/clang_doxygen.py:76-85 | appends a separator only when there are parameter lines, then the lines; the counter is 2 + their number |
| Handlers.AppendReturnLines | plugin/clang_doxygen.py:87-91 | appends separator and `\return` placeholder exactly for a non-void result |
| Handlers.CloseBlock | plugin/clang_doxygen.py:93-95 | appends the block end only in block style |
| Handlers.HandleClassDecl | plugin/clang_doxygen.py:14-48 | returns the declaration's start line and the class rows rendered and indented, so ClassFields holds of them |
| Handlers.HandleFunctionDecl | plugin/clang_doxygen.py:51-107 | returns the start line and the function rows (name, parameters, non-void result) rendered and indented, so FunctionFields and FunctionLayout hold of them |
| Handlers.FindTemplateTypeParameter | plugin/clang_doxygen.py:143-147 | the loop with `break` finds the first template type parameter child, or none |
| Handlers.OpenTemplateComment | plugin/clang_doxygen.py:125-128 | the hard-coded `/// \brief ${1:name}`, `/// ` and `/// $0` lines are the opening rows with fixed `///` markers |
| Handlers.TemplateResultString | plugin/clang_doxygen.py:142-160 | the anchor search, the scan from the anchor's end column + 1 to just before the name, and comment removal; a missing anchor, a name at the buffer start and an empty line range are failures |
| Handlers.AppendTemplateReturn | plugin/clang_doxygen.py:161-164 | appends `/// ` and `/// \return ${n:spelling}` exactly when the scanned text contains no `void` |
| Handlers.HandleFunctionTemplate | plugin/clang_doxygen.py:121-176 | the template comment with fixed `///` markers; a failure exactly when the scan fails |
| Handlers.ClassComment | plugin/clang_doxygen.py:14-48 | the class comment: at the extent's start line, the class rows rendered and indented by IndentWidth; HandleClassDecl is proved to produce it |
| Handlers.FunctionComment | plugin/clang_doxygen.py:51-107 | the function comment: at the extent's start line, the function rows rendered and indented; HandleFunctionDecl is proved to produce it |
| Handlers.ReturnOf | plugin/clang_doxygen.py:88 | the `kind != TypeKind.VOID` test: no result for `VOID`, otherwise the result kind's spelling as the placeholder default; see ReturnSectionFields |
| Handlers.TemplateResultText | plugin/clang_doxygen.py:142-160 | fails with MissingTemplateAnchor exactly when no child is a template type parameter; its only other failures are NoSourceLocation and EmptyBufferRange |
| Handlers.TemplateReturn | plugin/clang_doxygen.py:161-164 | the result placeholder's default, absent when `void` occurs in the scanned text; see TemplateReturnIffNoVoid |
| Handlers.TemplateRows | plugin/clang_doxygen.py:125-164 | the template comment before indentation, in the fixed `///` style; see TemplateReturnIffNoVoid |
| Handlers.TemplateComment | plugin/clang_doxygen.py:121-176 | the template comment, or the failure of its scan; HandleFunctionTemplate is proved to produce it |
| Handlers.TemplateCommentErr | plugin/clang_doxygen.py:142-150 | a failing result-type scan is the failure of the whole template comment |
| Handlers.TemplateCommentOk | plugin/clang_doxygen.py:121-176 | with a scanned text, the template comment sits at the start line and holds the template rows rendered and indented |
| Handlers.TemplateAnchorRequired | plugin/clang_doxygen.py:143-150 | a template yields MissingTemplateAnchor exactly when no child is a template type parameter |
| Handlers.TemplateReturnIffNoVoid | plugin/clang_doxygen.py:131-164 | a template comment has a return placeholder exactly when the comment-stripped text has no `void`; tab stops run 1..k in the order name, parameters, result; `$0` once |
| Resolver.HandlerFor | plugin/clang_doxygen.py:223-244 | the five function kinds go to the function builder, the template kind to the template builder, the five class kinds to the class builder, and no other kind has a builder |
| Resolver.Dispatch | plugin/clang_doxygen.py:223-244 | the comment of the builder HandlerFor selects for the declaration's kind; HandleDeclaration is proved to produce it |
| Resolver.Generate | plugin/clang_doxygen.py:199-251 | the walk from the clamped cursor, then Dispatch of the resolved node; its properties are WalkResolves, WalkEscapes, FailureCauses and DeclarationUnderCursor |
| Resolver.ClampColumn | plugin/clang_doxygen.py:205-207 | `max(col, indent + 1)`: never inside the leading whitespace, unchanged when already past it |
| Resolver.Step | plugin/clang_doxygen.py:213-247 | one iteration: a resolved node is exactly a supported declaration, and a move stays in the tree |
| Resolver.StepCases | plugin/clang_doxygen.py:213-247 | only reference steps fail: a type reference exactly at the buffer start, a namespace reference exactly at the buffer end; any other unsupported node moves to its lexical parent; a type reference re-queries a position strictly before its extent start, a namespace reference one strictly after its extent end |
| Resolver.Walk | plugin/clang_doxygen.py:212-251 | success is a supported declaration in the tree; no cursor means "no supported declaration"; the only failures are that, a failed source step, and running out of fuel |
| Resolver.WalkResolves | plugin/clang_doxygen.py:212-247 | the loop resolves to n exactly when n is a supported declaration reached by moves from the cursor's node within the fuel |
| Resolver.WalkEscapes | plugin/clang_doxygen.py:212-251 | the loop ends with "no supported declaration" exactly when the chain of moves reaches no node within the fuel |
| Resolver.WalkFuelMonotone | plugin/clang_doxygen.py:212-251 | more fuel never changes an outcome reached without running out of fuel |
| Resolver.WalkGoto | plugin/clang_doxygen.py:214-247 | a move consumes one iteration and continues from the new cursor |
| Resolver.ReferenceStep | plugin/clang_doxygen.py:214-222 | a type reference re-queries the position before its start, a namespace reference the position after its end; each fails exactly when that position does not exist |
| Resolver.StepToParent | plugin/clang_doxygen.py:245-247 | a node that is neither a reference nor a supported declaration moves to its lexical parent |
| Resolver.WalkStopsAt | plugin/clang_doxygen.py:212-247 | the loop stops on exhausted fuel, on a supported declaration (resolved to it) and on a failed reference step (with that failure) |
| Resolver.WalkResolvesSound | plugin/clang_doxygen.py:212-247 | a resolved walk reached a supported declaration within fewer moves than its fuel |
| Resolver.WalkResolvesComplete | plugin/clang_doxygen.py:212-247 | a supported declaration reached in fewer moves than the fuel is what the walk resolves to |
| Resolver.GenerateFails | plugin/clang_doxygen.py:212-251 | a failed walk from the clamped cursor is the overall failure |
| Resolver.GenerateResolves | plugin/clang_doxygen.py:223-244 | a walk resolving to a supported declaration hands it to the builder of its kind |
| Resolver.LeadingWhitespaceIgnored | plugin/clang_doxygen.py:205-207 | a cursor anywhere in the leading whitespace gives the same result as one on the first non-blank column |
| Resolver.DeclarationUnderCursor | plugin/clang_doxygen.py:223-244 | a supported declaration under the (clamped) cursor is documented by the builder its kind selects |
| Resolver.FailureCauses | plugin/clang_doxygen.py:223-251 | once a declaration is found, only a function template can fail; a failure of the walk is the overall failure |
| Resolver.HandleDeclaration | plugin/clang_doxygen.py:223-244 | the builder calls for the supported kinds produce what the kind's builder specifies |
| Resolver.GenerateDoxygenForSourceLocation | plugin/clang_doxygen.py:199-251 | the clamp and the `while` loop reassigning the cursor produce exactly Generate: the comment of the resolved declaration or the failure |
| Examples.ClassAtLineStart | plugin/clang_doxygen.py:14-48 | cursor at column 1 of `  class Widget {};` gives the block comment indented by two spaces above line 1 |
| Examples.ClassIndent | plugin/clang_doxygen.py:42-43 | no tabs before the name: indentation 2 for start column 3 |
| Examples.HiddenVoidIgnored | plugin/clang_doxygen.py:152-160 | in `template<typename T> /* void */ T make();` the scanned text is `  T ` once the comment is gone |
| Examples.HiddenVoidGivesResult | plugin/clang_doxygen.py:161-163 | that text has no `void`, so the result placeholder is emitted |
| Examples.VoidTemplateHasNoResult | plugin/clang_doxygen.py:152-164 | in `template<typename T> void reset(T x);` the scanned text ` void ` suppresses the result placeholder |
| Examples.NoSupportedDeclaration | plugin/clang_doxygen.py:245-251 | a variable at file scope yields "no supported declaration" |
| Examples.TypeRefAtBufferStart | plugin/clang_doxygen.py:214-216 | a type reference at (1, 1) has no previous position, and the loop fails |

## Left out

- `generateDoxygen` (plugin/clang_doxygen.py:254-264) is not modelled: it
  reads the window cursor, inserts a line into the buffer and calls the
  snippet plugin. All of that is editor I/O.
- `initialiseClangDoxygen` (plugin/clang_doxygen.py:267-280) is not
  modelled: it loads and configures libclang, which are foreign calls.
- `Index.create`, `index.parse`, `Cursor.from_location` and
  `SourceLocation.from_position` are not modelled. A given `Tree` and a
  `lookup` function stand in for the parse and the position query. The
  properties libclang guarantees are stated as the preconditions
  `WellFormed` and `LookupInRange`. `WellFormed` asks only for the
  positions the code reads to lie in the buffer:
  - a declaration's name location and extent start;
  - a type reference's extent start;
  - the extent end of a namespace reference or a template type parameter.
  Other cursors may carry any position, among them the translation unit
  with its null location (0, 0).
- `vim.eval` and `vim.current.buffer` become the `Config` and `Lines`
  parameters. `int(vim.eval("&tabstop"))` is the integer
  `Config.tabstop`. The buffer's file name is used only for parsing and in
  the diagnostic text, and is not modelled.
- The two `print` diagnostics become the failures `NoDeclarationFound` and
  `MissingTemplateAnchor`, and their text is not modelled.
- Some runtime errors become failures:
  - A failed position step would raise a `TypeError` in the tuple unpacking at lines 215, 220 and 155-156. It becomes `NoSourceLocation`.
  - An empty line range in `getBufferContent` would raise an `IndexError`. It becomes `EmptyBufferRange`.
- Resolver.Walk: the loop in the source has no bound, and backward and
  forward steps can alternate forever. The model bounds it by a `fuel`
  count and reports `OutOfFuel` when the count is spent. WalkFuelMonotone
  shows that any outcome other than `OutOfFuel` does not depend on the
  bound.
- The printable spelling of a result `TypeKind` is an opaque string carried
  by the node. `VOID` is the one kind the code tests for.
- Handlers.IndentWidth: the code counts the tabs on the line of the
  declaration's name, before the name's column, and combines that count
  with the extent's start column (plugin/clang_doxygen.py:38-43). The
  comment there says the indentation should match the line holding the
  name. For a declaration whose extent starts on an earlier line than its
  name, the tab count and the column then come from different lines. The
  model computes exactly what the code computes.
- Python 2 byte strings are modelled as `seq<char>`. `\s` is the ASCII
  whitespace set.

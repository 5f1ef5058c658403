# intellij-rust core, modelled in Dafny

A model of the language-analysis core of the IntelliJ Rust plugin:

- **Formatter** (`RustSpacing`, `SpacingRules`, `RustFmtBlock`). The plugin decides the
  whitespace between two adjacent blocks with `computeSpacing`, an ordered cascade of custom
  rules that falls back to the spacing builder. The builder chain is written out as data: an
  ordered list of rules with the first match winning. `blockMustBeMultiLine` decides whether a
  `{ ... }` body must be expanded. `countNonWhitespaceASTNodesBetween` is its counting loop.
  `buildChildren` makes the child blocks of a node, with their indent and alignment.
- **Crates** (`Crates`). This covers the crate roots of an IDE module, its extern crates, the
  lookup of a crate by name and the prelude of the standard library.
- **Modules** (`ModuleTree`). A file and an inline `mod` item are both modules. The model
  covers ownership of a directory, the owned directory, crate roots, the canonical name within
  the file, items and module declarations, and the "useful name" of a `mod.rs` file.
- **Type inference** (`TypeInference`). The type of a `self` path expression, and the type a
  path type denotes.

The syntax tree is a list of sibling nodes. Each node has a kind, a text length, and flags
saying whether it holds a line break and whether its first or last leaf is a line break. The
file system, the project index and reference resolution are given as plain values or
functions. `Wrappers` holds `Option` (Kotlin's nullable types) and `Result` (for the one
`requireNotNull` failure). `Seqs` holds Kotlin's `filter`.

Some behaviour of the code is easy to miss. The model follows the code:

- Comments count as children of a block in `blockMustBeMultiLine`. Its doc comment
  (RustSpacing.kt:251-255) speaks of "2 or more statements/expressions", and a comment is
  neither. But `countNonWhitespaceASTNodesBetween` skips only whitespace, so `{ x /* c */ }`
  holds two children (`CommentIsCounted`, illustrated by `CommentCountsAsChild`).
- A named inline module inside an unnamed one still gets a canonical name: its own name part
  with no qualifier, and at any depth the nearest unnamed ancestor cuts the chain
  (`UnnamedAncestorCutsName`). The parent's missing canonical name becomes a
  missing qualifier (RustModItemImplMixin.kt:43-44), not a missing name.
- An `impl` body is not among the item bodies that `blockMustBeMultiLine` expands whenever
  they hold a child (RustSpacing.kt:272-276), although struct, enum, trait and module bodies
  are. `IsItemBody` leaves `ImplBody` out, as the code does.
- The spacing builder may answer nothing, so `ComputeSpacing` returns an `Option`. Totality
  is proved only for the pairs the catch-all rules cover (`KeywordsAndOperatorsAlwaysSpaced`).
- `findExternCrateByName` takes the first match. A package's library therefore shadows a
  standard-library crate of the same name (`PackageShadowsStdlib`).

## Model

| member | source | states |
|---|---|---|
| `SpacingRules.FirstMatchSpec` | src/main/kotlin/org/rust/ide/formatter/RustSpacing.kt:54 | the index found is the first rule whose condition matches; none is found only when no rule matches |
| `SpacingRules.Lookup` | src/main/kotlin/org/rust/ide/formatter/RustSpacing.kt:54 | the directive of the first matching rule, none when no rule matches (by `FirstMatchSpec`) |
| `SpacingRules.RustSpacingRules` | src/main/kotlin/org/rust/ide/formatter/RustSpacing.kt:59-147 | the rule groups of the builder chain, in source order |
| `SpacingRules.SpacingBuilder.ApplyForEach` | src/main/kotlin/org/rust/ide/formatter/RustSpacing.kt:219-226 | the loop appends the rules of the block for each type, in order |
| `SpacingRules.CreateSpacingBuilder` | src/main/kotlin/org/rust/ide/formatter/RustSpacing.kt:47-148 | the builder holds the whole rule chain, group by group, in source order |
| `SpacingRules.LookupAppend` | src/main/kotlin/org/rust/ide/formatter/RustSpacing.kt:54 | in a concatenated chain, an earlier group that answers hides every later rule |
| `SpacingRules.LookupAt` | src/main/kotlin/org/rust/ide/formatter/RustSpacing.kt:54 | the first matching rule decides the directive |
| `SpacingRules.CommaInDeclarationBody` | src/main/kotlin/org/rust/ide/formatter/RustSpacing.kt:59-61 | after a comma in a struct declaration or enum body the answer is `spacing(1,1,1,true,1)`, although the later `after(COMMA)` also matches |
| `SpacingRules.EmptyDelimitersCollapse` | src/main/kotlin/org/rust/ide/formatter/RustSpacing.kt:75-78 | `()`, `[]` and `{}` get no space whatever the parent |
| `SpacingRules.KeywordsAndOperatorsAlwaysSpaced` | src/main/kotlin/org/rust/ide/formatter/RustSpacing.kt:144-147 | every pair touching a keyword or an operator gets some directive |
| `RustSpacing.PrevNonCommentSibling` | src/main/kotlin/org/rust/ide/formatter/RustSpacing.kt:206 | the nearest earlier sibling that is neither whitespace nor a comment, or none when there is none |
| `RustSpacing.NextNonCommentSibling` | src/main/kotlin/org/rust/ide/formatter/RustSpacing.kt:211 | the nearest later sibling that is neither whitespace nor a comment, or none when there is none |
| `RustSpacing.FindSibling` | src/main/kotlin/org/rust/ide/formatter/RustSpacing.kt:260 | the first sibling of the kind at or after the start, or none when there is none |
| `RustSpacing.FindSiblingBackward` | src/main/kotlin/org/rust/ide/formatter/RustSpacing.kt:259 | the last sibling of the kind at or before the start, or none when there is none |
| `RustSpacing.HasLineBreakAfterInSameParent` | src/main/kotlin/org/rust/ide/formatter/RustSpacing.kt:241-242 | the next sibling begins with a line break; false for the last sibling |
| `RustSpacing.HasLineBreakBeforeInSameParent` | src/main/kotlin/org/rust/ide/formatter/RustSpacing.kt:244-245 | the previous sibling ends with a line break; false for the first sibling |
| `RustSpacing.HasWhitespaceAfterIgnoringComments` | src/main/kotlin/org/rust/ide/formatter/RustSpacing.kt:292-295 | the node just before the next code sibling is whitespace holding a line break; false when no code follows |
| `RustSpacing.HasWhitespaceBeforeIgnoringComments` | src/main/kotlin/org/rust/ide/formatter/RustSpacing.kt:297-300 | the node just after the previous code sibling is whitespace holding a line break; false when no code precedes |
| `RustSpacing.OmitCommentBlocks` | src/main/kotlin/org/rust/ide/formatter/RustSpacing.kt:202-215 | a child that is not a comment stands for itself; a comment stands for itself or for a code sibling on its side |
| `RustSpacing.CreateContext` | src/main/kotlin/org/rust/ide/formatter/RustSpacing.kt:187-197 | the context holds the two nodes, their kinds, the parent, and the stand-in nodes `omitCommentBlocks` picks |
| `RustSpacing.OmitCommentBlocksStandIns` | src/main/kotlin/org/rust/ide/formatter/RustSpacing.kt:202-215 | a comment ending its line stands for the previous code sibling, else itself; a comment starting its line stands for the next code sibling, else itself; other nodes are unchanged |
| `RustSpacing.NextNonWhiteSpace` | src/main/kotlin/org/rust/ide/formatter/RustSpacing.kt:286 | the next sibling that is not whitespace, skipping only whitespace |
| `RustSpacing.CountNonWhitespaceNodesBetween` | src/main/kotlin/org/rust/ide/formatter/RustSpacing.kt:281-290 | the loop yields the number of non-whitespace siblings strictly between the two nodes, comments included |
| `RustSpacing.CountedStep` | src/main/kotlin/org/rust/ide/formatter/RustSpacing.kt:285-288 | one turn of the loop keeps its invariant: the count covers every non-whitespace sibling up to the current one, which never passes a reachable right node |
| `RustSpacing.CountedExit` | src/main/kotlin/org/rust/ide/formatter/RustSpacing.kt:289 | when the loop stops, the count less the step onto the right node (or off the end) is the answer |
| `RustSpacing.CountStepFound` | src/main/kotlin/org/rust/ide/formatter/RustSpacing.kt:286-287 | one step of the loop to the next non-whitespace sibling counts exactly that sibling |
| `RustSpacing.CountBound` | src/main/kotlin/org/rust/ide/formatter/RustSpacing.kt:281-290 | the count is at most the number of nodes, and equal exactly when none is whitespace |
| `RustSpacing.AdjacentBracesCountZero` | src/main/kotlin/org/rust/ide/formatter/RustSpacing.kt:281-290 | braces with only whitespace between them hold no children |
| `RustSpacing.CountBetweenBound` | src/main/kotlin/org/rust/ide/formatter/RustSpacing.kt:281-290 | the count between two nodes is at most the distance minus one, and equal exactly when nothing between is whitespace |
| `RustSpacing.CommentIsCounted` | src/main/kotlin/org/rust/ide/formatter/RustSpacing.kt:281-290 | a comment between two nodes is counted as one child, for every sibling list |
| `RustSpacing.LineBreak` | src/main/kotlin/org/rust/ide/formatter/RustSpacing.kt:230-233 | a line break allows from zero to `Int.MAX_VALUE` spaces |
| `RustSpacing.One` | src/main/kotlin/org/rust/ide/formatter/RustSpacing.kt:228 | `one()` is exactly one space and no line feed |
| `RustSpacing.IsTopLevelItem` | src/main/kotlin/org/rust/ide/formatter/RustSpacing.kt:235-236 | an item or attribute directly inside a file |
| `RustSpacing.IsStmtOrExpr` | src/main/kotlin/org/rust/ide/formatter/RustSpacing.kt:238-239 | a statement or an expression |
| `RustSpacing.Braces` | src/main/kotlin/org/rust/ide/formatter/RustSpacing.kt:259-260 | the `{` is the left node if it is one, else the nearest `{` at or before the right node; the `}` is the right node if it is one, else the nearest `}` at or after the left node; none exactly when one of these searches finds nothing |
| `RustSpacing.OneBraceOnItsOwnLine` | src/main/kotlin/org/rust/ide/formatter/RustSpacing.kt:262-266 | when exactly one brace has its line break, the block is expanded whatever the parent |
| `RustSpacing.CodeBlockBody` | src/main/kotlin/org/rust/ide/formatter/RustSpacing.kt:268-271 | a code block is expanded iff it holds two or more children, or one and it is an item's body |
| `RustSpacing.ItemBody` | src/main/kotlin/org/rust/ide/formatter/RustSpacing.kt:272-276 | a struct, enum, trait, module or foreign-module body is expanded iff it holds any child |
| `RustSpacing.OtherBody` | src/main/kotlin/org/rust/ide/formatter/RustSpacing.kt:277 | under any other parent only the brace placement can expand the block |
| `RustSpacing.BlockMustBeMultiLine` | src/main/kotlin/org/rust/ide/formatter/RustSpacing.kt:256-279 | expansion needs a brace among the two children and both braces found (the two early exits); the remaining cases are `OneBraceOnItsOwnLine`, `CodeBlockBody`, `ItemBody` and `OtherBody` |
| `RustSpacing.ComputeSpacing` | src/main/kotlin/org/rust/ide/formatter/RustSpacing.kt:150-175 | without a left child there is no spacing |
| `RustSpacing.AttributeBeforeComment` | src/main/kotlin/org/rust/ide/formatter/RustSpacing.kt:153-154 | an outer attribute before a comment gets exactly `(1,1,0,false,0)`, before every other rule |
| `RustSpacing.CustomSpacing` | src/main/kotlin/org/rust/ide/formatter/RustSpacing.kt:152-172 | every custom answer is a fixed spacing: `one()` or a line break with one line feed |
| `RustSpacing.CustomAnswers` | src/main/kotlin/org/rust/ide/formatter/RustSpacing.kt:150-175 | whenever the cascade's answer differs from the builder's, it is `one()` or a line break with one line feed |
| `RustSpacing.FirstRulesSkip` | src/main/kotlin/org/rust/ide/formatter/RustSpacing.kt:156-161 | after a non-comment child, with no brace on the inner side and no outer attribute before an attribute or inside an item, the attribute-line and block rules are silent |
| `RustSpacing.AttributesOnTheirOwnLines` | src/main/kotlin/org/rust/ide/formatter/RustSpacing.kt:156 | two outer attributes, or an item's outer attribute, get a line break keeping no blank line |
| `RustSpacing.BlockRungForcesLineBreak` | src/main/kotlin/org/rust/ide/formatter/RustSpacing.kt:160-161 | when the attribute rules are silent and the block must be multi-line, the answer is `lineBreak(keepBlankLines = 0)` for any style and builder |
| `RustSpacing.CommentNextToAttribute` | src/main/kotlin/org/rust/ide/formatter/RustSpacing.kt:157-158 | a comment before an outer attribute, or after one with only comments between, gets a line break keeping no blank line |
| `RustSpacing.StatementsKeepCodeBlankLines` | src/main/kotlin/org/rust/ide/formatter/RustSpacing.kt:163-166 | a statement before a statement or expression gets a line break with `KEEP_BLANK_LINES_IN_CODE` |
| `RustSpacing.TopLevelItemsKeepDeclarationBlankLines` | src/main/kotlin/org/rust/ide/formatter/RustSpacing.kt:168-171 | two top-level items get a line break with `KEEP_BLANK_LINES_IN_DECLARATIONS` |
| `RustSpacing.PlainPairsGoToBuilder` | src/main/kotlin/org/rust/ide/formatter/RustSpacing.kt:174 | pairs no custom rule covers are answered by the builder |
| `RustSpacing.EmptyParensCollapse` | src/main/kotlin/org/rust/ide/formatter/RustSpacing.kt:76-77 | `()` and `[]` get no space through the whole cascade, for any style |
| `RustSpacing.CommentLineAfterStatement` | src/main/kotlin/org/rust/ide/formatter/RustSpacing.kt:210-211 | a comment starting its line after a statement is spaced like the code after it |
| `RustSpacing.CommentCountsAsChild` | src/main/kotlin/org/rust/ide/formatter/RustSpacing.kt:285-286 | an illustration of `CommentIsCounted`: in `{ x /* c */ }` the comment is counted, so the block holds two children |
| `RustFmtBlock.AnchorFor` | src/main/kotlin/org/rust/ide/formatter/RustFmtBlock.kt:26-29 | an alignment anchor exists exactly for an argument list |
| `RustFmtBlock.GetChildIndent` | src/main/kotlin/org/rust/ide/formatter/RustFmtBlock.kt:18-21 | normal indent under a block holder, none elsewhere |
| `RustFmtBlock.CalcAlignment` | src/main/kotlin/org/rust/ide/formatter/RustFmtBlock.kt:39-43 | braces and parentheses are never aligned; every other child takes the anchor |
| `RustFmtBlock.CalcIndent` | src/main/kotlin/org/rust/ide/formatter/RustFmtBlock.kt:45-58 | normal indent only under a block holder, and not for block-opening keywords, braces or parentheses (`IndentOfChild`) |
| `RustFmtBlock.BuildChild` | src/main/kotlin/org/rust/ide/formatter/RustFmtBlock.kt:36-37 | a child block carries the child, its `calcAlignment` and `calcIndent`, and no wrap (`AlignmentOfBlocks`, `IndentOfBlocks`) |
| `RustFmtBlock.BuildChildren` | src/main/kotlin/org/rust/ide/formatter/RustFmtBlock.kt:31-37 | one block per kept child, in order, each built with its alignment and indent |
| `RustFmtBlock.IndentOfChild` | src/main/kotlin/org/rust/ide/formatter/RustFmtBlock.kt:45-58 | a child is indented iff its parent's child indent is normal and the child is no block-opening keyword, brace or parenthesis |
| `RustFmtBlock.BlocksAreKeptChildren` | src/main/kotlin/org/rust/ide/formatter/RustFmtBlock.kt:31-33 | the blocks are exactly the non-empty, non-whitespace children |
| `RustFmtBlock.NoChildDropped` | src/main/kotlin/org/rust/ide/formatter/RustFmtBlock.kt:31-33 | without whitespace or empty children every child becomes a block, one for one |
| `RustFmtBlock.BuildChildrenAppend` | src/main/kotlin/org/rust/ide/formatter/RustFmtBlock.kt:31-33 | building children keeps order and treats each child on its own |
| `RustFmtBlock.AlignmentOfBlocks` | src/main/kotlin/org/rust/ide/formatter/RustFmtBlock.kt:36-43 | in an argument list every non-brace child shares the anchor, elsewhere none is aligned; no block is wrapped |
| `RustFmtBlock.IndentOfBlocks` | src/main/kotlin/org/rust/ide/formatter/RustFmtBlock.kt:45-58 | a block is indented iff its parent is a block holder and it is no block-opening keyword, brace or parenthesis |
| `RustFmtBlock.CodeBlockIndents` | src/main/kotlin/org/rust/ide/formatter/RustFmtBlock.kt:71-87 | in a code block the braces stay put and a statement is indented; nothing is indented under a function item |
| `Crates.FindCrate` | src/main/kotlin/org/rust/cargo/util/RustCrateUtil.kt:40 | the first crate with the name, and one is found iff some crate has the name |
| `Crates.FindExternCrateByName` | src/main/kotlin/org/rust/cargo/util/RustCrateUtil.kt:39-42 | the parsed root file of the first visible crate with the name; a result always comes from such a crate, and no crate with the name gives none |
| `Crates.PreludeModule` | src/main/kotlin/org/rust/cargo/util/RustCrateUtil.kt:44-48 | when `std` is found and `../prelude/v1.rs` resolves from its root, that file; no `std` crate gives none, and a result is always that file |
| `Crates.CrateFiles` | src/main/kotlin/org/rust/cargo/util/RustCrateUtil.kt:21 | the files of the standard-library crates, one per crate and in order |
| `Crates.CrateRoots` | src/main/kotlin/org/rust/cargo/util/RustCrateUtil.kt:18-21 | the target files of every package, then the standard-library roots (`CrateRootsMembers`) |
| `Crates.LibCrates` | src/main/kotlin/org/rust/cargo/util/RustCrateUtil.kt:55-56 | one crate per package with a library file, in package order (`LibCratesMembers`) |
| `Crates.ExternCrates` | src/main/kotlin/org/rust/cargo/util/RustCrateUtil.kt:54-57 | the packages' library crates, then the standard-library crates |
| `Crates.LibCratesAppend` | src/main/kotlin/org/rust/cargo/util/RustCrateUtil.kt:54-57 | the extern crates of the packages keep package order, each package on its own |
| `Crates.LibCratesMembers` | src/main/kotlin/org/rust/cargo/util/RustCrateUtil.kt:55-56 | a crate comes from a package with that name and that library file, and each such package gives one |
| `Crates.NoCargoProject` | src/main/kotlin/org/rust/cargo/util/RustCrateUtil.kt:54-57 | without a Cargo project the extern crates and the crate roots are the standard library's |
| `Crates.FindCrateAppend` | src/main/kotlin/org/rust/cargo/util/RustCrateUtil.kt:40 | in a concatenation the first part wins when it holds the name |
| `Crates.PackageShadowsStdlib` | src/main/kotlin/org/rust/cargo/util/RustCrateUtil.kt:39-42 | a package's library is found before a standard-library crate of the same name |
| `Crates.CrateRootsMembers` | src/main/kotlin/org/rust/cargo/util/RustCrateUtil.kt:18-21 | a file is a crate root iff it is a file of some package target or of a standard-library crate |
| `Crates.AppWithStdlib` | src/main/kotlin/org/rust/cargo/util/RustCrateUtil.kt:54-57 | package `app` with library `fileA` and `std`, `core` give exactly `app`, `std`, `core` in that order |
| `ModuleTree.Declarations` | src/main/kotlin/org/rust/lang/core/psi/impl/RustFile.kt:55-56 | the declarations are exactly the item children |
| `ModuleTree.Items` | src/main/kotlin/org/rust/lang/core/psi/impl/mixin/RustModItemImplMixin.kt:23 | the item children, in order |
| `ModuleTree.ModDecls` | src/main/kotlin/org/rust/lang/core/psi/impl/mixin/RustModItemImplMixin.kt:46-47 | the `mod name;` children, in order (`ModDeclsAreItems`) |
| `ModuleTree.OwnsDirectory` | src/main/kotlin/org/rust/lang/core/psi/impl/mixin/RustModItemImplMixin.kt:32 | every inline module owns a directory; a file does when it is `mod.rs` or a crate root (`FileOwnsDirectory`) |
| `ModuleTree.IsCrateRoot` | src/main/kotlin/org/rust/lang/core/psi/impl/mixin/RustModItemImplMixin.kt:39 | an inline module is never a crate root; a file is when it is one of its module's crate roots |
| `ModuleTree.IsCrateRootFile` | src/main/kotlin/org/rust/lang/core/psi/impl/RustFile.kt:42-45 | a file without a virtual file, or outside any IDE module, is no crate root; otherwise it is one exactly when its file is among the module's crate roots (`FileOwnsDirectory`) |
| `ModuleTree.IsTopLevelInFile` | src/main/kotlin/org/rust/lang/core/psi/impl/RustFile.kt:47 | a file is top level, and an inline module is not (RustModItemImplMixin.kt:41; `ModuleFlags`) |
| `ModuleTree.OwnedDirectory` | src/main/kotlin/org/rust/lang/core/psi/impl/mixin/RustModItemImplMixin.kt:34-37 | a named inline module owns the subdirectory of its name in its parent's directory (`OwnedDirectoryIsDescent`) |
| `ModuleTree.CanonicalNameInFile` | src/main/kotlin/org/rust/lang/core/psi/impl/mixin/RustModItemImplMixin.kt:43-44 | a named inline module is named by its name under its parent's name (`CanonicalNameIsPath`) |
| `ModuleTree.Super` | src/main/kotlin/org/rust/lang/core/psi/impl/mixin/RustModItemImplMixin.kt:28-30 | an inline module without an enclosing module is a failure, not a null; otherwise the enclosing module |
| `ModuleTree.UsefulName` | src/main/kotlin/org/rust/lang/core/psi/impl/RustFile.kt:70-75 | the file name always ends the useful name |
| `ModuleTree.ModuleFlags` | src/main/kotlin/org/rust/lang/core/psi/impl/mixin/RustModItemImplMixin.kt:32-41 | an inline module owns a directory and is neither a crate root nor top level; a file is top level |
| `ModuleTree.FileOwnsDirectory` | src/main/kotlin/org/rust/lang/core/psi/impl/RustFile.kt:36-45 | a file owns its directory iff it is `mod.rs` or a target or standard-library root file |
| `ModuleTree.FailsExactlyWhenOrphaned` | src/main/kotlin/org/rust/lang/core/psi/impl/mixin/RustModItemImplMixin.kt:28-44 | the owned directory and the canonical name fail exactly when a named module on the way up has no parent |
| `ModuleTree.UnnamedModule` | src/main/kotlin/org/rust/lang/core/psi/impl/mixin/RustModItemImplMixin.kt:34-44 | an unnamed inline module has no owned directory and no canonical name |
| `ModuleTree.UnnamedAncestorOwnsNoDirectory` | src/main/kotlin/org/rust/lang/core/psi/impl/mixin/RustModItemImplMixin.kt:34-37 | a module below an unnamed inline module, at any depth and with no orphan on the way, owns no directory |
| `ModuleTree.UnnamedAncestorCutsName` | src/main/kotlin/org/rust/lang/core/psi/impl/mixin/RustModItemImplMixin.kt:43-44 | a named module below an unnamed inline module, at any depth, has a canonical name: the nearest unnamed ancestor cuts the chain, so the name lists the named modules below it and has no file module id |
| `ModuleTree.NamedInsideUnnamed` | src/main/kotlin/org/rust/lang/core/psi/impl/mixin/RustModItemImplMixin.kt:43-44 | an illustration of `UnnamedAncestorCutsName`: in `mod a { mod { mod b { mod c {} } } }`, `c` is named `b::c` |
| `ModuleTree.OwnedDirectoryIsDescent` | src/main/kotlin/org/rust/lang/core/psi/impl/mixin/RustModItemImplMixin.kt:34-37 | the owned directory is reached by walking down from the file's directory through the inline module names |
| `ModuleTree.CanonicalNameIsPath` | src/main/kotlin/org/rust/lang/core/psi/impl/mixin/RustModItemImplMixin.kt:43-44 | the canonical name lists the inline module names from the file down, under the file's module id |
| `ModuleTree.ModDeclsAreItems` | src/main/kotlin/org/rust/lang/core/psi/impl/RustFile.kt:52-56 | the declarations are the items, and the module declarations are the items that are module declarations |
| `ModuleTree.UsefulNames` | src/main/kotlin/org/rust/lang/core/psi/impl/RustFile.kt:70-75 | another name is kept; `mod.rs` in `d` becomes `d/mod.rs`; without a directory the name is kept |
| `TypeInference.ResolvedTypeOf` | src/main/kotlin/org/rust/lang/core/type/TypeInference.kt:23-35 | a struct type iff the path and its reference exist and resolve to a struct, which is then its item |
| `TypeInference.InferredType` | src/main/kotlin/org/rust/lang/core/type/TypeInference.kt:7-21 | a known type only for a path resolving to `self` in an `impl` with a type, and then it is that type's resolved type |
| `TypeInference.SelfHasImplType` | src/main/kotlin/org/rust/lang/core/type/TypeInference.kt:12-14 | `self` has the resolved type of its `impl`'s type |
| `TypeInference.SelfWithoutImplType` | src/main/kotlin/org/rust/lang/core/type/TypeInference.kt:14 | `self` outside an `impl`, or in one without a type, is unknown |
| `TypeInference.OnlySelfIsTyped` | src/main/kotlin/org/rust/lang/core/type/TypeInference.kt:16-19 | any other path target, no target, or any other expression is unknown |
| `TypeInference.SelfInsideImplOfPoint` | src/main/kotlin/org/rust/lang/core/type/TypeInference.kt:7-21 | `self` inside `impl Point` is of type `Point`, and unknown outside any `impl` |
| `TypeInference.InferredTypeLocal` | src/main/kotlin/org/rust/lang/core/type/TypeInference.kt:13 | only the `impl` of the resolved declaration matters |

## Left out

- The internals of IntelliJ's `SpacingBuilder`, `Spacing`, `Indent` and `Alignment`. Rules
  keep `spaces(n)` and `spaceIf(b)` unexpanded. A rule's condition is a set of left kinds,
  right kinds and parent kinds.
- `KEYWORDS` is computed from the platform's registry of element types. Here it is a fixed
  set of keyword kinds. The remaining element types of each group are gathered into `Other...`
  kinds.
- The source of `getPrevNonCommentSibling` and `getNextNonCommentSibling` is not among the
  modelled files. `PrevNonCommentSibling` and `NextNonCommentSibling` take them to skip
  whitespace and comments.
- RustSpacing.CountNonWhitespaceNodesBetween: stays within one sibling list.
  `FormatterUtil.getNext` can climb to the parent's next sibling, and that is not modelled.
- RustSpacing.ComputeSpacing: its result is optional, because the builder may answer nothing.
  Totality is proved only for pairs touching keywords and operators.
- The alignment anchor is one value per node. Alignment objects of different nodes are not
  told apart.
- `Module.cargoProjectRoot` and `Module.cargoProject` need the module root manager and
  component lookup. The Cargo project is given as a field of the module instead.
- `standardLibraryCrates` is given, not computed.
- `RustFile.super` needs the project-wide modules index (`RustModulesIndex.getSuperFor`), so
  it is not modelled.
- `RustFile.canonicalNameInFile` depends on `RustModulePath.devise`. The module path is given.
- `innerAttrList`, `getReference` and `getFileType` of `RustFile` are not modelled, and neither
  is `getIcon`.
- `PsiManager.findFile`, `findFileByRelativePath` and `findSubdirectory` are given as
  partial maps.
- `FileUtil.join` is taken to join with `/`.
- Reference resolution (`path.reference.resolve()`) and `parentOfType<RustImplItem>()` are
  passed in as functions.
- The `psiCached` memoization is not modelled. The model's functions are deterministic, so a
  repeated query gives the same answer.
- `RustResolvedTypeBase`, `RustUnknownType` and `RustStructType` are light PSI wrappers. Here
  they are the variants of `ResolvedType`.
- `RustEnumItemImplMixin` (an icon and a list concatenation), the settings listener and the
  documentation test are not part of this model.

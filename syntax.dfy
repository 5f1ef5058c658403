/**
 * The syntax-tree vocabulary of the plugin: element kinds (token and composite element
 * types), the PSI interfaces a kind belongs to, and one node of a sibling list.
 */
module Syntax {

  /** Element types. The names follow the plugin's token and composite element types;
      the `Other...` kinds stand for the remaining members of each group. */
  datatype Kind =
    // whitespace and comments
    | WhiteSpace | EolComment | BlockComment | OuterDocComment | InnerDocComment
    // punctuation
    | Comma | Colon | Semicolon | And | AndAnd | AndEq | Arrow | FatArrow | Div | DivEq | Eq | EqEq
    | ExclEq | Gt | Lt | MinusEq | Mul | MulEq | Or | OrEq | OrOr | PlusEq | Rem | RemEq | Xor | XorEq
    | Minus | Plus | GtGtEq | GtGt | GtEq | LtLtEq | LtLt | LtEq | Excl | Q | Sha
    | LBrack | RBrack | LParen | RParen | LBrace | RBrace | ColonColon | Dot | DotDot
    // other leaves
    | Identifier | Lifetime | OtherToken
    // keywords
    | Fn | Impl | Const | Mut | Pub | Mod | Struct | Enum | Trait | Match | OtherKeyword
    // composite elements
    | File
    | StructDeclArgs | EnumBody | EnumStructArgs | StructExprBody | ImplBody | MatchBody | TraitBody
    | RefType | PtrType | PathType | VecType | TupleType | BareFnType | TypeWithBoundsType | ForInType
    | WildcardType
    | SelfArgument | PatReg | Parameter | Parameters | VariadicParameters | ArgList | ImplMethodMember
    | Path | PatEnum | PatTup | EnumTupleArgs | UseGlobList | GenericParams | GenericArgs
    | OuterAttr | InnerAttr | MetaItem | Block | RetType | WhereClause | BindingMode | Alias
    | EnumVariant | EnumDiscriminant | TypeParamBounds | MatchArm | MacroInvocation | MacroDefinition
    | MacroArg | FormatMacroArgs | TryMacroArgs
    | TryExpr | UnaryExpr | LambdaExpr | ParenExpr | TupleExpr | ArrayExpr | IndexExpr | QualPathExpr
    | CallExpr | PathExpr | OtherExpr
    | ExprStmt | DeclStmt
    | FnItem | StructItem | EnumItem | ImplItem | TraitItem | ModItem | ModDeclItem | ForeignModItem
    | ExternCrateItem | UseItem | ConstItem | StaticItem | TypeItem | OtherItem
    | OtherComposite

  // The PSI interface an element of each kind implements, as far as the formatter asks.

  /** `PsiComment` */
  predicate IsComment(k: Kind) {
    k.EolComment? || k.BlockComment? || k.OuterDocComment? || k.InnerDocComment?
  }

  /** `RustItem` */
  predicate IsItem(k: Kind) {
    || k.FnItem? || k.StructItem? || k.EnumItem? || k.ImplItem? || k.TraitItem? || k.ModItem?
    || k.ModDeclItem? || k.ForeignModItem? || k.ExternCrateItem? || k.UseItem? || k.ConstItem?
    || k.StaticItem? || k.TypeItem? || k.OtherItem?
  }

  /** `RustStmt` */
  predicate IsStmt(k: Kind) {
    k.ExprStmt? || k.DeclStmt?
  }

  /** `RustExpr` */
  predicate IsExpr(k: Kind) {
    || k.TryExpr? || k.UnaryExpr? || k.LambdaExpr? || k.ParenExpr? || k.TupleExpr? || k.ArrayExpr?
    || k.IndexExpr? || k.QualPathExpr? || k.CallExpr? || k.PathExpr? || k.OtherExpr?
  }

  /** `RustAttr` */
  predicate IsAttr(k: Kind) {
    k.OuterAttr? || k.InnerAttr?
  }

  /** The keyword token types (`RustKeywordTokenType`). */
  const Keywords: set<Kind> := {Fn, Impl, Const, Mut, Pub, Mod, Struct, Enum, Trait, Match, OtherKeyword}

  /**
   * One child of a composite node. `startsWithLineBreak` / `endsWithLineBreak` say whether
   * the first / last leaf of a composite child is a whitespace leaf holding a line break.
   */
  datatype Node = Node(kind: Kind, textLength: nat, containsEol: bool,
                       startsWithLineBreak: bool, endsWithLineBreak: bool)

  /** `isWhiteSpaceWithLineBreak` of a whitespace node */
  predicate IsLineBreakWhiteSpace(n: Node) {
    n.kind == WhiteSpace && n.containsEol
  }

  /** The first leaf of `n` is whitespace with a line break. */
  predicate FirstLeafIsLineBreak(n: Node) {
    if n.kind == WhiteSpace then n.containsEol else n.startsWithLineBreak
  }

  /** The last leaf of `n` is whitespace with a line break. */
  predicate LastLeafIsLineBreak(n: Node) {
    if n.kind == WhiteSpace then n.containsEol else n.endsWithLineBreak
  }

  /** A sibling that is neither whitespace nor a comment. */
  predicate IsCode(n: Node) {
    n.kind != WhiteSpace && !IsComment(n.kind)
  }
}

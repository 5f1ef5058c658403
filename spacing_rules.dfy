/**
 * The spacing builder chain of the Rust formatter as data: an ordered list of rules, each a
 * condition on (left kind, right kind, parent kind) and a directive. The first rule whose
 * condition holds decides; rules added earlier have higher priority.
 */
module SpacingRules {
  import opened Wrappers
  import opened Syntax

  /** `Spacing.createSpacing(minSpaces, maxSpaces, minLineFeeds, keepLineBreaks, keepBlankLines)` */
  datatype Spacing = Spacing(minSpaces: int, maxSpaces: int, minLineFeeds: int,
                             keepLineBreaks: bool, keepBlankLines: int)

  /** Kotlin's `Int.MAX_VALUE` */
  const IntMaxValue: int := 0x7fff_ffff

  /** The directive a rule carries: the builder's `spaces(n)` and `spaceIf(b)` stay as they
      were written; `spacing(...)` and the formatter's own spacings are explicit tuples. */
  datatype Directive = Spaces(count: int) | SpaceIf(space: bool) | Fixed(spacing: Spacing)

  /** A directive that allows no space at all. */
  predicate NoSpace(d: Directive) {
    match d
    case Spaces(n) => n == 0
    case SpaceIf(b) => !b
    case Fixed(s) => s.minSpaces == 0 && s.maxSpaces == 0
  }

  /** The builder's rule condition: token sets for the left child, the right child and the
      parent; an absent set accepts every kind. */
  datatype Condition = Condition(left: Option<set<Kind>>, right: Option<set<Kind>>,
                                 parent: Option<set<Kind>>)

  datatype Rule = Rule(condition: Condition, directive: Directive)

  predicate Accepts(s: Option<set<Kind>>, k: Kind) {
    s.None? || k in s.value
  }

  predicate Matches(c: Condition, left: Kind, right: Kind, parent: Kind) {
    Accepts(c.left, left) && Accepts(c.right, right) && Accepts(c.parent, parent)
  }

  /** The index of the first rule that matches, if any. */
  function FirstMatch(rules: seq<Rule>, left: Kind, right: Kind, parent: Kind): (i: Option<nat>)
    ensures i.Some? ==> i.value < |rules|
  {
    if rules == [] then None
    else if Matches(rules[0].condition, left, right, parent) then Some(0)
    else match FirstMatch(rules[1..], left, right, parent)
      case None => None
      case Some(k) => Some(k + 1)
  }

  /** `FirstMatch` finds the first matching rule, and finds none only when no rule matches. */
  lemma {:induction false} FirstMatchSpec(rules: seq<Rule>, left: Kind, right: Kind, parent: Kind)
    ensures var i := FirstMatch(rules, left, right, parent);
      && (i.Some? ==> i.value < |rules| && Matches(rules[i.value].condition, left, right, parent))
      && (i.Some? ==> forall k :: 0 <= k < i.value ==> !Matches(rules[k].condition, left, right, parent))
      && (i.None? ==> forall k :: 0 <= k < |rules| ==> !Matches(rules[k].condition, left, right, parent))
  {
    if rules != [] && !Matches(rules[0].condition, left, right, parent) {
      FirstMatchSpec(rules[1..], left, right, parent);
      var j := FirstMatch(rules[1..], left, right, parent);
      forall k | 0 <= k < (if j.Some? then j.value + 1 else |rules|)
        ensures !Matches(rules[k].condition, left, right, parent)
      {
        if k > 0 { assert rules[k] == rules[1..][k - 1]; }
      }
    }
  }

  /** `SpacingBuilder.getSpacing`: the directive of the first matching rule, or null. */
  function Lookup(rules: seq<Rule>, left: Kind, right: Kind, parent: Kind): Option<Directive> {
    match FirstMatch(rules, left, right, parent)
    case None => None
    case Some(i) => Some(rules[i].directive)
  }

  // The builder's condition constructors. `around(s)` adds an `after(s)` and a `before(s)`
  // rule, `aroundInside(s, p)` an `afterInside(s, p)` and a `beforeInside(s, p)` rule.

  function After(l: set<Kind>, d: Directive): Rule {
    Rule(Condition(Some(l), None, None), d)
  }

  function Before(r: set<Kind>, d: Directive): Rule {
    Rule(Condition(None, Some(r), None), d)
  }

  function Between(l: set<Kind>, r: set<Kind>, d: Directive): Rule {
    Rule(Condition(Some(l), Some(r), None), d)
  }

  function AfterInside(l: set<Kind>, p: set<Kind>, d: Directive): Rule {
    Rule(Condition(Some(l), None, Some(p)), d)
  }

  function BeforeInside(r: set<Kind>, p: set<Kind>, d: Directive): Rule {
    Rule(Condition(None, Some(r), Some(p)), d)
  }

  function BetweenInside(l: set<Kind>, r: set<Kind>, p: set<Kind>, d: Directive): Rule {
    Rule(Condition(Some(l), Some(r), Some(p)), d)
  }

  // Token sets of the spacing rules.

  const NoSpaceAroundOps: set<Kind> := {ColonColon, Dot, DotDot}
  const SpaceAroundOps: set<Kind> :=
    {And, AndAnd, AndEq, Arrow, FatArrow, Div, DivEq, Eq, EqEq, ExclEq, Gt, Lt, MinusEq, Mul, MulEq,
     Or, OrEq, OrOr, PlusEq, Rem, RemEq, Xor, XorEq, Minus, Plus, GtGtEq, GtGt, GtEq, LtLtEq, LtLt, LtEq}
  const UnaryOps: set<Kind> := {Minus, Mul, Excl, And, AndAnd}
  const ParenListHolders: set<Kind> :=
    {ParenExpr, TupleExpr, TupleType, Parameters, VariadicParameters, ArgList, ImplMethodMember,
     BareFnType, Path, PatEnum, PatTup, EnumTupleArgs}
  const BrackListHolders: set<Kind> := {VecType, ArrayExpr, IndexExpr}
  const BraceListHolders: set<Kind> := {UseGlobList}
  const AngleListHolders: set<Kind> := {GenericParams, GenericArgs, QualPathExpr}
  const Attrs: set<Kind> := {OuterAttr, InnerAttr}
  /** BLOCK_LIKE, in the order its members are listed. The platform's own visiting order is
      not modelled; each type's rule matches only that type on the right, so the order
      changes no answer. */
  const BlockLikeOrder: seq<Kind> :=
    [Block, StructDeclArgs, StructExprBody, ImplBody, MatchBody, TraitBody, EnumBody, EnumStructArgs]
  const BlockLike: set<Kind> :=
    {Block, StructDeclArgs, StructExprBody, ImplBody, MatchBody, TraitBody, EnumBody, EnumStructArgs}
  const Types: set<Kind> :=
    {VecType, PtrType, RefType, BareFnType, TupleType, PathType, TypeWithBoundsType, ForInType, WildcardType}
  const MacroArgs: set<Kind> := {MacroArg, FormatMacroArgs, TryMacroArgs}
  const ParamsLike: set<Kind> := {Parameters, VariadicParameters}

  // The chain, in its source order, grouped as the source's comments group it.

  /** some special operators */
  function SpecialOperatorRules(): seq<Rule> {
    [ AfterInside({Comma}, {StructDeclArgs, EnumBody}, Fixed(Spacing(1, 1, 1, true, 1))),
      AfterInside({Comma}, {EnumStructArgs, StructExprBody}, Fixed(Spacing(1, 1, 0, true, 1))),
      After({Comma}, Fixed(Spacing(1, 1, 0, true, 0))),
      Before({Comma}, SpaceIf(false)),
      After({Colon}, SpaceIf(true)),
      Before({Colon}, SpaceIf(false)),
      After({Semicolon}, SpaceIf(true)),
      Before({Semicolon}, SpaceIf(false)),
      AfterInside({And}, {RefType, SelfArgument, PatReg, Parameter}, Spaces(0)),
      BeforeInside({Q}, {TryExpr}, Spaces(0)),
      AfterInside(UnaryOps, {UnaryExpr}, Spaces(0)) ]
  }

  /** attributes: two `aroundInside` rules */
  function AttributeRules(): seq<Rule> {
    [ AfterInside({Sha, Excl, LBrack, RBrack}, Attrs, Spaces(0)),
      BeforeInside({Sha, Excl, LBrack, RBrack}, Attrs, Spaces(0)),
      AfterInside({LParen, RParen}, {MetaItem}, Spaces(0)),
      BeforeInside({LParen, RParen}, {MetaItem}, Spaces(0)) ]
  }

  /** empty parens */
  function EmptyDelimiterRules(): seq<Rule> {
    [ Between({LParen}, {RParen}, SpaceIf(false)),
      Between({LBrack}, {RBrack}, SpaceIf(false)),
      Between({LBrace}, {RBrace}, SpaceIf(false)),
      BetweenInside({Or}, {Or}, {LambdaExpr}, SpaceIf(false)) ]
  }

  /** paren delimited lists; the last two rules are one `aroundInside` */
  function DelimitedListRules(): seq<Rule> {
    [ AfterInside({LParen}, ParenListHolders, Fixed(Spacing(0, 0, 0, true, 0))),
      BeforeInside({RParen}, ParenListHolders, Fixed(Spacing(0, 0, 0, true, 0))),
      AfterInside({LBrack}, BrackListHolders, Fixed(Spacing(0, 0, 0, true, 0))),
      BeforeInside({RBrack}, BrackListHolders, Fixed(Spacing(0, 0, 0, true, 0))),
      AfterInside({LBrace}, BraceListHolders, Fixed(Spacing(0, 0, 0, true, 0))),
      BeforeInside({RBrace}, BraceListHolders, Fixed(Spacing(0, 0, 0, true, 0))),
      AfterInside({Lt}, AngleListHolders, Fixed(Spacing(0, 0, 0, false, 0))),
      BeforeInside({Gt}, AngleListHolders, Fixed(Spacing(0, 0, 0, false, 0))),
      AfterInside({Or}, ParamsLike, Fixed(Spacing(0, 0, 0, false, 0))),
      BeforeInside({Or}, ParamsLike, Fixed(Spacing(0, 0, 0, false, 0))) ]
  }

  /** items, before the `applyForEach` over BLOCK_LIKE */
  function ItemRulesHead(): seq<Rule> {
    [ Between(ParamsLike, {RetType}, Fixed(Spacing(1, 1, 0, true, 0))),
      Before({WhereClause}, Fixed(Spacing(1, 1, 0, true, 0))) ]
  }

  /** the block `applyForEach` runs on each BLOCK_LIKE type: `before(it).spaces(1)` */
  function SpaceBeforeBlock(k: Kind): seq<Rule> {
    [Before({k}, Spaces(1))]
  }

  /** items, after the `applyForEach` */
  function ItemRulesTail(): seq<Rule> {
    [ BeforeInside({LBrace}, {ForeignModItem, ModItem}, Spaces(1)),
      Between({Identifier, Fn}, ParamsLike, SpaceIf(false)),
      Between({Identifier}, {GenericParams}, SpaceIf(false)),
      Between({Identifier}, {GenericArgs}, SpaceIf(false)),
      Between({Identifier}, {ArgList}, SpaceIf(false)),
      Between({GenericParams}, ParamsLike, SpaceIf(false)),
      BeforeInside({ArgList}, {CallExpr}, SpaceIf(false)),
      Between({BindingMode}, {Identifier}, Spaces(1)),
      Between({Impl}, {GenericParams}, Spaces(0)),
      AfterInside({GenericParams}, {ImplItem}, Spaces(1)),
      BetweenInside({GenericParams}, Types, {ImplItem}, Spaces(1)),
      AfterInside({LBrace}, BlockLike, Fixed(Spacing(1, 1, 0, true, 0))),
      BeforeInside({RBrace}, BlockLike, Fixed(Spacing(1, 1, 0, true, 0))),
      BetweenInside({Identifier}, {Alias}, {ExternCrateItem}, Spaces(1)),
      BetweenInside({Identifier}, {EnumTupleArgs}, {EnumVariant}, Spaces(0)),
      BetweenInside({Identifier}, {EnumDiscriminant}, {EnumVariant}, Spaces(1)) ]
  }

  /** types */
  function TypeRules(): seq<Rule> {
    [ AfterInside({Lifetime}, {RefType}, SpaceIf(true)),
      BetweenInside({Mul}, {Const, Mut}, {PtrType}, Spaces(0)),
      Before({TypeParamBounds}, Spaces(0)),
      BeforeInside({LParen}, {Path}, Spaces(0)) ]
  }

  /** expressions */
  function ExpressionRules(): seq<Rule> {
    [ BeforeInside({LParen}, {PatEnum}, Spaces(0)),
      BeforeInside({LBrack}, {IndexExpr}, Spaces(0)),
      AfterInside(ParamsLike, {LambdaExpr}, Fixed(Spacing(1, 1, 0, true, 1))),
      Between({MatchArm}, {MatchArm}, Fixed(Spacing(0, 0, 1, true, 1))) ]
  }

  /** macros */
  function MacroRules(): seq<Rule> {
    [ BetweenInside({Identifier}, {Excl}, {MacroInvocation}, Spaces(0)),
      Between({MacroInvocation}, MacroArgs, Spaces(0)),
      BetweenInside({MacroInvocation}, {Identifier}, {MacroDefinition}, Spaces(1)),
      BetweenInside({Identifier}, {MacroArg}, {MacroDefinition}, Spaces(1)) ]
  }

  /** rules with very large area of application: three `around` rules */
  function WideRules(): seq<Rule> {
    [ After(NoSpaceAroundOps, Spaces(0)), Before(NoSpaceAroundOps, Spaces(0)),
      After(SpaceAroundOps, Spaces(1)), Before(SpaceAroundOps, Spaces(1)),
      After(Keywords, Spaces(1)), Before(Keywords, Spaces(1)) ]
  }

  /** What `applyForEach(types, block)` appends: the rules of `block` for each type in turn. */
  function ForEach(types: seq<Kind>, block: Kind -> seq<Rule>): seq<Rule> {
    if types == [] then [] else ForEach(types[..|types| - 1], block) + block(types[|types| - 1])
  }

  /** The whole chain built by `createSpacingBuilder`. */
  function RustSpacingRules(): seq<Rule> {
    SpecialOperatorRules() + AttributeRules() + EmptyDelimiterRules() + DelimitedListRules()
    + ItemRulesHead() + ForEach(BlockLikeOrder, SpaceBeforeBlock) + ItemRulesTail()
    + TypeRules() + ExpressionRules() + MacroRules() + WideRules()
  }

  /** A `SpacingBuilder`: rules are appended in place; `getSpacing` consults them in order. */
  class SpacingBuilder {
    var rules: seq<Rule>

    constructor ()
      ensures rules == []
    {
      rules := [];
    }

    /** A chain of builder calls appending `more`. */
    method Append(more: seq<Rule>)
      modifies this
      ensures rules == old(rules) + more
    {
      rules := rules + more;
    }

    /** `applyForEach`: run `block` on this builder once per type, in order. */
    method ApplyForEach(types: seq<Kind>, block: Kind -> seq<Rule>)
      modifies this
      ensures rules == old(rules) + ForEach(types, block)
    {
      var i := 0;
      while i < |types|
        invariant 0 <= i <= |types|
        invariant rules == old(rules) + ForEach(types[..i], block)
      {
        assert types[..i + 1][..i] == types[..i];
        rules := rules + block(types[i]);
        i := i + 1;
      }
      assert types[..i] == types;
    }
  }

  /** `createSpacingBuilder`: the chain of builder calls, in source order. */
  method CreateSpacingBuilder() returns (sb: SpacingBuilder)
    ensures fresh(sb)
    ensures sb.rules == RustSpacingRules()
  {
    sb := new SpacingBuilder();
    sb.Append(SpecialOperatorRules());
    assert sb.rules == SpecialOperatorRules();
    sb.Append(AttributeRules());
    sb.Append(EmptyDelimiterRules());
    sb.Append(DelimitedListRules());
    sb.Append(ItemRulesHead());
    sb.ApplyForEach(BlockLikeOrder, SpaceBeforeBlock);
    sb.Append(ItemRulesTail());
    sb.Append(TypeRules());
    sb.Append(ExpressionRules());
    sb.Append(MacroRules());
    sb.Append(WideRules());
  }

  // Properties of first-match lookup.

  /** Looking up in a concatenation: the first list decides when it has a match. */
  lemma {:induction false} LookupAppend(a: seq<Rule>, b: seq<Rule>, left: Kind, right: Kind, parent: Kind)
    ensures Lookup(a + b, left, right, parent) ==
            if Lookup(a, left, right, parent).Some? then Lookup(a, left, right, parent)
            else Lookup(b, left, right, parent)
  {
    if a == [] {
      assert a + b == b;
    } else {
      assert (a + b)[0] == a[0];
      assert (a + b)[1..] == a[1..] + b;
      LookupAppend(a[1..], b, left, right, parent);
    }
  }

  /** When the first list has a match, what follows it is never consulted. */
  lemma LookupPrefix(a: seq<Rule>, b: seq<Rule>, left: Kind, right: Kind, parent: Kind)
    requires Lookup(a, left, right, parent).Some?
    ensures Lookup(a + b, left, right, parent) == Lookup(a, left, right, parent)
  {
    LookupAppend(a, b, left, right, parent);
  }

  /** The rule at `i` decides when it matches and no rule before it does. */
  lemma LookupAt(rules: seq<Rule>, i: nat, left: Kind, right: Kind, parent: Kind)
    requires i < |rules| && Matches(rules[i].condition, left, right, parent)
    requires forall k :: 0 <= k < i ==> !Matches(rules[k].condition, left, right, parent)
    ensures Lookup(rules, left, right, parent) == Some(rules[i].directive)
  {
    FirstMatchSpec(rules, left, right, parent);
  }

  /** A list with a matching rule yields some directive. */
  lemma LookupFound(rules: seq<Rule>, i: nat, left: Kind, right: Kind, parent: Kind)
    requires i < |rules| && Matches(rules[i].condition, left, right, parent)
    ensures Lookup(rules, left, right, parent).Some?
  {
    FirstMatchSpec(rules, left, right, parent);
  }

  /** A list none of whose rules match yields no directive. */
  lemma LookupNone(rules: seq<Rule>, left: Kind, right: Kind, parent: Kind)
    requires forall k :: 0 <= k < |rules| ==> !Matches(rules[k].condition, left, right, parent)
    ensures Lookup(rules, left, right, parent) == None
  {
    FirstMatchSpec(rules, left, right, parent);
  }

  // Properties of the Rust chain.

  /** Earlier rules win: after a comma inside a struct declaration or an enum body, one
      space and one line feed, although the later catch-all `after(COMMA)` also matches. */
  lemma CommaInDeclarationBody(right: Kind, parent: Kind)
    requires parent in {StructDeclArgs, EnumBody}
    ensures Lookup(RustSpacingRules(), Comma, right, parent) == Some(Fixed(Spacing(1, 1, 1, true, 1)))
    ensures Matches(SpecialOperatorRules()[2].condition, Comma, right, parent)
  {
    CommaFirstRule(right, parent);
    FirstThreeGroups(Comma, right, parent);
    ChainDecidedBy3(Comma, right, parent);
  }

  lemma CommaFirstRule(right: Kind, parent: Kind)
    requires parent in {StructDeclArgs, EnumBody}
    ensures Lookup(SpecialOperatorRules(), Comma, right, parent) == Some(Fixed(Spacing(1, 1, 1, true, 1)))
  {
    LookupAt(SpecialOperatorRules(), 0, Comma, right, parent);
  }

  /** Empty delimiter pairs `()`, `[]` and `{}` get no space between them, whatever the
      parent: only the attribute rules come first, and they also say zero spaces. */
  lemma EmptyDelimitersCollapse(open: Kind, close: Kind, parent: Kind)
    requires (open, close) in {(LParen, RParen), (LBrack, RBrack), (LBrace, RBrace)}
    ensures Lookup(RustSpacingRules(), open, close, parent).Some?
    ensures NoSpace(Lookup(RustSpacingRules(), open, close, parent).value)
  {
    SpecialRulesIgnoreEmptyDelimiters(open, close, parent);
    AttributeRulesOnEmptyDelimiters(open, close, parent);
    EmptyDelimiterRulesOnEmptyDelimiters(open, close, parent);
    FirstThreeGroups(open, close, parent);
    ChainDecidedBy3(open, close, parent);
  }

  lemma SpecialRulesIgnoreEmptyDelimiters(open: Kind, close: Kind, parent: Kind)
    requires (open, close) in {(LParen, RParen), (LBrack, RBrack), (LBrace, RBrace)}
    ensures Lookup(SpecialOperatorRules(), open, close, parent) == None
  {
    LookupNone(SpecialOperatorRules(), open, close, parent);
  }

  lemma AttributeRulesOnEmptyDelimiters(open: Kind, close: Kind, parent: Kind)
    requires (open, close) in {(LParen, RParen), (LBrack, RBrack), (LBrace, RBrace)}
    ensures Lookup(AttributeRules(), open, close, parent) in {None, Some(Spaces(0))}
  {
    if open == LParen {
      EmptyParensInAttributes(open, close, parent);
    } else if open == LBrack {
      EmptyBracketsInAttributes(open, close, parent);
    } else {
      LookupNone(AttributeRules(), open, close, parent);
    }
  }

  lemma EmptyDelimiterRulesOnEmptyDelimiters(open: Kind, close: Kind, parent: Kind)
    requires (open, close) in {(LParen, RParen), (LBrack, RBrack), (LBrace, RBrace)}
    ensures Lookup(EmptyDelimiterRules(), open, close, parent) == Some(SpaceIf(false))
  {
    var e := EmptyDelimiterRules();
    if open == LParen {
      LookupAt(e, 0, open, close, parent);
    } else if open == LBrack {
      LookupAt(e, 1, open, close, parent);
    } else {
      LookupAt(e, 2, open, close, parent);
    }
  }

  /** How the first three groups of the chain combine. */
  lemma FirstThreeGroups(left: Kind, right: Kind, parent: Kind)
    ensures Lookup(SpecialOperatorRules() + AttributeRules() + EmptyDelimiterRules(), left, right, parent)
         == if Lookup(SpecialOperatorRules(), left, right, parent).Some? then Lookup(SpecialOperatorRules(), left, right, parent)
            else if Lookup(AttributeRules(), left, right, parent).Some? then Lookup(AttributeRules(), left, right, parent)
            else Lookup(EmptyDelimiterRules(), left, right, parent)
  {
    var s, a, e := SpecialOperatorRules(), AttributeRules(), EmptyDelimiterRules();
    LookupAppend(s, a, left, right, parent);
    LookupAppend(s + a, e, left, right, parent);
  }

  /** `()` inside a meta item is decided by the attribute rules, elsewhere not. */
  lemma EmptyParensInAttributes(open: Kind, close: Kind, parent: Kind)
    requires open == LParen && close == RParen
    ensures Lookup(AttributeRules(), open, close, parent) == if parent == MetaItem then Some(Spaces(0)) else None
  {
    var a := AttributeRules();
    if parent == MetaItem {
      LookupAt(a, 2, open, close, parent);
    } else {
      LookupNone(a, open, close, parent);
    }
  }

  /** `[]` inside an attribute is decided by the attribute rules, elsewhere not. */
  lemma EmptyBracketsInAttributes(open: Kind, close: Kind, parent: Kind)
    requires open == LBrack && close == RBrack
    ensures Lookup(AttributeRules(), open, close, parent) == if parent in Attrs then Some(Spaces(0)) else None
  {
    var a := AttributeRules();
    if parent in Attrs {
      LookupAt(a, 0, open, close, parent);
    } else {
      LookupNone(a, open, close, parent);
    }
  }

  /** Once the first three groups of the chain answer, the chain gives their answer. */
  lemma ChainDecidedBy3(left: Kind, right: Kind, parent: Kind)
    requires Lookup(SpecialOperatorRules() + AttributeRules() + EmptyDelimiterRules(), left, right, parent).Some?
    ensures Lookup(RustSpacingRules(), left, right, parent)
         == Lookup(SpecialOperatorRules() + AttributeRules() + EmptyDelimiterRules(), left, right, parent)
  {
    var p := SpecialOperatorRules() + AttributeRules() + EmptyDelimiterRules();
    LookupPrefix(p, DelimitedListRules(), left, right, parent);
    p := p + DelimitedListRules();
    LookupPrefix(p, ItemRulesHead(), left, right, parent);
    p := p + ItemRulesHead();
    LookupPrefix(p, ForEach(BlockLikeOrder, SpaceBeforeBlock), left, right, parent);
    p := p + ForEach(BlockLikeOrder, SpaceBeforeBlock);
    LookupPrefix(p, ItemRulesTail(), left, right, parent);
    p := p + ItemRulesTail();
    LookupPrefix(p, TypeRules(), left, right, parent);
    p := p + TypeRules();
    LookupPrefix(p, ExpressionRules(), left, right, parent);
    p := p + ExpressionRules();
    LookupPrefix(p, MacroRules(), left, right, parent);
    p := p + MacroRules();
    LookupPrefix(p, WideRules(), left, right, parent);
  }

  /** The catch-all rules make the chain answer for every pair that touches a keyword or a
      spaced operator. */
  lemma KeywordsAndOperatorsAlwaysSpaced(left: Kind, right: Kind, parent: Kind)
    requires left in Keywords + SpaceAroundOps + NoSpaceAroundOps || right in Keywords + SpaceAroundOps + NoSpaceAroundOps
    ensures Lookup(RustSpacingRules(), left, right, parent).Some?
  {
    WideRulesAnswer(left, right, parent);
    var p := SpecialOperatorRules() + AttributeRules() + EmptyDelimiterRules() + DelimitedListRules()
      + ItemRulesHead() + ForEach(BlockLikeOrder, SpaceBeforeBlock) + ItemRulesTail()
      + TypeRules() + ExpressionRules() + MacroRules();
    LookupAppend(p, WideRules(), left, right, parent);
  }

  /** The last group answers every pair that touches a keyword or a spaced operator. */
  lemma WideRulesAnswer(left: Kind, right: Kind, parent: Kind)
    requires left in Keywords + SpaceAroundOps + NoSpaceAroundOps || right in Keywords + SpaceAroundOps + NoSpaceAroundOps
    ensures Lookup(WideRules(), left, right, parent).Some?
  {
    var w := WideRules();
    if left in NoSpaceAroundOps {
      LookupFound(w, 0, left, right, parent);
    } else if right in NoSpaceAroundOps {
      LookupFound(w, 1, left, right, parent);
    } else if left in SpaceAroundOps {
      LookupFound(w, 2, left, right, parent);
    } else if right in SpaceAroundOps {
      LookupFound(w, 3, left, right, parent);
    } else if left in Keywords {
      LookupFound(w, 4, left, right, parent);
    } else {
      LookupFound(w, 5, left, right, parent);
    }
  }
}

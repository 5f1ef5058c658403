/**
 * The custom part of the Rust formatter's spacing decision: the ordered cascade of
 * `computeSpacing`, the comment-skipping sibling context it works on, the test of whether a
 * `{ ... }` body must be laid out on several lines, and the sibling-counting loop behind it.
 *
 * The two adjacent blocks are given as indices into the list of their common parent's
 * children; `parent` is that parent's kind and `grandparent` the kind of its parent, if any.
 */
module RustSpacing {
  import opened Wrappers
  import opened Syntax
  import opened SpacingRules

  datatype Siblings = Siblings(nodes: seq<Node>, parent: Kind, grandparent: Option<Kind>)

  // Sibling navigation.

  /** `getPrevNonCommentSibling`: the nearest earlier sibling that is neither whitespace nor a comment. */
  function PrevNonCommentSibling(nodes: seq<Node>, k: nat): (r: Option<nat>)
    requires k <= |nodes|
    ensures r.Some? ==> r.value < k && IsCode(nodes[r.value])
    ensures r.Some? ==> forall t :: r.value < t < k ==> !IsCode(nodes[t])
    ensures r.None? ==> forall t :: 0 <= t < k ==> !IsCode(nodes[t])
  {
    if k == 0 then None
    else if IsCode(nodes[k - 1]) then Some(k - 1)
    else PrevNonCommentSibling(nodes, k - 1)
  }

  /** `getNextNonCommentSibling`: the nearest later sibling that is neither whitespace nor a comment. */
  function NextNonCommentSibling(nodes: seq<Node>, k: nat): (r: Option<nat>)
    requires k < |nodes|
    ensures r.Some? ==> k < r.value < |nodes| && IsCode(nodes[r.value])
    ensures r.Some? ==> forall t :: k < t < r.value ==> !IsCode(nodes[t])
    ensures r.None? ==> forall t :: k < t < |nodes| ==> !IsCode(nodes[t])
    decreases |nodes| - k
  {
    if k + 1 == |nodes| then None
    else if IsCode(nodes[k + 1]) then Some(k + 1)
    else NextNonCommentSibling(nodes, k + 1)
  }

  /** `TreeUtil.findSibling`: the first node of kind `t` at or after `k`. */
  function FindSibling(nodes: seq<Node>, k: nat, t: Kind): (r: Option<nat>)
    requires k <= |nodes|
    ensures r.Some? ==> k <= r.value < |nodes| && nodes[r.value].kind == t
    ensures r.Some? ==> forall m :: k <= m < r.value ==> nodes[m].kind != t
    ensures r.None? ==> forall m :: k <= m < |nodes| ==> nodes[m].kind != t
    decreases |nodes| - k
  {
    if k == |nodes| then None
    else if nodes[k].kind == t then Some(k)
    else FindSibling(nodes, k + 1, t)
  }

  /** `TreeUtil.findSiblingBackward`: the last node of kind `t` at or before `k`. */
  function FindSiblingBackward(nodes: seq<Node>, k: nat, t: Kind): (r: Option<nat>)
    requires k < |nodes|
    ensures r.Some? ==> r.value <= k && nodes[r.value].kind == t
    ensures r.Some? ==> forall m :: r.value < m <= k ==> nodes[m].kind != t
    ensures r.None? ==> forall m :: 0 <= m <= k ==> nodes[m].kind != t
  {
    if nodes[k].kind == t then Some(k)
    else if k == 0 then None
    else FindSiblingBackward(nodes, k - 1, t)
  }

  /** `hasLineBreakAfterInSameParent`: the next sibling starts with a line break. */
  predicate HasLineBreakAfterInSameParent(nodes: seq<Node>, k: nat)
    requires k < |nodes|
  {
    k + 1 < |nodes| && FirstLeafIsLineBreak(nodes[k + 1])
  }

  /** `hasLineBreakBeforeInSameParent`: the previous sibling ends with a line break. */
  predicate HasLineBreakBeforeInSameParent(nodes: seq<Node>, k: nat)
    requires k < |nodes|
  {
    k > 0 && LastLeafIsLineBreak(nodes[k - 1])
  }

  /** `hasWhitespaceAfterIgnoringComments`: the node just before the next non-comment sibling
      is whitespace holding a line break. */
  predicate HasWhitespaceAfterIgnoringComments(nodes: seq<Node>, k: nat)
    requires k < |nodes|
  {
    match NextNonCommentSibling(nodes, k)
    case None => false
    case Some(m) => IsLineBreakWhiteSpace(nodes[m - 1])
  }

  /** `hasWhitespaceBeforeIgnoringComments`: the node just after the previous non-comment
      sibling is whitespace holding a line break. */
  predicate HasWhitespaceBeforeIgnoringComments(nodes: seq<Node>, k: nat)
    requires k < |nodes|
  {
    match PrevNonCommentSibling(nodes, k)
    case None => false
    case Some(m) => IsLineBreakWhiteSpace(nodes[m + 1])
  }

  // The spacing context.

  /** `SpacingContext`: the two nodes, their kinds, their parent's kind, and the nodes that
      stand for them once comment blocks are skipped. */
  datatype SpacingContext = SpacingContext(node1: nat, node2: nat, elementType1: Kind, elementType2: Kind,
                                           parent: Kind, ncNode1: nat, ncNode2: nat)

  /** `omitCommentBlocks`: a comment on the left that ends its line stands for the code before
      it, and a comment on the right that starts its line stands for the code after it. */
  function OmitCommentBlocks(nodes: seq<Node>, i: nat, j: nat): (nc: (nat, nat))
    requires i < |nodes| && j < |nodes|
    ensures nc.0 < |nodes| && nc.1 < |nodes|
    // a child that is not a comment stands for itself; a comment stands for itself or for
    // a code sibling on its side (`OmitCommentBlocksStandIns` says which)
    ensures !IsComment(nodes[i].kind) ==> nc.0 == i
    ensures !IsComment(nodes[j].kind) ==> nc.1 == j
    ensures nc.0 == i || (nc.0 < i && IsCode(nodes[nc.0]))
    ensures nc.1 == j || (j < nc.1 && IsCode(nodes[nc.1]))
  {
    (if IsComment(nodes[i].kind) && HasLineBreakAfterInSameParent(nodes, i)
     then PrevNonCommentSibling(nodes, i).GetOr(i) else i,
     if IsComment(nodes[j].kind) && HasLineBreakBeforeInSameParent(nodes, j)
     then NextNonCommentSibling(nodes, j).GetOr(j) else j)
  }

  /** `SpacingContext.create` */
  function CreateContext(sib: Siblings, i: nat, j: nat): (ctx: SpacingContext)
    requires i < |sib.nodes| && j < |sib.nodes|
    ensures ValidContext(sib, ctx) && ctx.node1 == i && ctx.node2 == j
    ensures (ctx.ncNode1, ctx.ncNode2) == OmitCommentBlocks(sib.nodes, i, j)
  {
    var nc := OmitCommentBlocks(sib.nodes, i, j);
    SpacingContext(i, j, sib.nodes[i].kind, sib.nodes[j].kind, sib.parent, nc.0, nc.1)
  }

  /** What `SpacingContext.create` guarantees about a context. */
  predicate ValidContext(sib: Siblings, ctx: SpacingContext) {
    && ctx.node1 < |sib.nodes| && ctx.node2 < |sib.nodes|
    && ctx.ncNode1 < |sib.nodes| && ctx.ncNode2 < |sib.nodes|
    && ctx.elementType1 == sib.nodes[ctx.node1].kind && ctx.elementType2 == sib.nodes[ctx.node2].kind
    && ctx.parent == sib.parent
  }

  // Counting the children of a block.

  /** The number of nodes in `s` that are not whitespace; comments count. */
  function NonWhiteSpaceCount(s: seq<Node>): nat {
    if s == [] then 0 else (if s[0].kind == WhiteSpace then 0 else 1) + NonWhiteSpaceCount(s[1..])
  }

  /** What `countNonWhitespaceASTNodesBetween(left, right)` answers within one sibling list:
      -1 for the same node; the nodes strictly between when `right` is reachable (later and
      not whitespace); otherwise every non-whitespace node after `left`. */
  function NodesBetweenCount(nodes: seq<Node>, left: nat, right: nat): int
    requires left < |nodes| && right < |nodes|
  {
    if left == right then -1
    else if left < right && nodes[right].kind != WhiteSpace then NonWhiteSpaceCount(nodes[left + 1..right])
    else NonWhiteSpaceCount(nodes[left + 1..])
  }

  /** `FormatterUtil.getNext(k, WHITE_SPACE)` within the sibling list: the next sibling that is
      not whitespace. */
  function NextNonWhiteSpace(nodes: seq<Node>, k: nat): (r: Option<nat>)
    requires k < |nodes|
    ensures r.Some? ==> k < r.value < |nodes| && nodes[r.value].kind != WhiteSpace
    ensures r.Some? ==> forall t :: k < t < r.value ==> nodes[t].kind == WhiteSpace
    ensures r.None? ==> forall t :: k < t < |nodes| ==> nodes[t].kind == WhiteSpace
    decreases |nodes| - k
  {
    if k + 1 == |nodes| then None
    else if nodes[k + 1].kind != WhiteSpace then Some(k + 1)
    else NextNonWhiteSpace(nodes, k + 1)
  }

  /** `countNonWhitespaceASTNodesBetween`: step from `left` over the non-whitespace siblings
      until `right` is met or the list ends, counting the steps, then subtract one. */
  method CountNonWhitespaceNodesBetween(nodes: seq<Node>, left: nat, right: nat) returns (n: int)
    requires left < |nodes| && right < |nodes|
    ensures n == NodesBetweenCount(nodes, left, right)
  {
    var count := 0;
    var next: Option<nat> := Some(left);
    while next.Some? && next.value != right
      invariant Counted(nodes, left, right, next, count)
      decreases if next.Some? then |nodes| + 1 - next.value else 0
    {
      CountedStep(nodes, left, right, next.value, count);
      next := NextNonWhiteSpace(nodes, next.value);
      count := count + 1;
    }
    CountedExit(nodes, left, right, next, count);
    // the last step reached `right` itself, or ran past the end
    n := count - 1;
  }

  /** The loop's invariant: `count` steps have reached `next`, counting every non-whitespace
      node after `left` up to `next`; `next` never passes a reachable `right`; once the list
      is exhausted, the count holds every non-whitespace node after `left`, plus the step off
      the end. */
  ghost predicate Counted(nodes: seq<Node>, left: nat, right: nat, next: Option<nat>, count: int)
    requires left < |nodes| && right < |nodes|
  {
    && (next.Some? ==>
          && left <= next.value < |nodes|
          && count == NonWhiteSpaceCount(nodes[left + 1..next.value + 1])
          && (left < right && nodes[right].kind != WhiteSpace ==> next.value <= right)
          && (next.value != left ==> nodes[next.value].kind != WhiteSpace))
    && (left == right ==> next == Some(left))
    && (next.None? ==>
          && count == NonWhiteSpaceCount(nodes[left + 1..]) + 1
          && !(left < right && nodes[right].kind != WhiteSpace))
  }

  /** One turn of the loop keeps the invariant. */
  lemma CountedStep(nodes: seq<Node>, left: nat, right: nat, k: nat, count: int)
    requires left < |nodes| && right < |nodes|
    requires Counted(nodes, left, right, Some(k), count) && k != right
    ensures Counted(nodes, left, right, NextNonWhiteSpace(nodes, k), count + 1)
  {
    var next := NextNonWhiteSpace(nodes, k);
    if next.Some? {
      var m := next.value;
      CountStepFound(nodes, left, k, m);
      // a reachable `right` lies beyond `k`, and nothing between `k` and `m` is reachable
      assert left < right && nodes[right].kind != WhiteSpace ==> m <= right;
    } else {
      CountStepEnd(nodes, left, k);
      assert !(left < right && nodes[right].kind != WhiteSpace);
    }
  }

  /** When the loop stops, the count less the final step is the answer. */
  lemma CountedExit(nodes: seq<Node>, left: nat, right: nat, next: Option<nat>, count: int)
    requires left < |nodes| && right < |nodes|
    requires Counted(nodes, left, right, next, count) && !(next.Some? && next.value != right)
    ensures count - 1 == NodesBetweenCount(nodes, left, right)
  {
    if next.Some? && left < right {
      CountSplit(nodes, left + 1, right, right + 1);
      CountOne(nodes, right);
    }
  }

  /** One step of the counting loop moves the count past exactly one non-whitespace node. */
  lemma CountStepFound(nodes: seq<Node>, left: nat, k: nat, m: nat)
    requires left <= k < m < |nodes| && nodes[m].kind != WhiteSpace
    requires forall t :: k < t < m ==> nodes[t].kind == WhiteSpace
    ensures NonWhiteSpaceCount(nodes[left + 1..m + 1]) == NonWhiteSpaceCount(nodes[left + 1..k + 1]) + 1
  {
    CountSplit(nodes, left + 1, k + 1, m);
    CountSplit(nodes, left + 1, m, m + 1);
    WhiteSpaceRunCount(nodes, k + 1, m);
    CountOne(nodes, m);
  }

  lemma CountStepEnd(nodes: seq<Node>, left: nat, k: nat)
    requires left <= k < |nodes|
    requires forall t :: k < t < |nodes| ==> nodes[t].kind == WhiteSpace
    ensures NonWhiteSpaceCount(nodes[left + 1..]) == NonWhiteSpaceCount(nodes[left + 1..k + 1])
  {
    CountSplit(nodes, left + 1, k + 1, |nodes|);
    WhiteSpaceRunCount(nodes, k + 1, |nodes|);
    assert nodes[left + 1..|nodes|] == nodes[left + 1..];
  }

  /** One node counts one unless it is whitespace. */
  lemma CountOne(nodes: seq<Node>, m: nat)
    requires m < |nodes|
    ensures NonWhiteSpaceCount(nodes[m..m + 1]) == if nodes[m].kind == WhiteSpace then 0 else 1
  {
    assert nodes[m..m + 1] == [nodes[m]];
    assert [nodes[m]][1..] == [];
  }

  /** A run of whitespace counts nothing. */
  lemma WhiteSpaceRunCount(nodes: seq<Node>, a: nat, b: nat)
    requires a <= b <= |nodes|
    requires forall t :: a <= t < b ==> nodes[t].kind == WhiteSpace
    ensures NonWhiteSpaceCount(nodes[a..b]) == 0
  {
    AllWhiteSpaceCount(nodes[a..b]);
  }

  /** Counting is additive over adjacent slices. */
  lemma {:induction false} CountSplit(nodes: seq<Node>, a: nat, b: nat, c: nat)
    requires a <= b <= c <= |nodes|
    ensures NonWhiteSpaceCount(nodes[a..c]) == NonWhiteSpaceCount(nodes[a..b]) + NonWhiteSpaceCount(nodes[b..c])
    decreases b - a
  {
    if a < b {
      assert nodes[a..c][1..] == nodes[a + 1..c];
      assert nodes[a..b][1..] == nodes[a + 1..b];
      CountSplit(nodes, a + 1, b, c);
    }
  }

  /** Only whitespace: nothing to count. */
  lemma {:induction false} AllWhiteSpaceCount(s: seq<Node>)
    requires forall t :: 0 <= t < |s| ==> s[t].kind == WhiteSpace
    ensures NonWhiteSpaceCount(s) == 0
  {
    if s != [] {
      AllWhiteSpaceCount(s[1..]);
    }
  }

  /** The count never exceeds the number of nodes. */
  lemma {:induction false} CountBound(s: seq<Node>)
    ensures NonWhiteSpaceCount(s) <= |s|
    ensures NonWhiteSpaceCount(s) == |s| <==> forall t :: 0 <= t < |s| ==> s[t].kind != WhiteSpace
  {
    if s != [] {
      CountBound(s[1..]);
      if NonWhiteSpaceCount(s) == |s| {
        forall t | 0 <= t < |s| ensures s[t].kind != WhiteSpace {
          if t > 0 { assert s[t] == s[1..][t - 1]; }
        }
      }
    }
  }

  // Spacing results.

  /** `one()`: exactly one space, no line feed, no kept line breaks. */
  function One(): Spacing {
    Spacing(1, 1, 0, false, 0)
  }

  /** `lineBreak(minLineFeeds = 1, keepLineBreaks = true, keepBlankLines = 1)` */
  function LineBreak(minLineFeeds: int := 1, keepLineBreaks: bool := true, keepBlankLines: int := 1): (s: Spacing)
    ensures s.minSpaces == 0 && s.maxSpaces == IntMaxValue
    ensures s.minLineFeeds == minLineFeeds && s.keepLineBreaks == keepLineBreaks && s.keepBlankLines == keepBlankLines
  {
    Spacing(0, IntMaxValue, minLineFeeds, keepLineBreaks, keepBlankLines)
  }

  /** The common code-style settings the cascade reads. */
  datatype CodeStyle = CodeStyle(keepLineBreaks: bool, keepBlankLinesInCode: int,
                                 keepBlankLinesInDeclarations: int)

  /** `isTopLevelItem`: an item or an attribute directly in a file. */
  predicate IsTopLevelItem(sib: Siblings, k: nat)
    requires k < |sib.nodes|
  {
    (IsItem(sib.nodes[k].kind) || IsAttr(sib.nodes[k].kind)) && sib.parent == File
  }

  /** `isStmtOrExpr` */
  predicate IsStmtOrExpr(k: Kind) {
    IsStmt(k) || IsExpr(k)
  }

  /** The braces `blockMustBeMultiLine` looks at: the left node if it is `{`, else the nearest
      `{` at or before the right node; the right node if it is `}`, else the nearest `}` at or
      after the left node. None unless both are found. */
  function Braces(sib: Siblings, ctx: SpacingContext): (b: Option<(nat, nat)>)
    requires ValidContext(sib, ctx)
    ensures b.Some? ==> b.value.0 < |sib.nodes| && sib.nodes[b.value.0].kind == LBrace
    ensures b.Some? ==> b.value.1 < |sib.nodes| && sib.nodes[b.value.1].kind == RBrace
    // which `{`: the left node itself, else the nearest one at or before the right node
    ensures b.Some? && ctx.elementType1 == LBrace ==> b.value.0 == ctx.node1
    ensures b.Some? && ctx.elementType1 != LBrace ==>
      b.value.0 <= ctx.node2 && forall m :: b.value.0 < m <= ctx.node2 ==> sib.nodes[m].kind != LBrace
    // which `}`: the right node itself, else the nearest one at or after the left node
    ensures b.Some? && ctx.elementType2 == RBrace ==> b.value.1 == ctx.node2
    ensures b.Some? && ctx.elementType2 != RBrace ==>
      ctx.node1 <= b.value.1 && forall m :: ctx.node1 <= m < b.value.1 ==> sib.nodes[m].kind != RBrace
    // none exactly when a search finds nothing
    ensures b.None? <==>
      || (ctx.elementType1 != LBrace && forall m :: 0 <= m <= ctx.node2 ==> sib.nodes[m].kind != LBrace)
      || (ctx.elementType2 != RBrace && forall m :: ctx.node1 <= m < |sib.nodes| ==> sib.nodes[m].kind != RBrace)
  {
    var lbrace := if ctx.elementType1 == LBrace then Some(ctx.node1)
                  else FindSiblingBackward(sib.nodes, ctx.node2, LBrace);
    var rbrace := if ctx.elementType2 == RBrace then Some(ctx.node2)
                  else FindSibling(sib.nodes, ctx.node1, RBrace);
    if lbrace.None? || rbrace.None? then None else Some((lbrace.value, rbrace.value))
  }

  /** Parents whose non-empty body is always expanded. */
  predicate IsItemBody(k: Kind) {
    k.StructDeclArgs? || k.EnumBody? || k.TraitBody? || k.ModItem? || k.ForeignModItem?
  }

  /** What the parent demands of a body whose braces agree, given the count between them. */
  predicate ParentDemandsMultiLine(parent: Kind, grandparent: Option<Kind>, childrenCount: int) {
    if parent == Block then
      childrenCount != 0 && (childrenCount >= 2 || (grandparent.Some? && IsItem(grandparent.value)))
    else if IsItemBody(parent) then childrenCount != 0
    else false
  }

  /** The test once both braces are found: their line breaks disagree, or the parent demands it. */
  predicate BracesDemandMultiLine(sib: Siblings, lbrace: nat, rbrace: nat)
    requires lbrace < |sib.nodes| && rbrace < |sib.nodes|
  {
    var lbraceIsNewline := HasWhitespaceAfterIgnoringComments(sib.nodes, lbrace);
    var rbraceIsNewline := HasWhitespaceBeforeIgnoringComments(sib.nodes, rbrace);
    lbraceIsNewline != rbraceIsNewline
    || ParentDemandsMultiLine(sib.parent, sib.grandparent, NodesBetweenCount(sib.nodes, lbrace, rbrace))
  }

  /**
   * `blockMustBeMultiLine`: a `{ ... }` body is expanded when exactly one of its braces is
   * followed (resp. preceded) by a line break, when a code block holds two or more
   * children (or one, as an item's body), and when an item body holds any child.
   */
  predicate BlockMustBeMultiLine(sib: Siblings, ctx: SpacingContext)
    requires ValidContext(sib, ctx)
    ensures BlockMustBeMultiLine(sib, ctx) ==>
      (ctx.elementType1 == LBrace || ctx.elementType2 == RBrace) && Braces(sib, ctx).Some?
  {
    if ctx.elementType1 != LBrace && ctx.elementType2 != RBrace then false
    else match Braces(sib, ctx)
      case None => false
      case Some((lbrace, rbrace)) => BracesDemandMultiLine(sib, lbrace, rbrace)
  }

  // The cascade.

  /** The two adjacent children are given as indices into the sibling list. */
  predicate ValidChildren(sib: Siblings, child1: Option<nat>, child2: nat) {
    child2 < |sib.nodes| && (child1.Some? ==> child1.value < |sib.nodes|)
  }

  /** `psi1 is RustOuterAttr && (psi2 is RustOuterAttr || psi1.parent is RustItem) || psi1 is
      PsiComment && (psi2 is RustOuterAttr || psi1.getPrevNonCommentSibling() is RustOuterAttr)` */
  predicate AttributeLineRule(sib: Siblings, ctx: SpacingContext)
    requires ValidContext(sib, ctx)
  {
    || (ctx.elementType1 == OuterAttr && (ctx.elementType2 == OuterAttr || IsItem(ctx.parent)))
    || (IsComment(ctx.elementType1)
        && (ctx.elementType2 == OuterAttr
            || (var p := PrevNonCommentSibling(sib.nodes, ctx.node1); p.Some? && sib.nodes[p.value].kind == OuterAttr)))
  }

  /**
   * The `when` of `computeSpacing`, on the context of two children: the custom rules in order
   * (attribute before comment; attribute lines; blocks that must be multi-line; statements;
   * top-level items). None when no custom rule applies.
   */
  function CustomSpacing(sib: Siblings, ctx: SpacingContext, style: CodeStyle): (r: Option<Directive>)
    requires ValidContext(sib, ctx)
    ensures r.Some? ==> r.value.Fixed?
    ensures r.Some? ==> r.value.spacing == One()
                        || (r.value.spacing.minSpaces == 0 && r.value.spacing.maxSpaces == IntMaxValue
                            && r.value.spacing.minLineFeeds == 1)
  {
    if ctx.elementType1 == OuterAttr && IsComment(ctx.elementType2) then
      Some(Fixed(One()))
    else if AttributeLineRule(sib, ctx) then
      Some(Fixed(LineBreak(keepBlankLines := 0)))
    else if BlockMustBeMultiLine(sib, ctx) then
      Some(Fixed(LineBreak(keepBlankLines := 0)))
    else if IsStmt(sib.nodes[ctx.ncNode1].kind) && IsStmtOrExpr(sib.nodes[ctx.ncNode2].kind) then
      Some(Fixed(LineBreak(keepLineBreaks := style.keepLineBreaks, keepBlankLines := style.keepBlankLinesInCode)))
    else if IsTopLevelItem(sib, ctx.ncNode1) && IsTopLevelItem(sib, ctx.ncNode2) then
      Some(Fixed(LineBreak(keepLineBreaks := style.keepLineBreaks,
                           keepBlankLines := style.keepBlankLinesInDeclarations)))
    else
      None
  }

  /**
   * `computeSpacing`: the custom rules on the context of the two children, else the builder's
   * answer. The builder answers nothing when there is no left child.
   */
  function ComputeSpacing(sib: Siblings, child1: Option<nat>, child2: nat, style: CodeStyle, rules: seq<Rule>): (r: Option<Directive>)
    requires ValidChildren(sib, child1, child2)
    ensures child1.None? ==> r.None?
  {
    if child1.None? then None
    else
      var custom := CustomSpacing(sib, CreateContext(sib, child1.value, child2), style);
      if custom.Some? then custom
      else Lookup(rules, sib.nodes[child1.value].kind, sib.nodes[child2].kind, sib.parent)
  }

  /** Two children neither of which is a comment stand for themselves. */
  lemma CodeContext(sib: Siblings, i: nat, j: nat)
    requires i < |sib.nodes| && j < |sib.nodes|
    requires !IsComment(sib.nodes[i].kind) && !IsComment(sib.nodes[j].kind)
    ensures CreateContext(sib, i, j) == SpacingContext(i, j, sib.nodes[i].kind, sib.nodes[j].kind, sib.parent, i, j)
  {
  }

  // Properties of the sibling context.

  /** Which node stands for each child once comment blocks are skipped. */
  lemma OmitCommentBlocksStandIns(nodes: seq<Node>, i: nat, j: nat)
    requires i < |nodes| && j < |nodes|
    ensures var nc := OmitCommentBlocks(nodes, i, j);
      && (!(IsComment(nodes[i].kind) && HasLineBreakAfterInSameParent(nodes, i)) ==> nc.0 == i)
      && (IsComment(nodes[i].kind) && HasLineBreakAfterInSameParent(nodes, i) ==>
            if exists t :: 0 <= t < i && IsCode(nodes[t])
            then nc.0 < i && IsCode(nodes[nc.0]) && forall t :: nc.0 < t < i ==> !IsCode(nodes[t])
            else nc.0 == i)
      && (!(IsComment(nodes[j].kind) && HasLineBreakBeforeInSameParent(nodes, j)) ==> nc.1 == j)
      && (IsComment(nodes[j].kind) && HasLineBreakBeforeInSameParent(nodes, j) ==>
            if exists t :: j < t < |nodes| && IsCode(nodes[t])
            then j < nc.1 && IsCode(nodes[nc.1]) && forall t :: j < t < nc.1 ==> !IsCode(nodes[t])
            else nc.1 == j)
  {
  }

  // Properties of the count.

  /** Braces with only whitespace between them hold no children. */
  lemma AdjacentBracesCountZero(nodes: seq<Node>, lbrace: nat, rbrace: nat)
    requires lbrace < rbrace < |nodes| && nodes[rbrace].kind == RBrace
    requires forall t :: lbrace < t < rbrace ==> nodes[t].kind == WhiteSpace
    ensures NodesBetweenCount(nodes, lbrace, rbrace) == 0
  {
    AllWhiteSpaceCount(nodes[lbrace + 1..rbrace]);
  }

  /** Between two nodes, the count is at most the number of nodes strictly between them, and
      it is that number exactly when none of them is whitespace. */
  lemma CountBetweenBound(nodes: seq<Node>, left: nat, right: nat)
    requires left < right < |nodes| && nodes[right].kind != WhiteSpace
    ensures 0 <= NodesBetweenCount(nodes, left, right) <= right - left - 1
    ensures NodesBetweenCount(nodes, left, right) == right - left - 1
            <==> forall t :: left < t < right ==> nodes[t].kind != WhiteSpace
  {
    var s := nodes[left + 1..right];
    CountBound(s);
    if forall t :: 0 <= t < |s| ==> s[t].kind != WhiteSpace {
      forall t | left < t < right ensures nodes[t].kind != WhiteSpace {
        assert nodes[t] == s[t - left - 1];
      }
    }
  }

  // Properties of `blockMustBeMultiLine`.

  /** Exactly one brace on a line of its own: multi-line, whatever the parent. */
  lemma OneBraceOnItsOwnLine(sib: Siblings, ctx: SpacingContext, lbrace: nat, rbrace: nat)
    requires ValidContext(sib, ctx)
    requires ctx.elementType1 == LBrace || ctx.elementType2 == RBrace
    requires Braces(sib, ctx) == Some((lbrace, rbrace))
    requires HasWhitespaceAfterIgnoringComments(sib.nodes, lbrace) != HasWhitespaceBeforeIgnoringComments(sib.nodes, rbrace)
    ensures BlockMustBeMultiLine(sib, ctx)
  {
  }

  /** Once both braces are found, the braces and the count between them decide. */
  lemma BracesDecide(sib: Siblings, ctx: SpacingContext, lbrace: nat, rbrace: nat)
    requires ValidContext(sib, ctx)
    requires ctx.elementType1 == LBrace || ctx.elementType2 == RBrace
    requires Braces(sib, ctx) == Some((lbrace, rbrace)) && lbrace < rbrace
    ensures BlockMustBeMultiLine(sib, ctx) == BracesDemandMultiLine(sib, lbrace, rbrace)
    ensures NodesBetweenCount(sib.nodes, lbrace, rbrace) == NonWhiteSpaceCount(sib.nodes[lbrace + 1..rbrace])
  {
  }

  /** A code block whose braces agree: multi-line iff it holds two or more non-whitespace
      children, or exactly one and the block is an item's body. */
  lemma CodeBlockBody(sib: Siblings, ctx: SpacingContext, lbrace: nat, rbrace: nat)
    requires ValidContext(sib, ctx) && ctx.parent == Block
    requires ctx.elementType1 == LBrace || ctx.elementType2 == RBrace
    requires Braces(sib, ctx) == Some((lbrace, rbrace)) && lbrace < rbrace
    requires HasWhitespaceAfterIgnoringComments(sib.nodes, lbrace) == HasWhitespaceBeforeIgnoringComments(sib.nodes, rbrace)
    ensures var c := NonWhiteSpaceCount(sib.nodes[lbrace + 1..rbrace]);
      BlockMustBeMultiLine(sib, ctx)
      <==> c >= 2 || (c == 1 && sib.grandparent.Some? && IsItem(sib.grandparent.value))
  {
    BracesDecide(sib, ctx, lbrace, rbrace);
  }

  /** A struct, enum, trait, module or foreign module body whose braces agree: multi-line iff
      it holds any non-whitespace child. */
  lemma ItemBody(sib: Siblings, ctx: SpacingContext, lbrace: nat, rbrace: nat)
    requires ValidContext(sib, ctx) && IsItemBody(ctx.parent)
    requires ctx.elementType1 == LBrace || ctx.elementType2 == RBrace
    requires Braces(sib, ctx) == Some((lbrace, rbrace)) && lbrace < rbrace
    requires HasWhitespaceAfterIgnoringComments(sib.nodes, lbrace) == HasWhitespaceBeforeIgnoringComments(sib.nodes, rbrace)
    ensures BlockMustBeMultiLine(sib, ctx) <==> NonWhiteSpaceCount(sib.nodes[lbrace + 1..rbrace]) > 0
  {
    BracesDecide(sib, ctx, lbrace, rbrace);
  }

  /** Under any other parent only the brace placement can demand several lines. */
  lemma OtherBody(sib: Siblings, ctx: SpacingContext, lbrace: nat, rbrace: nat)
    requires ValidContext(sib, ctx) && ctx.parent != Block && !IsItemBody(ctx.parent)
    requires Braces(sib, ctx) == Some((lbrace, rbrace))
    ensures BlockMustBeMultiLine(sib, ctx)
      <==> (ctx.elementType1 == LBrace || ctx.elementType2 == RBrace)
           && HasWhitespaceAfterIgnoringComments(sib.nodes, lbrace) != HasWhitespaceBeforeIgnoringComments(sib.nodes, rbrace)
  {
  }

  // Properties of the cascade.

  /** An outer attribute followed by a comment: exactly one space and no line feed. This rule
      is tried first, so neither the style nor the builder matters. */
  lemma AttributeBeforeComment(sib: Siblings, i: nat, j: nat, style: CodeStyle, rules: seq<Rule>)
    requires i < |sib.nodes| && j < |sib.nodes|
    requires sib.nodes[i].kind == OuterAttr && IsComment(sib.nodes[j].kind)
    ensures ComputeSpacing(sib, Some(i), j, style, rules) == Some(Fixed(Spacing(1, 1, 0, false, 0)))
  {
  }

  /** Every answer that is not the builder's is `one()` or a line break with at least one line
      feed and any number of spaces. */
  lemma CustomAnswers(sib: Siblings, i: nat, j: nat, style: CodeStyle, rules: seq<Rule>)
    requires i < |sib.nodes| && j < |sib.nodes|
    requires ComputeSpacing(sib, Some(i), j, style, rules) != Lookup(rules, sib.nodes[i].kind, sib.nodes[j].kind, sib.parent)
    ensures var r := ComputeSpacing(sib, Some(i), j, style, rules);
      r.Some? && r.value.Fixed?
      && (r.value.spacing == One()
          || (r.value.spacing.minSpaces == 0 && r.value.spacing.maxSpaces == IntMaxValue
              && r.value.spacing.minLineFeeds == 1))
  {
  }

  /** A statement followed by a statement or an expression, in any parent: a line break that
      keeps the blank lines allowed in code. */
  lemma StatementsKeepCodeBlankLines(sib: Siblings, i: nat, j: nat, style: CodeStyle, rules: seq<Rule>)
    requires i < |sib.nodes| && j < |sib.nodes|
    requires IsStmt(sib.nodes[i].kind) && IsStmtOrExpr(sib.nodes[j].kind)
    ensures ComputeSpacing(sib, Some(i), j, style, rules)
         == Some(Fixed(Spacing(0, IntMaxValue, 1, style.keepLineBreaks, style.keepBlankLinesInCode)))
  {
    CodeContext(sib, i, j);
    FirstRulesSkip(sib, CreateContext(sib, i, j));
  }

  /** Two items or attributes directly in a file, other than two outer attributes: a line
      break that keeps the blank lines allowed between declarations. */
  lemma TopLevelItemsKeepDeclarationBlankLines(sib: Siblings, i: nat, j: nat, style: CodeStyle, rules: seq<Rule>)
    requires i < |sib.nodes| && j < |sib.nodes| && sib.parent == File
    requires IsItem(sib.nodes[i].kind) || IsAttr(sib.nodes[i].kind)
    requires IsItem(sib.nodes[j].kind) || IsAttr(sib.nodes[j].kind)
    requires !(sib.nodes[i].kind == OuterAttr && sib.nodes[j].kind == OuterAttr)
    ensures ComputeSpacing(sib, Some(i), j, style, rules)
         == Some(Fixed(Spacing(0, IntMaxValue, 1, style.keepLineBreaks, style.keepBlankLinesInDeclarations)))
  {
    TopLevelKind(sib.nodes[i].kind);
    TopLevelKind(sib.nodes[j].kind);
    CodeContext(sib, i, j);
    FirstRulesSkip(sib, CreateContext(sib, i, j));
  }

  /** After a left child that is not a comment, with no brace on the inner side and no outer
      attribute before an attribute or inside an item, the attribute and block rules are silent. */
  lemma FirstRulesSkip(sib: Siblings, ctx: SpacingContext)
    requires ValidContext(sib, ctx)
    requires !IsComment(ctx.elementType1)
    requires ctx.elementType1 != LBrace && ctx.elementType2 != RBrace
    requires ctx.elementType1 == OuterAttr ==> ctx.elementType2 != OuterAttr && !IsItem(ctx.parent)
    ensures !AttributeLineRule(sib, ctx) && !BlockMustBeMultiLine(sib, ctx)
  {
  }

  /** An item or attribute is neither a comment, a brace nor a statement. */
  lemma TopLevelKind(k: Kind)
    requires IsItem(k) || IsAttr(k)
    ensures !IsComment(k) && !k.LBrace? && !k.RBrace? && !IsStmt(k)
  {
  }

  /** Two outer attributes in a row, or an outer attribute of an item: a line break that keeps
      no blank line, whatever the style. */
  lemma AttributesOnTheirOwnLines(sib: Siblings, i: nat, j: nat, style: CodeStyle, rules: seq<Rule>)
    requires i < |sib.nodes| && j < |sib.nodes|
    requires sib.nodes[i].kind == OuterAttr && !IsComment(sib.nodes[j].kind)
    requires sib.nodes[j].kind == OuterAttr || IsItem(sib.parent)
    ensures ComputeSpacing(sib, Some(i), j, style, rules) == Some(Fixed(Spacing(0, IntMaxValue, 1, true, 0)))
  {
  }

  /** A comment before an outer attribute, or a comment whose previous code sibling is an
      outer attribute: a line break that keeps no blank line, whatever the style. */
  lemma CommentNextToAttribute(sib: Siblings, i: nat, j: nat, style: CodeStyle, rules: seq<Rule>)
    requires i < |sib.nodes| && j < |sib.nodes|
    requires IsComment(sib.nodes[i].kind)
    requires || sib.nodes[j].kind == OuterAttr
             || (var p := PrevNonCommentSibling(sib.nodes, i); p.Some? && sib.nodes[p.value].kind == OuterAttr)
    ensures ComputeSpacing(sib, Some(i), j, style, rules) == Some(Fixed(Spacing(0, IntMaxValue, 1, true, 0)))
  {
  }

  /** When the attribute rules are silent and the block around the two children must be
      multi-line, the answer is a line break that keeps no blank line, whatever the style and
      the builder. */
  lemma BlockRungForcesLineBreak(sib: Siblings, i: nat, j: nat, style: CodeStyle, rules: seq<Rule>)
    requires i < |sib.nodes| && j < |sib.nodes|
    requires !(sib.nodes[i].kind == OuterAttr && IsComment(sib.nodes[j].kind))
    requires !AttributeLineRule(sib, CreateContext(sib, i, j))
    requires BlockMustBeMultiLine(sib, CreateContext(sib, i, j))
    ensures ComputeSpacing(sib, Some(i), j, style, rules) == Some(Fixed(Spacing(0, IntMaxValue, 1, true, 0)))
  {
  }

  /** When the left child is neither a comment, an outer attribute, an opening brace nor a
      statement, the right child is neither a comment nor a closing brace, and the two are
      not both top-level items, the builder decides. */
  lemma PlainPairsGoToBuilder(sib: Siblings, i: nat, j: nat, style: CodeStyle, rules: seq<Rule>)
    requires i < |sib.nodes| && j < |sib.nodes|
    requires var k1, k2 := sib.nodes[i].kind, sib.nodes[j].kind;
      && !IsComment(k1) && k1 != OuterAttr && k1 != LBrace && !IsStmt(k1)
      && !IsComment(k2) && k2 != RBrace
      && !(sib.parent == File && (IsItem(k1) || IsAttr(k1)) && (IsItem(k2) || IsAttr(k2)))
    ensures ComputeSpacing(sib, Some(i), j, style, rules) == Lookup(rules, sib.nodes[i].kind, sib.nodes[j].kind, sib.parent)
  {
    CodeContext(sib, i, j);
    FirstRulesSkip(sib, CreateContext(sib, i, j));
  }

  /** `()` and `[]` with nothing but whitespace between them get no space, in any parent and
      for any style. */
  lemma EmptyParensCollapse(sib: Siblings, i: nat, j: nat, style: CodeStyle)
    requires i < |sib.nodes| && j < |sib.nodes|
    requires (sib.nodes[i].kind, sib.nodes[j].kind) in {(LParen, RParen), (LBrack, RBrack)}
    ensures ComputeSpacing(sib, Some(i), j, style, RustSpacingRules()).Some?
    ensures NoSpace(ComputeSpacing(sib, Some(i), j, style, RustSpacingRules()).value)
  {
    PlainPairsGoToBuilder(sib, i, j, style, RustSpacingRules());
    EmptyDelimitersCollapse(sib.nodes[i].kind, sib.nodes[j].kind, sib.parent);
  }

  /** A statement, then a comment that starts its line: the comment stands for the next code
      sibling, so a statement or expression there gives the line break of two statements. */
  lemma CommentLineAfterStatement(sib: Siblings, i: nat, j: nat, style: CodeStyle, rules: seq<Rule>)
    requires i < |sib.nodes| && j < |sib.nodes|
    requires IsStmt(sib.nodes[i].kind) && IsComment(sib.nodes[j].kind)
    requires HasLineBreakBeforeInSameParent(sib.nodes, j)
    requires var m := NextNonCommentSibling(sib.nodes, j); m.Some? && IsStmtOrExpr(sib.nodes[m.value].kind)
    ensures ComputeSpacing(sib, Some(i), j, style, rules)
         == Some(Fixed(Spacing(0, IntMaxValue, 1, style.keepLineBreaks, style.keepBlankLinesInCode)))
  {
    var ctx := CreateContext(sib, i, j);
    assert ctx.ncNode1 == i && ctx.ncNode2 == NextNonCommentSibling(sib.nodes, j).value;
    FirstRulesSkip(sib, ctx);
  }

  function Token(k: Kind): Node {
    Node(k, 1, false, false, false)
  }

  function Space(eol: bool): Node {
    Node(WhiteSpace, 1, eol, eol, eol)
  }

  /** A comment between two nodes counts as one child: the count between them is the count
      before the comment, plus one, plus the count after it. */
  lemma CommentIsCounted(nodes: seq<Node>, left: nat, k: nat, right: nat)
    requires left < k < right < |nodes| && nodes[right].kind != WhiteSpace
    requires IsComment(nodes[k].kind)
    ensures NodesBetweenCount(nodes, left, right)
         == NonWhiteSpaceCount(nodes[left + 1..k]) + 1 + NonWhiteSpaceCount(nodes[k + 1..right])
  {
    CountSplit(nodes, left + 1, k, right);
    CountSplit(nodes, k, k + 1, right);
    CountOne(nodes, k);
  }

  /** Between the braces of `{ x /* note */ }` lie two children, the comment included, while
      `{ x }` holds one. */
  lemma CommentCountsAsChild()
    ensures NonWhiteSpaceCount([Space(false), Token(ExprStmt), Space(false)]) == 1
    ensures NonWhiteSpaceCount([Space(false), Token(ExprStmt), Space(false), Token(BlockComment), Space(false)]) == 2
  {
    var s := [Space(false), Token(ExprStmt), Space(false), Token(BlockComment), Space(false)];
    assert NonWhiteSpaceCount(s[4..]) == 0;
    assert NonWhiteSpaceCount(s[3..]) == 1 by { assert s[3..][1..] == s[4..]; }
    assert NonWhiteSpaceCount(s[2..]) == 1 by { assert s[2..][1..] == s[3..]; }
    assert NonWhiteSpaceCount(s[1..]) == 2 by { assert s[1..][1..] == s[2..]; }
    assert s[1..3] == [Token(ExprStmt), Space(false)];
    assert NonWhiteSpaceCount([Token(ExprStmt), Space(false)]) == 1;
  }
}

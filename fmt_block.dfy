/**
 * The child blocks the Rust formatter builds for one node: which children become blocks, and
 * the indent, alignment and wrap each of them gets.
 */
module RustFmtBlock {
  import opened Wrappers
  import opened Syntax
  import opened Seqs

  /** `Indent.getNormalIndent()` and `Indent.getNoneIndent()` */
  datatype Indent = NormalIndent | NoneIndent

  /** The one alignment anchor `Alignment.createAlignment()` makes for a node's children. */
  datatype Alignment = SharedAnchor

  /** The formatter never wraps; a wrap is never built. */
  datatype Wrap = Wrap

  /** A child block: the child node with its alignment, indent and wrap. */
  datatype FmtBlock = FmtBlock(node: Node, alignment: Option<Alignment>, indent: Indent, wrap: Option<Wrap>)

  /** Keywords that open a block: such a child of a block holder is not indented. */
  const BlockStartTokens: set<Kind> := {Pub, Mod, Struct, Enum, Impl, Trait, Match}

  /** Holders whose children are indented one level. */
  const BlocksTokens: set<Kind> :=
    {Block, ModItem, EnumBody, StructDeclArgs, ArgList, StructExprBody, EnumStructArgs, ImplBody,
     MatchBody, TraitBody}

  /** Braces and parentheses. */
  const BracesTokens: set<Kind> := {LBrace, RBrace, LParen, RParen}

  /** `getChildIndent`: the indent of a child added later under a node of kind `k`. */
  function GetChildIndent(k: Kind): Indent {
    if k in BlocksTokens then NormalIndent else NoneIndent
  }

  /** The anchor `buildChildren` creates for a node of kind `k`: only argument lists get one. */
  function AnchorFor(k: Kind): (a: Option<Alignment>)
    ensures a.Some? <==> k == ArgList
  {
    if k == ArgList then Some(SharedAnchor) else None
  }

  /** `calcAlignment` */
  function CalcAlignment(child: Kind, anchor: Option<Alignment>): Option<Alignment> {
    if child in BracesTokens then None else anchor
  }

  /** `calcIndent` */
  function CalcIndent(parent: Kind, child: Kind): Indent {
    if parent in BlocksTokens then
      if child in BlockStartTokens || child in BracesTokens then NoneIndent else NormalIndent
    else NoneIndent
  }

  /** The children `buildChildren` keeps: not empty and not whitespace. */
  predicate IsBlockChild(n: Node) {
    n.textLength > 0 && n.kind != WhiteSpace
  }

  /** `buildChild` */
  function BuildChild(parent: Kind, child: Node, anchor: Option<Alignment>): FmtBlock {
    FmtBlock(child, CalcAlignment(child.kind, anchor), CalcIndent(parent, child.kind), None)
  }

  /** `buildChildren`: one block per kept child, in order. */
  function BuildChildren(parent: Kind, children: seq<Node>): (blocks: seq<FmtBlock>)
    ensures |blocks| == |Filter(children, IsBlockChild)|
    ensures forall i :: 0 <= i < |blocks| ==> blocks[i].node == Filter(children, IsBlockChild)[i]
    ensures forall i :: 0 <= i < |blocks| ==> blocks[i] == BuildChild(parent, blocks[i].node, AnchorFor(parent))
  {
    var anchor := AnchorFor(parent);
    var kept := Filter(children, IsBlockChild);
    seq(|kept|, i requires 0 <= i < |kept| => BuildChild(parent, kept[i], anchor))
  }

  // Properties.

  /** A child gets the normal indent exactly when its parent indents its children and the
      child is neither a block-opening keyword nor a brace or parenthesis. */
  lemma IndentOfChild(parent: Kind, child: Kind)
    ensures CalcIndent(parent, child) == NormalIndent
        <==> GetChildIndent(parent) == NormalIndent && child !in BlockStartTokens + BracesTokens
  {
  }

  /** The blocks are exactly the non-empty, non-whitespace children, in order, and each of
      them is a child: nothing is invented, nothing dropped except whitespace and empty nodes. */
  lemma BlocksAreKeptChildren(parent: Kind, children: seq<Node>)
    ensures var blocks := BuildChildren(parent, children);
      && (forall i :: 0 <= i < |blocks| ==> blocks[i].node in children && IsBlockChild(blocks[i].node))
      && (forall n :: n in children && IsBlockChild(n) ==> exists i :: 0 <= i < |blocks| && blocks[i].node == n)
  {
    var blocks := BuildChildren(parent, children);
    var kept := Filter(children, IsBlockChild);
    forall n | n in children && IsBlockChild(n)
      ensures exists i :: 0 <= i < |blocks| && blocks[i].node == n
    {
      FilterKeeps(children, IsBlockChild, n);
      var i :| 0 <= i < |kept| && kept[i] == n;
      assert blocks[i].node == n;
    }
  }

  /** Children without whitespace or empty nodes all become blocks, one for one. */
  lemma NoChildDropped(parent: Kind, children: seq<Node>)
    requires forall n :: n in children ==> IsBlockChild(n)
    ensures var blocks := BuildChildren(parent, children);
      |blocks| == |children| && forall i :: 0 <= i < |blocks| ==> blocks[i].node == children[i]
  {
    FilterAllKept(children, IsBlockChild);
  }

  /** Building the children of a concatenation builds those of each part. */
  lemma BuildChildrenAppend(parent: Kind, a: seq<Node>, b: seq<Node>)
    ensures BuildChildren(parent, a + b) == BuildChildren(parent, a) + BuildChildren(parent, b)
  {
    FilterAppend(a, b, IsBlockChild);
  }

  /** Alignment: in an argument list every child but braces and parentheses shares the one
      anchor; under any other node no child is aligned. No block is ever wrapped. */
  lemma AlignmentOfBlocks(parent: Kind, children: seq<Node>)
    ensures var blocks := BuildChildren(parent, children);
      forall i :: 0 <= i < |blocks| ==>
        && blocks[i].wrap == None
        && (blocks[i].alignment == Some(SharedAnchor)
            <==> parent == ArgList && blocks[i].node.kind !in BracesTokens)
  {
  }

  /** Indent of the blocks: normal exactly for the children of a block holder that are not
      block-opening keywords, braces or parentheses. */
  lemma IndentOfBlocks(parent: Kind, children: seq<Node>)
    ensures var blocks := BuildChildren(parent, children);
      forall i :: 0 <= i < |blocks| ==>
        (blocks[i].indent == NormalIndent
         <==> parent in BlocksTokens && blocks[i].node.kind !in BlockStartTokens + BracesTokens)
  {
  }

  /** In a code block, the braces stay at the block's own indent while a statement between
      them is indented. */
  lemma CodeBlockIndents()
    ensures CalcIndent(Block, LBrace) == NoneIndent && CalcIndent(Block, RBrace) == NoneIndent
    ensures CalcIndent(Block, ExprStmt) == NormalIndent
    ensures CalcIndent(FnItem, ExprStmt) == NoneIndent
  {
  }
}

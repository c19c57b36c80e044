/** ValueAnchorNode: a fixed node that other nodes use as their Anchor or Guard
    input to stay below a point of the control flow. It computes no value and
    emits no code. */
module ValueAnchor {
  import opened Virtualizer

  /** The anchor as canonical sees it: how many nodes use it. */
  datatype AnchorNode = AnchorNode(usageCount: nat)

  /** The canonicalizer as canonical sees it: whether every usage is visible
      (CanonicalizerTool.allUsagesAvailable). */
  datatype CanonicalizerTool = CanonicalizerTool(allUsagesAvailable: bool)

  /** The input types a ValueAnchorNode may be used through. */
  datatype InputType = Anchor | Guard | Value | Memory

  /** What a node declares about itself to the graph optimizations. */
  datatype NodeTraits = NodeTraits(
    /** NodeWithIdentity: two equal-looking nodes are still different nodes */
    hasIdentity: bool,
    /** ControlFlowAnchored: the node may not be duplicated into several paths */
    controlFlowAnchored: bool,
    /** the stamp is not void */
    producesValue: bool,
    allowedUsageTypes: set<InputType>)

  const AnchorTraits := NodeTraits(true, false, false, {Anchor, Guard})

  /** Global value numbering may merge two structurally equal nodes only when
      they have no identity. */
  predicate MayDeduplicate(t: NodeTraits) {
    !t.hasIdentity
  }

  /** Duplication (for instance into the paths after a merge) is allowed unless
      the node is anchored to its control-flow position. */
  predicate MayDuplicate(t: NodeTraits) {
    !t.controlFlowAnchored
  }

  /** The anchor is never de-duplicated, may be duplicated, has a void stamp, and
      is used only as an Anchor or Guard input. */
  lemma AnchorHasIdentity()
    ensures !MayDeduplicate(AnchorTraits) && MayDuplicate(AnchorTraits)
    ensures !AnchorTraits.producesValue
    ensures AnchorTraits.allowedUsageTypes == {Anchor, Guard}
  {
  }

  /** One de-duplication step of global value numbering on two structurally equal
      nodes with traits t: when t allows it they become one node that carries the
      usages of both, otherwise both stay as they are. */
  function Deduplicate(t: NodeTraits, first: AnchorNode, second: AnchorNode): (kept: seq<AnchorNode>)
    ensures |kept| == 1 <==> MayDeduplicate(t)
    ensures |kept| == 1 ==> kept[0].usageCount == first.usageCount + second.usageCount
    ensures |kept| != 1 ==> kept == [first, second]
  {
    if MayDeduplicate(t) then [AnchorNode(first.usageCount + second.usageCount)] else [first, second]
  }

  /** Two anchors are never merged, however equal they look: each keeps its own
      position and its own usages. */
  lemma AnchorsNeverMerged(first: AnchorNode, second: AnchorNode)
    ensures Deduplicate(AnchorTraits, first, second) == [first, second]
  {
  }

  /** canonical's answer: null (the node is removed) or the node itself. */
  datatype Canonical = Removed | Unchanged

  /** ValueAnchorNode.canonical. */
  function CanonicalOf(node: AnchorNode, tool: CanonicalizerTool): (r: Canonical)
    ensures r == Removed <==> tool.allUsagesAvailable && node.usageCount == 0
    ensures r == Unchanged <==> !tool.allUsagesAvailable || node.usageCount > 0
  {
    if tool.allUsagesAvailable && node.usageCount == 0 then Removed else Unchanged
  }

  /** The anchor's place in the graph: present with its usages, or deleted. */
  datatype GraphPlace = Present(node: AnchorNode) | Deleted

  /** One canonicalization of the anchor: the graph applies canonical's answer. */
  function Canonicalize(s: GraphPlace, tool: CanonicalizerTool): GraphPlace {
    match s
    case Present(n) => if CanonicalOf(n, tool) == Removed then Deleted else s
    case Deleted => Deleted
  }

  /** canonical has no side effects: canonicalizing twice is canonicalizing once,
      and an anchor with a usage, or one seen while usages may be missing, stays. */
  lemma CanonicalizeIdempotent(s: GraphPlace, tool: CanonicalizerTool)
    ensures Canonicalize(Canonicalize(s, tool), tool) == Canonicalize(s, tool)
    ensures s.Present? && (s.node.usageCount > 0 || !tool.allUsagesAvailable) ==> Canonicalize(s, tool) == s
    ensures s.Present? && s.node.usageCount == 0 && tool.allUsagesAvailable ==> Canonicalize(s, tool) == Deleted
  {
  }

  /** ValueAnchorNode.virtualize: the anchor is deleted, whatever uses it. */
  method Virtualize(node: AnchorNode) returns (effect: Effect)
    ensures effect == Subsumed
  {
    effect := Subsumed;
  }

  /** An LIR instruction; the builder's output so far is a sequence of them. */
  datatype LIRInstruction = LIRInstruction(opcode: string)

  /** ValueAnchorNode.generate: the LIR emitted so far is left as it is. */
  function Generate(emitted: seq<LIRInstruction>): (after: seq<LIRInstruction>)
    ensures after == emitted
  {
    emitted
  }
}

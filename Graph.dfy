/** The node graph of the contract as the consignment sees it: identifiers,
    transitions, extensions, bundles and anchors, and the graph operations
    of the core protocol library whose bodies are not part of this model
    (collected in `GraphApi`). */
module Graph {
  import opened Prelude
  import opened Seals

  /** Commitment-derived identifiers; each hash is read as a big-endian
      number, so comparing the numbers is comparing the byte strings. */
  datatype NodeId = NodeId(hash: nat)
  datatype BundleId = BundleId(hash: nat)

  type TransitionType = U16
  type ExtensionType = U16
  type OwnedRightType = U16

  /** Opaque payloads the core only carries around. */
  type Schema(==, !new)
  type Genesis(==, !new)
  type Assignment(==, !new)
  type NodeContent(==, !new)
  type MerkleProof(==, !new)

  /** In the core library a `SealEndpoint` has the same two arms and the same
      concealment as `TerminalSeal`, which stands for it here. */
  type SealEndpoint = TerminalSeal

  /** One typed owned right of a node and its assignment (an entry of
      `owned_rights_mut()`; entries are in key order). */
  datatype OwnedRight = OwnedRight(rightType: OwnedRightType, assignment: Assignment)

  /** A state transition: its schema type, its owned rights, and the rest of
      its committed content. */
  datatype Transition = Transition(transitionType: TransitionType, ownedRights: seq<OwnedRight>, rest: NodeContent)

  /** A state extension: same shape, no witness transaction of its own. */
  datatype Extension = Extension(extensionType: ExtensionType, ownedRights: seq<OwnedRight>, rest: NodeContent)

  /** One `(transition, inputs)` entry of a transition bundle. */
  datatype BundleEntry = BundleEntry(transition: Transition, inputs: set<U16>)

  /** A transition bundle: its revealed entries in order (the pairs its
      iteration yields); any other part of a bundle is not modelled. */
  datatype TransitionBundle = TransitionBundle(entries: seq<BundleEntry>)

  /** The anchor of a bundle into its witness transaction. */
  datatype Anchor = Anchor(txid: Txid, proof: MerkleProof)

  datatype AnchoredBundle = AnchoredBundle(anchor: Anchor, bundle: TransitionBundle)

  /** A declared endpoint: a bundle and one of its seal endpoints. */
  datatype Endpoint = Endpoint(bundleId: BundleId, seal: SealEndpoint)

  /** An output of a parent node consumed by a transition. */
  datatype ParentOutput = ParentOutput(nodeId: NodeId, outputNo: U16)

  /** Consistency errors of the graph API. */
  datatype ConsistencyError =
    | NotEndpoint(nodeId: NodeId)
    | BundleIdAbsent(bundleId: BundleId)
    | TransitionAbsent(nodeId: NodeId)
    | ExtensionAbsent(nodeId: NodeId)
    | NoBundle(nodeId: NodeId)

  /** A value together with the number of changes made to produce it. */
  datatype Counted<T> = Counted(value: T, count: nat)

  /** Graph operations of the core library whose bodies lie outside this
      model. Lookups take the consignment's anchored bundles, the data they
      search. */
  datatype GraphApi = GraphApi(
    seals: SealLib,
    genesisId: Genesis -> NodeId,
    extensionId: Extension -> NodeId,
    knownNodeIds: TransitionBundle -> set<NodeId>,
    knownTransitions: TransitionBundle -> seq<Transition>,
    bundleById: (seq<AnchoredBundle>, BundleId) -> Result<TransitionBundle, ConsistencyError>,
    transitionById: (seq<AnchoredBundle>, NodeId) -> Result<Transition, ConsistencyError>,
    knownTransitionsByBundleId: (seq<AnchoredBundle>, BundleId) -> Result<seq<Transition>, ConsistencyError>,
    transitionWitnessById: (seq<AnchoredBundle>, NodeId) -> Result<(Transition, Txid), ConsistencyError>,
    parentOutputsByType: (Transition, OwnedRightType) -> seq<ParentOutput>,
    concealStateExcept: (Transition, seq<SecretSeal>) -> Counted<Transition>,
    concealSeals: (Transition, seq<SecretSeal>) -> Counted<Transition>,
    concealExtensionStateExcept: (Extension, seq<SecretSeal>) -> Counted<Extension>,
    revealSeals: (Assignment, seq<GraphSeal>) -> Counted<Assignment>)

  // ------------------------------------------------- ordered identifier sets

  /** A `BTreeSet<BundleId>` as its iteration sequence: strictly increasing. */
  ghost predicate StrictlySorted(s: seq<BundleId>)
  {
    forall i, j :: 0 <= i < j < |s| ==> s[i].hash < s[j].hash
  }

  /** `BTreeSet::insert`, on the iteration sequence. */
  function InsertSorted(s: seq<BundleId>, x: BundleId): (r: seq<BundleId>)
    requires StrictlySorted(s)
    ensures StrictlySorted(r)
    ensures forall y :: y in r <==> y in s || y == x
    ensures |r| <= |s| + 1
    decreases |s|
  {
    if s == [] then [x]
    else if x.hash < s[0].hash then [x] + s
    else if x.hash == s[0].hash then s
    else
      var tail := InsertSorted(s[1..], x);
      assert forall k :: 0 <= k < |tail| ==> tail[k] in s[1..] || tail[k] == x;
      [s[0]] + tail
  }
}

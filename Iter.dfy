/** Iteration over consignment data (src/iter.rs): the chain iterator that
    walks from its start transition back through its `connected_by`
    parents, and the first step of the transition/witness iterator. As
    written, the walk only begins from a start the inverted endpoint guard
    lets through: a known node of a resolvable endpoint bundle gives an
    empty iterator. */
module Iter {
  import opened Prelude
  import opened Graph
  import opened Consignment

  /** A yielded item: a transition and the txid of its witness transaction. */
  type Item = (Transition, Txid)

  /** The mutable part of a `ChainIter`, as a value. */
  datatype ChainState = ChainState(nextItem: Option<Item>, error: Option<ConsistencyError>)

  /** An error is only ever recorded together with the end of the chain. */
  ghost predicate Coherent(s: ChainState)
  {
    s.error.Some? ==> s.nextItem.None?
  }

  // ------------------------------------------------------- one `next` call

  /** `ChainIter::next` on the state `s` over the anchored bundles `bs`: the
      state afterwards and the item returned. */
  function Step(api: GraphApi, bs: seq<AnchoredBundle>, connectedBy: OwnedRightType, s: ChainState): (r: (ChainState, Option<Item>))
    ensures s.nextItem.None? ==> r == (s, None)
    ensures r.1.Some? <==> s.nextItem.Some? && |api.parentOutputsByType(s.nextItem.value.0, connectedBy)| > 0
    ensures r.1.Some? ==> r.1 == s.nextItem
    ensures r.1.None? ==> r.0.nextItem.None? && r.0.error == s.error
    ensures r.1.Some? ==>
              var lookup := api.transitionWitnessById(bs, api.parentOutputsByType(s.nextItem.value.0, connectedBy)[0].nodeId);
              && r.0.nextItem == lookup.ToOption()
              && r.0.error == (if lookup.Err? then Some(lookup.error) else s.error)
    ensures Coherent(s) ==> Coherent(r.0)
  {
    match s.nextItem
    case None => (s, None)
    case Some(item) =>
      var parents := api.parentOutputsByType(item.0, connectedBy);
      if parents == [] then (s.(nextItem := None), None)
      else
        var lookup := api.transitionWitnessById(bs, parents[0].nodeId);
        var error := if lookup.Err? then Some(lookup.error) else s.error;
        (ChainState(lookup.ToOption(), error), Some(item))
  }

  /** `n` successive calls of `next`: the final state and the items. */
  function Run(api: GraphApi, bs: seq<AnchoredBundle>, connectedBy: OwnedRightType, s: ChainState, n: nat): (r: (ChainState, seq<Option<Item>>))
    ensures |r.1| == n
    decreases n
  {
    if n == 0 then (s, [])
    else
      var first := Step(api, bs, connectedBy, s);
      var rest := Run(api, bs, connectedBy, first.0, n - 1);
      (rest.0, [first.1] + rest.1)
  }

  /** With no next item, any number of calls returns nothing and changes
      nothing. */
  lemma {:induction false} RunFromEmpty(api: GraphApi, bs: seq<AnchoredBundle>, connectedBy: OwnedRightType, s: ChainState, n: nat)
    requires s.nextItem.None?
    ensures Run(api, bs, connectedBy, s, n).0 == s
    ensures forall k :: 0 <= k < n ==> Run(api, bs, connectedBy, s, n).1[k].None?
    decreases n
  {
    if n > 0 {
      RunFromEmpty(api, bs, connectedBy, s, n - 1);
      var rest := Run(api, bs, connectedBy, s, n - 1);
      assert Run(api, bs, connectedBy, s, n) == (rest.0, [None] + rest.1);
    }
  }

  /** The iterator is fused: once `next` has returned `None`, every later
      call returns `None`. */
  lemma FusedAfterNone(api: GraphApi, bs: seq<AnchoredBundle>, connectedBy: OwnedRightType, s: ChainState, n: nat)
    requires Step(api, bs, connectedBy, s).1.None?
    ensures forall k :: 0 <= k < n ==> Run(api, bs, connectedBy, Step(api, bs, connectedBy, s).0, n).1[k].None?
  {
    RunFromEmpty(api, bs, connectedBy, Step(api, bs, connectedBy, s).0, n);
  }

  /** A recorded error is never cleared or overwritten, by any number of
      later calls. */
  lemma ErrorSticky(api: GraphApi, bs: seq<AnchoredBundle>, connectedBy: OwnedRightType, s: ChainState, n: nat)
    requires Coherent(s) && s.error.Some?
    ensures Run(api, bs, connectedBy, s, n).0.error == s.error
  {
    RunFromEmpty(api, bs, connectedBy, s, n);
  }

  /** Every state reached from a coherent one is coherent. */
  lemma {:induction false} RunCoherent(api: GraphApi, bs: seq<AnchoredBundle>, connectedBy: OwnedRightType, s: ChainState, n: nat)
    requires Coherent(s)
    ensures Coherent(Run(api, bs, connectedBy, s, n).0)
    decreases n
  {
    if n > 0 {
      RunCoherent(api, bs, connectedBy, Step(api, bs, connectedBy, s).0, n - 1);
    }
  }

  /** Within a run, a `None` is followed by nothing but `None`. */
  lemma {:induction false} RunNoneThenNone(api: GraphApi, bs: seq<AnchoredBundle>, connectedBy: OwnedRightType, s: ChainState, n: nat, k: nat)
    requires k < n && Run(api, bs, connectedBy, s, n).1[k].None?
    ensures forall m :: k <= m < n ==> Run(api, bs, connectedBy, s, n).1[m].None?
    decreases n
  {
    var first := Step(api, bs, connectedBy, s);
    var rest := Run(api, bs, connectedBy, first.0, n - 1);
    assert Run(api, bs, connectedBy, s, n).1 == [first.1] + rest.1;
    if k == 0 {
      RunFromEmpty(api, bs, connectedBy, first.0, n - 1);
    } else {
      RunNoneThenNone(api, bs, connectedBy, first.0, n - 1, k - 1);
    }
  }

  // --------------------------------------------------------- `chain_iter`

  /** The state `chain_iter` starts in: no error, whatever happens; a first
      item only when the start passes the endpoint guard and has a
      witness. */
  function ChainStart(api: GraphApi, c: FullConsignment, startWith: NodeId): (s: ChainState)
    reads c
    ensures s.error.None? && Coherent(s)
    ensures s.nextItem.Some? <==>
              c.EndpointTransitionById(api, startWith).Ok? && api.transitionWitnessById(c.anchoredBundles, startWith).Ok?
    ensures s.nextItem.Some? ==> s.nextItem.value == api.transitionWitnessById(c.anchoredBundles, startWith).value
  {
    var first := if c.EndpointTransitionById(api, startWith).Ok?
                 then api.transitionWitnessById(c.anchoredBundles, startWith).ToOption()
                 else None;
    ChainState(first, None)
  }

  /** As written, a chain started at a known node of an endpoint bundle is
      empty and reports no error. */
  lemma ChainFromEndpointIsEmpty(api: GraphApi, c: FullConsignment, startWith: NodeId)
    requires IsEndpointNode(api, c.anchoredBundles, c.endpoints, startWith)
    ensures ChainStart(api, c, startWith) == ChainState(None, None)
  {
    assert c.EndpointTransitionById(api, startWith) == Err(NotEndpoint(startWith));
  }

  /** As written, a start that is not an endpoint node is not reported as
      an error either: whatever the walk does, `is_err` is false at the
      start. */
  lemma NonEndpointStartNotReported(api: GraphApi, c: FullConsignment, startWith: NodeId, it: ChainIter)
    requires !IsEndpointNode(api, c.anchoredBundles, c.endpoints, startWith)
    requires it.State() == ChainStart(api, c, startWith)
    ensures !it.IsErr() && it.IntoResult() == Ok(())
  {
  }

  /** The start `chain_iter` evidently means: the intended endpoint guard,
      with its refusal recorded as the iterator's error. */
  function IntendedChainStart(api: GraphApi, c: FullConsignment, startWith: NodeId): (s: ChainState)
    reads c
    ensures Coherent(s)
    ensures s.error.Some? <==> c.IntendedEndpointTransitionById(api, startWith).Err?
    ensures s.error.Some? ==> s.error.value == c.IntendedEndpointTransitionById(api, startWith).error
    ensures !IsEndpointNode(api, c.anchoredBundles, c.endpoints, startWith) ==>
              s == ChainState(None, Some(NotEndpoint(startWith)))
    ensures s.nextItem.Some? <==>
              c.IntendedEndpointTransitionById(api, startWith).Ok? && api.transitionWitnessById(c.anchoredBundles, startWith).Ok?
    ensures s.nextItem.Some? ==> s.nextItem.value == api.transitionWitnessById(c.anchoredBundles, startWith).value
  {
    match c.IntendedEndpointTransitionById(api, startWith)
    case Err(e) => ChainState(None, Some(e))
    case Ok(_) => ChainState(api.transitionWitnessById(c.anchoredBundles, startWith).ToOption(), None)
  }

  /** From the intended start, a start that is not an endpoint node is
      reported: `is_err` holds and `into_result` is `NotEndpoint`. */
  lemma IntendedRefusalReported(api: GraphApi, c: FullConsignment, startWith: NodeId, it: ChainIter)
    requires !IsEndpointNode(api, c.anchoredBundles, c.endpoints, startWith)
    requires it.State() == IntendedChainStart(api, c, startWith)
    ensures it.IsErr() && it.IntoResult() == Err(NotEndpoint(startWith))
  {
  }

  /** `ChainIter`: a walk over transitions connected 1-to-1 by owned rights
      of type `connectedBy`, reading a consignment the walk does not change. */
  class ChainIter {
    const consignment: FullConsignment
    const api: GraphApi
    const connectedBy: OwnedRightType
    var nextItem: Option<Item>
    var error: Option<ConsistencyError>
    /** Set once `next` has returned `None`. */
    ghost var terminated: bool

    ghost predicate Valid()
      reads this
    {
      && Coherent(State())
      && (terminated ==> nextItem.None?)
    }

    function State(): ChainState
      reads this
    {
      ChainState(nextItem, error)
    }

    /** `Consignment::chain_iter`. */
    constructor (c: FullConsignment, api: GraphApi, startWith: NodeId, connectedBy: OwnedRightType)
      ensures Valid() && !terminated
      ensures consignment == c && this.api == api && this.connectedBy == connectedBy
      ensures State() == ChainStart(api, c, startWith)
      ensures error.None?
    {
      consignment := c;
      this.api := api;
      this.connectedBy := connectedBy;
      var start := ChainStart(api, c, startWith);
      nextItem := start.nextItem;
      error := start.error;
      terminated := false;
    }

    /** `Iterator::next`. */
    method Next() returns (item: Option<Item>)
      requires Valid()
      modifies this
      ensures Valid()
      ensures (State(), item) == Step(api, consignment.anchoredBundles, connectedBy, old(State()))
      ensures terminated == (old(terminated) || item.None?)
      ensures old(terminated) ==> item.None? && State() == old(State())
    {
      if nextItem.None? {
        item := None;
        terminated := true;
        return;
      }
      var current := nextItem.value;
      var parents := api.parentOutputsByType(current.0, connectedBy);
      if parents == [] {
        nextItem := None;
        item := None;
        terminated := true;
        return;
      }
      var lookup := api.transitionWitnessById(consignment.anchoredBundles, parents[0].nodeId);
      if lookup.Err? {
        error := Some(lookup.error);
      }
      nextItem := lookup.ToOption();
      item := Some(current);
    }

    /** `is_err`. */
    function IsErr(): (b: bool)
      reads this
      ensures b <==> error.Some?
    {
      error.Some?
    }

    /** `into_result`. */
    function IntoResult(): (r: Result<(), ConsistencyError>)
      reads this
      ensures r.Err? <==> error.Some?
      ensures r.Err? ==> r.error == error.value
    {
      match error
      case Some(e) => Err(e)
      case None => Ok(())
    }
  }

  // ------------------------------------------------- `transition_witness_iter`

  /** `MeshIter` as it stands after creation: the bundles still to visit,
      the txid and known transitions of the bundle being visited, and the
      transition types asked for. */
  datatype MeshIter = MeshIter(
    bundles: seq<AnchoredBundle>,
    transitions: Option<(Txid, seq<Transition>)>,
    transitionTypes: seq<TransitionType>)

  /** `Consignment::transition_witness_iter`: takes the first bundle off the
      cursor. */
  function TransitionWitnessIter(api: GraphApi, c: FullConsignment, transitionTypes: seq<TransitionType>): (m: MeshIter)
    reads c
    ensures m.transitionTypes == transitionTypes
    ensures c.anchoredBundles == [] ==> m.transitions.None? && m.bundles == []
    ensures c.anchoredBundles != [] ==>
              && m.transitions == Some((c.anchoredBundles[0].anchor.txid, api.knownTransitions(c.anchoredBundles[0].bundle)))
              && [c.anchoredBundles[0]] + m.bundles == c.anchoredBundles
  {
    var bs := c.anchoredBundles;
    if bs == [] then MeshIter([], None, transitionTypes)
    else MeshIter(bs[1..], Some((bs[0].anchor.txid, api.knownTransitions(bs[0].bundle))), transitionTypes)
  }
}

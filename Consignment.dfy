/** The consignment container (src/consignment.rs): its record, the version
    gate on decoding, the set-valued and endpoint queries, and the two
    passes that change it in place, `finalize` (concealment for one
    recipient) and `reveal_seals` (un-blinding of known seals). */
module Consignment {
  import opened Prelude
  import opened Seals
  import opened Graph

  /** `RGB_CONSIGNMENT_VERSION`. */
  const ConsignmentVersion: U8 := 0

  /** The message of the version-gate error. */
  const UnsupportedVersion: string := "Consignment versions above 0 are not supported"

  /** Failure of the strict decoder of a single field. */
  type FieldDecodeError(==, !new)

  datatype DecodeError =
    | UnsupportedDataStructure(reason: string)
    | FieldError(cause: FieldDecodeError)

  /** The commitment identity of a consignment. */
  datatype ConsignmentId = ConsignmentId(hash: nat)

  /** The fields of a consignment, in their strict-encoding order. */
  datatype Fields = Fields(
    version: U8,
    schema: Schema,
    genesis: Genesis,
    endpoints: seq<Endpoint>,
    anchoredBundles: seq<AnchoredBundle>,
    stateExtensions: seq<Extension>)

  // ------------------------------------------------------------ version gate

  /** The check `strict_decode` applies once the fields are read: any version
      other than 0 is refused, a field error is passed on. */
  function VersionGate(decoded: Result<Fields, DecodeError>): (r: Result<Fields, DecodeError>)
    ensures r.Ok? <==> decoded.Ok? && decoded.value.version == 0
    ensures r.Ok? ==> r.value == decoded.value
    ensures decoded.Ok? && decoded.value.version != 0 ==> r == Err(UnsupportedDataStructure(UnsupportedVersion))
    ensures decoded.Err? ==> r == decoded
  {
    match decoded
    case Err(e) => Err(e)
    case Ok(f) => if f.version != 0 then Err(UnsupportedDataStructure(UnsupportedVersion)) else Ok(f)
  }

  // ------------------------------------------------------- query helpers

  /** The txids of the anchors, collected into a set. */
  function AnchorTxids(bs: seq<AnchoredBundle>): (r: set<Txid>)
    ensures forall t :: t in r <==> exists i :: 0 <= i < |bs| && bs[i].anchor.txid == t
    ensures |r| <= |bs|
    decreases |bs|
  {
    if bs == [] then {}
    else
      var rest := AnchorTxids(bs[1..]);
      assert forall i :: 1 <= i < |bs| ==> bs[i] == bs[1..][i - 1];
      {bs[0].anchor.txid} + rest
  }

  /** The union of every bundle's known node ids. */
  function BundlesKnownIds(api: GraphApi, bs: seq<AnchoredBundle>): (r: set<NodeId>)
    ensures forall id :: id in r <==> exists i :: 0 <= i < |bs| && id in api.knownNodeIds(bs[i].bundle)
    decreases |bs|
  {
    if bs == [] then {}
    else
      var rest := BundlesKnownIds(api, bs[1..]);
      assert forall i :: 1 <= i < |bs| ==> bs[i] == bs[1..][i - 1];
      api.knownNodeIds(bs[0].bundle) + rest
  }

  /** The node ids of the extensions, collected into a set. */
  function ExtensionIds(api: GraphApi, exts: seq<Extension>): (r: set<NodeId>)
    ensures forall id :: id in r <==> exists i :: 0 <= i < |exts| && api.extensionId(exts[i]) == id
    ensures |r| <= |exts|
    decreases |exts|
  {
    if exts == [] then {}
    else
      var rest := ExtensionIds(api, exts[1..]);
      assert forall i :: 1 <= i < |exts| ==> exts[i] == exts[1..][i - 1];
      {api.extensionId(exts[0])} + rest
  }

  /** The bundle ids of the endpoints, collected into a `BTreeSet` (kept as
      its strictly increasing iteration sequence). */
  function SortedBundleIds(eps: seq<Endpoint>): (r: seq<BundleId>)
    ensures StrictlySorted(r)
    ensures forall b :: b in r <==> exists i :: 0 <= i < |eps| && eps[i].bundleId == b
    ensures |r| <= |eps|
    decreases |eps|
  {
    if eps == [] then []
    else
      var init := SortedBundleIds(eps[..|eps| - 1]);
      assert forall i :: 0 <= i < |eps| - 1 ==> eps[i] == eps[..|eps| - 1][i];
      InsertSorted(init, eps[|eps| - 1].bundleId)
  }

  /** `filter_map(bundle_by_id(..).ok())` over a sequence of bundle ids. */
  function ResolveBundles(api: GraphApi, bs: seq<AnchoredBundle>, ids: seq<BundleId>): (r: seq<TransitionBundle>)
    ensures |r| <= |ids|
    ensures |r| == |ids| <==> forall j :: 0 <= j < |ids| ==> api.bundleById(bs, ids[j]).Ok?
    ensures forall k :: 0 <= k < |r| ==>
              exists j :: 0 <= j < |ids| && api.bundleById(bs, ids[j]) == Ok(r[k])
    ensures forall j :: 0 <= j < |ids| && api.bundleById(bs, ids[j]).Ok? ==>
              api.bundleById(bs, ids[j]).value in r
    decreases |ids|
  {
    if ids == [] then []
    else
      var rest := ResolveBundles(api, bs, ids[1..]);
      assert forall j :: 1 <= j < |ids| ==> ids[j] == ids[1..][j - 1];
      match api.bundleById(bs, ids[0])
      case Ok(b) => [b] + rest
      case Err(_) => rest
  }

  /** `id` is a known node id of the bundle of some endpoint that resolves. */
  ghost predicate IsEndpointNode(api: GraphApi, bs: seq<AnchoredBundle>, eps: seq<Endpoint>, id: NodeId)
  {
    exists i :: 0 <= i < |eps| && api.bundleById(bs, eps[i].bundleId).Ok? &&
      id in api.knownNodeIds(api.bundleById(bs, eps[i].bundleId).value)
  }

  /** The `any` over the known node ids of the resolvable endpoint bundles. */
  function AnyEndpointNode(api: GraphApi, bs: seq<AnchoredBundle>, eps: seq<Endpoint>, id: NodeId): (found: bool)
    ensures found <==> IsEndpointNode(api, bs, eps, id)
    decreases |eps|
  {
    if eps == [] then false
    else
      assert forall i :: 1 <= i < |eps| ==> eps[i] == eps[1..][i - 1];
      var here := match api.bundleById(bs, eps[0].bundleId)
                  case Ok(b) => id in api.knownNodeIds(b)
                  case Err(_) => false;
      here || AnyEndpointNode(api, bs, eps[1..], id)
  }

  /** `filter_map(known_transitions_by_bundle_id(..).ok()).flat_map(..)`. */
  function KnownTransitionsOf(api: GraphApi, bs: seq<AnchoredBundle>, ids: seq<BundleId>): (r: seq<Transition>)
    ensures forall x :: x in r <==>
              exists j :: 0 <= j < |ids| && api.knownTransitionsByBundleId(bs, ids[j]).Ok? &&
                x in api.knownTransitionsByBundleId(bs, ids[j]).value
    decreases |ids|
  {
    if ids == [] then []
    else
      var rest := KnownTransitionsOf(api, bs, ids[1..]);
      assert forall j :: 1 <= j < |ids| ==> ids[j] == ids[1..][j - 1];
      match api.knownTransitionsByBundleId(bs, ids[0])
      case Ok(ts) => ts + rest
      case Err(_) => rest
  }

  /** `filter(|node| types.contains(&node.transition_type()))`. */
  function FilterByTypes(xs: seq<Transition>, types: seq<TransitionType>): (r: seq<Transition>)
    ensures forall x :: x in r <==> x in xs && x.transitionType in types
    ensures |r| <= |xs|
    decreases |xs|
  {
    if xs == [] then []
    else
      var rest := FilterByTypes(xs[1..], types);
      assert forall x :: x in xs[1..] ==> x in xs;
      assert forall x :: x in xs ==> x == xs[0] || x in xs[1..];
      if xs[0].transitionType in types then [xs[0]] + rest else rest
  }

  // ------------------------------------------------ finalize: specification

  /** The concealed form of each seal endpoint, in order. */
  function ConcealAll(lib: SealLib, seals: seq<SealEndpoint>): (r: seq<SecretSeal>)
    ensures |r| == |seals|
    ensures forall i :: 0 <= i < |seals| ==> r[i] == Conceal(lib, seals[i])
  {
    seq(|seals|, i requires 0 <= i < |seals| => Conceal(lib, seals[i]))
  }

  /** The endpoints `finalize` keeps: those whose seal is exposed, in order. */
  function KeptEndpoints(eps: seq<Endpoint>, expose: seq<SealEndpoint>): seq<Endpoint>
    decreases |eps|
  {
    if eps == [] then []
    else if eps[0].seal in expose then [eps[0]] + KeptEndpoints(eps[1..], expose)
    else KeptEndpoints(eps[1..], expose)
  }

  /** The seals of the endpoints `finalize` drops, in order
      (`removed_endpoints`). */
  function RemovedSeals(eps: seq<Endpoint>, expose: seq<SealEndpoint>): seq<SealEndpoint>
    decreases |eps|
  {
    if eps == [] then []
    else if eps[0].seal in expose then RemovedSeals(eps[1..], expose)
    else [eps[0].seal] + RemovedSeals(eps[1..], expose)
  }

  /** The seals of a sequence of endpoints. */
  function SealsOf(eps: seq<Endpoint>): (r: seq<SealEndpoint>)
    ensures |r| == |eps|
    decreases |eps|
  {
    if eps == [] then [] else [eps[0].seal] + SealsOf(eps[1..])
  }

  /** One transition of a bundle under `finalize`: state concealment first,
      then seal concealment of the already state-concealed transition. */
  function TransitionConcealment(api: GraphApi, t: Transition, concealed: seq<SecretSeal>, toConceal: seq<SecretSeal>): Counted<Transition>
  {
    var s := api.concealStateExcept(t, concealed);
    var c := api.concealSeals(s.value, toConceal);
    Counted(c.value, s.count + c.count)
  }

  /** The entries of one bundle under `finalize`, with the summed count. */
  function EntriesConcealment(api: GraphApi, es: seq<BundleEntry>, concealed: seq<SecretSeal>, toConceal: seq<SecretSeal>): Counted<seq<BundleEntry>>
    decreases |es|
  {
    if es == [] then Counted([], 0)
    else
      var init := EntriesConcealment(api, es[..|es| - 1], concealed, toConceal);
      var last := es[|es| - 1];
      var t := TransitionConcealment(api, last.transition, concealed, toConceal);
      Counted(init.value + [BundleEntry(t.value, last.inputs)], init.count + t.count)
  }

  /** All anchored bundles under `finalize`, with the summed count. */
  function AnchoredConcealment(api: GraphApi, bs: seq<AnchoredBundle>, concealed: seq<SecretSeal>, toConceal: seq<SecretSeal>): Counted<seq<AnchoredBundle>>
    decreases |bs|
  {
    if bs == [] then Counted([], 0)
    else
      var init := AnchoredConcealment(api, bs[..|bs| - 1], concealed, toConceal);
      var last := bs[|bs| - 1];
      var e := EntriesConcealment(api, last.bundle.entries, concealed, toConceal);
      Counted(init.value + [AnchoredBundle(last.anchor, TransitionBundle(e.value))], init.count + e.count)
  }

  /** All state extensions under `finalize`: only state concealment. */
  function ExtensionsConcealment(api: GraphApi, exts: seq<Extension>, concealed: seq<SecretSeal>): Counted<seq<Extension>>
    decreases |exts|
  {
    if exts == [] then Counted([], 0)
    else
      var init := ExtensionsConcealment(api, exts[..|exts| - 1], concealed);
      var x := api.concealExtensionStateExcept(exts[|exts| - 1], concealed);
      Counted(init.value + [x.value], init.count + x.count)
  }

  // --------------------------------------------- reveal_seals: specification

  /** Every owned right of a node offered the whole known-seal sequence. */
  function RightsRevelation(api: GraphApi, rights: seq<OwnedRight>, known: seq<GraphSeal>): Counted<seq<OwnedRight>>
    decreases |rights|
  {
    if rights == [] then Counted([], 0)
    else
      var init := RightsRevelation(api, rights[..|rights| - 1], known);
      var last := rights[|rights| - 1];
      var a := api.revealSeals(last.assignment, known);
      Counted(init.value + [OwnedRight(last.rightType, a.value)], init.count + a.count)
  }

  /** The entries of one bundle under `reveal_seals`. */
  function EntriesRevelation(api: GraphApi, es: seq<BundleEntry>, known: seq<GraphSeal>): Counted<seq<BundleEntry>>
    decreases |es|
  {
    if es == [] then Counted([], 0)
    else
      var init := EntriesRevelation(api, es[..|es| - 1], known);
      var last := es[|es| - 1];
      var r := RightsRevelation(api, last.transition.ownedRights, known);
      Counted(init.value + [BundleEntry(last.transition.(ownedRights := r.value), last.inputs)], init.count + r.count)
  }

  /** All anchored bundles under `reveal_seals`. */
  function AnchoredRevelation(api: GraphApi, bs: seq<AnchoredBundle>, known: seq<GraphSeal>): Counted<seq<AnchoredBundle>>
    decreases |bs|
  {
    if bs == [] then Counted([], 0)
    else
      var init := AnchoredRevelation(api, bs[..|bs| - 1], known);
      var last := bs[|bs| - 1];
      var e := EntriesRevelation(api, last.bundle.entries, known);
      Counted(init.value + [AnchoredBundle(last.anchor, TransitionBundle(e.value))], init.count + e.count)
  }

  /** All state extensions under `reveal_seals`. */
  function ExtensionsRevelation(api: GraphApi, exts: seq<Extension>, known: seq<GraphSeal>): Counted<seq<Extension>>
    decreases |exts|
  {
    if exts == [] then Counted([], 0)
    else
      var init := ExtensionsRevelation(api, exts[..|exts| - 1], known);
      var last := exts[|exts| - 1];
      var r := RightsRevelation(api, last.ownedRights, known);
      Counted(init.value + [last.(ownedRights := r.value)], init.count + r.count)
  }

  // ------------------------------------------------ per-bundle pass methods

  /** The `map` over one bundle's entries in `finalize`. */
  method ConcealBundle(api: GraphApi, bundle: TransitionBundle, concealed: seq<SecretSeal>, toConceal: seq<SecretSeal>)
    returns (r: Counted<TransitionBundle>)
    ensures r.value.entries == EntriesConcealment(api, bundle.entries, concealed, toConceal).value
    ensures r.count == EntriesConcealment(api, bundle.entries, concealed, toConceal).count
  {
    var es := bundle.entries;
    var out: seq<BundleEntry> := [];
    var count: nat := 0;
    var i := 0;
    while i < |es|
      invariant 0 <= i <= |es|
      invariant Counted(out, count) == EntriesConcealment(api, es[..i], concealed, toConceal)
    {
      var t := TransitionConcealment(api, es[i].transition, concealed, toConceal);
      count := count + t.count;
      out := out + [BundleEntry(t.value, es[i].inputs)];
      assert es[..i + 1][..i] == es[..i];
      i := i + 1;
    }
    assert es[..i] == es;
    r := Counted(TransitionBundle(out), count);
  }

  /** The inner `for` over one node's owned rights in `reveal_seals`,
      updating each assignment in place. */
  method RevealRights(api: GraphApi, rights: seq<OwnedRight>, known: seq<GraphSeal>)
    returns (r: Counted<seq<OwnedRight>>)
    ensures r == RightsRevelation(api, rights, known)
  {
    var current := rights;
    var counter: nat := 0;
    var i := 0;
    while i < |current|
      invariant 0 <= i <= |current| == |rights|
      invariant Counted(current[..i], counter) == RightsRevelation(api, rights[..i], known)
      invariant current[i..] == rights[i..]
    {
      var revealed := api.revealSeals(current[i].assignment, known);
      counter := counter + revealed.count;
      assert rights[..i + 1][..i] == rights[..i];
      assert current[i] == rights[i];
      current := current[i := OwnedRight(current[i].rightType, revealed.value)];
      assert current[..i + 1] == current[..i] + [current[i]];
      i := i + 1;
    }
    assert rights[..i] == rights;
    assert current[..i] == current;
    r := Counted(current, counter);
  }

  /** The `map` over one bundle's entries in `reveal_seals`. */
  method RevealBundle(api: GraphApi, bundle: TransitionBundle, known: seq<GraphSeal>)
    returns (r: Counted<TransitionBundle>)
    ensures r.value.entries == EntriesRevelation(api, bundle.entries, known).value
    ensures r.count == EntriesRevelation(api, bundle.entries, known).count
  {
    var es := bundle.entries;
    var out: seq<BundleEntry> := [];
    var counter: nat := 0;
    var i := 0;
    while i < |es|
      invariant 0 <= i <= |es|
      invariant Counted(out, counter) == EntriesRevelation(api, es[..i], known)
    {
      var transition := es[i].transition;
      var rights := RevealRights(api, transition.ownedRights, known);
      counter := counter + rights.count;
      out := out + [BundleEntry(transition.(ownedRights := rights.value), es[i].inputs)];
      assert es[..i + 1][..i] == es[..i];
      i := i + 1;
    }
    assert es[..i] == es;
    r := Counted(TransitionBundle(out), counter);
  }

  /** The `filter` of `finalize` over the endpoints: the kept endpoints and,
      pushed as a side effect, the seals of the dropped ones. */
  method PartitionEndpoints(eps: seq<Endpoint>, expose: seq<SealEndpoint>)
    returns (kept: seq<Endpoint>, removed: seq<SealEndpoint>)
    ensures kept == KeptEndpoints(eps, expose)
    ensures removed == RemovedSeals(eps, expose)
  {
    kept, removed := [], [];
    var i := 0;
    while i < |eps|
      invariant 0 <= i <= |eps|
      invariant kept == KeptEndpoints(eps[..i], expose)
      invariant removed == RemovedSeals(eps[..i], expose)
    {
      if eps[i].seal in expose {
        kept := kept + [eps[i]];
      } else {
        removed := removed + [eps[i].seal];
      }
      FilterConcat(eps[..i], [eps[i]], expose);
      assert eps[..i + 1] == eps[..i] + [eps[i]];
      i := i + 1;
    }
    assert eps[..i] == eps;
  }

  /** The `map` of `finalize` over the anchored bundles. */
  method ConcealAnchored(api: GraphApi, bs: seq<AnchoredBundle>, concealed: seq<SecretSeal>, toConceal: seq<SecretSeal>)
    returns (r: Counted<seq<AnchoredBundle>>)
    ensures r == AnchoredConcealment(api, bs, concealed, toConceal)
  {
    var out: seq<AnchoredBundle> := [];
    var count: nat := 0;
    var j := 0;
    while j < |bs|
      invariant 0 <= j <= |bs|
      invariant Counted(out, count) == AnchoredConcealment(api, bs[..j], concealed, toConceal)
    {
      var b := ConcealBundle(api, bs[j].bundle, concealed, toConceal);
      out := out + [AnchoredBundle(bs[j].anchor, b.value)];
      count := count + b.count;
      assert bs[..j + 1][..j] == bs[..j];
      j := j + 1;
    }
    assert bs[..j] == bs;
    r := Counted(out, count);
  }

  /** The `fold` of `finalize` over the extensions, concealing each in place
      and adding its count to `start`. */
  method ConcealExtensions(api: GraphApi, exts: seq<Extension>, concealed: seq<SecretSeal>, start: nat)
    returns (r: Counted<seq<Extension>>)
    ensures r.value == ExtensionsConcealment(api, exts, concealed).value
    ensures r.count == start + ExtensionsConcealment(api, exts, concealed).count
  {
    var current := exts;
    var count := start;
    var k := 0;
    while k < |current|
      invariant 0 <= k <= |current| == |exts|
      invariant current[..k] == ExtensionsConcealment(api, exts[..k], concealed).value
      invariant count == start + ExtensionsConcealment(api, exts[..k], concealed).count
      invariant current[k..] == exts[k..]
    {
      var x := api.concealExtensionStateExcept(current[k], concealed);
      assert current[k] == exts[k];
      assert exts[..k + 1][..k] == exts[..k];
      count := count + x.count;
      current := current[k := x.value];
      assert current[..k + 1] == current[..k] + [x.value];
      k := k + 1;
    }
    assert exts[..k] == exts;
    assert current[..k] == current;
    r := Counted(current, count);
  }

  /** The outer `for` of `reveal_seals` over the anchored bundles, replacing
      each bundle in place. */
  method RevealAnchored(api: GraphApi, bs: seq<AnchoredBundle>, known: seq<GraphSeal>)
    returns (r: Counted<seq<AnchoredBundle>>)
    ensures r == AnchoredRevelation(api, bs, known)
  {
    var current := bs;
    var counter: nat := 0;
    var i := 0;
    while i < |current|
      invariant 0 <= i <= |current| == |bs|
      invariant Counted(current[..i], counter) == AnchoredRevelation(api, bs[..i], known)
      invariant current[i..] == bs[i..]
    {
      var entry := current[i];
      assert entry == bs[i];
      var b := RevealBundle(api, entry.bundle, known);
      counter := counter + b.count;
      assert bs[..i + 1][..i] == bs[..i];
      current := current[i := AnchoredBundle(entry.anchor, b.value)];
      assert current[..i + 1] == current[..i] + [current[i]];
      i := i + 1;
    }
    assert bs[..i] == bs;
    assert current[..i] == current;
    r := Counted(current, counter);
  }

  /** The `for` of `reveal_seals` over the extensions, adding to `start`. */
  method RevealExtensions(api: GraphApi, exts: seq<Extension>, known: seq<GraphSeal>, start: nat)
    returns (r: Counted<seq<Extension>>)
    ensures r.value == ExtensionsRevelation(api, exts, known).value
    ensures r.count == start + ExtensionsRevelation(api, exts, known).count
  {
    var current := exts;
    var counter := start;
    var k := 0;
    while k < |current|
      invariant 0 <= k <= |current| == |exts|
      invariant current[..k] == ExtensionsRevelation(api, exts[..k], known).value
      invariant counter == start + ExtensionsRevelation(api, exts[..k], known).count
      invariant current[k..] == exts[k..]
    {
      var extension := current[k];
      assert extension == exts[k];
      var rights := RevealRights(api, extension.ownedRights, known);
      counter := counter + rights.count;
      assert exts[..k + 1][..k] == exts[..k];
      current := current[k := extension.(ownedRights := rights.value)];
      assert current[..k + 1] == current[..k] + [current[k]];
      k := k + 1;
    }
    assert exts[..k] == exts;
    assert current[..k] == current;
    r := Counted(current, counter);
  }

  // ------------------------------------------------------------- the record

  /** `FullConsignment`. Every field is public in the source except the
      version, which only `with` and decoding set. */
  class FullConsignment {
    var version: U8
    var schema: Schema
    var genesis: Genesis
    var endpoints: seq<Endpoint>
    var anchoredBundles: seq<AnchoredBundle>
    var stateExtensions: seq<Extension>

    /** The consignment as a value. */
    function Record(): Fields
      reads this
    {
      Fields(version, schema, genesis, endpoints, anchoredBundles, stateExtensions)
    }

    /** `FullConsignment::with`: the version is always the current one. */
    constructor With(schema: Schema, genesis: Genesis, endpoints: seq<Endpoint>,
                     anchoredBundles: seq<AnchoredBundle>, stateExtensions: seq<Extension>)
      ensures Record() == Fields(ConsignmentVersion, schema, genesis, endpoints, anchoredBundles, stateExtensions)
      ensures Version() == 0
    {
      this.version := ConsignmentVersion;
      this.schema := schema;
      this.genesis := genesis;
      this.endpoints := endpoints;
      this.anchoredBundles := anchoredBundles;
      this.stateExtensions := stateExtensions;
    }

    /** The object `strict_decode_self!` builds from decoded fields. */
    constructor FromFields(f: Fields)
      ensures Record() == f
    {
      this.version := f.version;
      this.schema := f.schema;
      this.genesis := f.genesis;
      this.endpoints := f.endpoints;
      this.anchoredBundles := f.anchoredBundles;
      this.stateExtensions := f.stateExtensions;
    }

    /** `StrictDecode for FullConsignment`; `decodeFields` reads the six
        fields in order from the input. */
    static method StrictDecode(decodeFields: seq<bv8> -> Result<Fields, DecodeError>, data: seq<bv8>)
      returns (r: Result<FullConsignment, DecodeError>)
      ensures r.Ok? <==> decodeFields(data).Ok? && decodeFields(data).value.version == 0
      ensures r.Ok? ==> fresh(r.value) && r.value.Record() == decodeFields(data).value
      ensures r.Ok? ==> r.value.Version() == 0
      ensures r.Err? ==> Err(r.error) == VersionGate(decodeFields(data))
    {
      var gated := VersionGate(decodeFields(data));
      if gated.Err? {
        r := Err(gated.error);
      } else {
        var c := new FullConsignment.FromFields(gated.value);
        r := Ok(c);
      }
    }

    /** `id`: the commitment over the whole content, recomputed on every
        call; `commit` is the tagged consensus commitment. */
    function Id(commit: Fields -> ConsignmentId): ConsignmentId
      reads this
    {
      commit(Record())
    }

    /** `version`. */
    function Version(): (v: U8)
      reads this
      ensures v == Record().version
    {
      version
    }

    /** `txids`: the txid of every anchor. */
    function Txids(): (r: set<Txid>)
      reads this
      ensures forall t :: t in r <==>
                exists i :: 0 <= i < |anchoredBundles| && anchoredBundles[i].anchor.txid == t
      ensures |r| <= |anchoredBundles|
    {
      AnchorTxids(anchoredBundles)
    }

    /** `node_ids`: genesis, every bundle's known nodes and every extension. */
    function NodeIds(api: GraphApi): (r: set<NodeId>)
      reads this
      ensures api.genesisId(genesis) in r
      ensures forall id :: id in r <==>
                || id == api.genesisId(genesis)
                || (exists i :: 0 <= i < |anchoredBundles| && id in api.knownNodeIds(anchoredBundles[i].bundle))
                || (exists i :: 0 <= i < |stateExtensions| && api.extensionId(stateExtensions[i]) == id)
    {
      {api.genesisId(genesis)} + BundlesKnownIds(api, anchoredBundles) + ExtensionIds(api, stateExtensions)
    }

    /** `endpoint_bundle_ids`: the distinct bundle ids of the endpoints, in
        increasing order. */
    function EndpointBundleIds(): (r: seq<BundleId>)
      reads this
      ensures StrictlySorted(r)
      ensures forall b :: b in r <==> exists i :: 0 <= i < |endpoints| && endpoints[i].bundleId == b
      ensures |r| <= |endpoints|
    {
      SortedBundleIds(endpoints)
    }

    /** `endpoint_bundles`: the endpoint bundle ids that resolve, resolved;
        the others are dropped without an error. */
    function EndpointBundles(api: GraphApi): (r: seq<TransitionBundle>)
      reads this
      ensures |r| <= |EndpointBundleIds()|
      ensures |r| == |EndpointBundleIds()| <==>
                forall b :: b in EndpointBundleIds() ==> api.bundleById(anchoredBundles, b).Ok?
      ensures forall k :: 0 <= k < |r| ==>
                exists i :: 0 <= i < |endpoints| && api.bundleById(anchoredBundles, endpoints[i].bundleId) == Ok(r[k])
      ensures forall i :: 0 <= i < |endpoints| && api.bundleById(anchoredBundles, endpoints[i].bundleId).Ok? ==>
                api.bundleById(anchoredBundles, endpoints[i].bundleId).value in r
    {
      ResolvedEndpointBundles(api, anchoredBundles, endpoints);
      ResolveBundles(api, anchoredBundles, EndpointBundleIds())
    }

    /** `endpoint_transition_by_id`, as written: the guard refuses with
        `NotEndpoint` exactly the ids that ARE known nodes of a resolvable
        endpoint bundle; every other id goes to `transition_by_id`. */
    function EndpointTransitionById(api: GraphApi, nodeId: NodeId): (r: Result<Transition, ConsistencyError>)
      reads this
      ensures IsEndpointNode(api, anchoredBundles, endpoints, nodeId) ==> r == Err(NotEndpoint(nodeId))
      ensures !IsEndpointNode(api, anchoredBundles, endpoints, nodeId) ==>
                r == api.transitionById(anchoredBundles, nodeId)
    {
      if AnyEndpointNode(api, anchoredBundles, endpoints, nodeId) then Err(NotEndpoint(nodeId))
      else api.transitionById(anchoredBundles, nodeId)
    }

    /** The guard `endpoint_transition_by_id` evidently means, as its name,
        its error variant and the chain iterator's documentation say: refuse
        every id that is not a known node of a resolvable endpoint bundle. */
    function IntendedEndpointTransitionById(api: GraphApi, nodeId: NodeId): (r: Result<Transition, ConsistencyError>)
      reads this
      ensures !IsEndpointNode(api, anchoredBundles, endpoints, nodeId) ==> r == Err(NotEndpoint(nodeId))
      ensures IsEndpointNode(api, anchoredBundles, endpoints, nodeId) ==>
                r == api.transitionById(anchoredBundles, nodeId)
    {
      if AnyEndpointNode(api, anchoredBundles, endpoints, nodeId) then api.transitionById(anchoredBundles, nodeId)
      else Err(NotEndpoint(nodeId))
    }

    /** The known transitions of every endpoint bundle that resolves. */
    function EndpointKnownTransitions(api: GraphApi): (r: seq<Transition>)
      reads this
      ensures forall x :: x in r <==>
                exists i :: 0 <= i < |endpoints| &&
                  api.knownTransitionsByBundleId(anchoredBundles, endpoints[i].bundleId).Ok? &&
                  x in api.knownTransitionsByBundleId(anchoredBundles, endpoints[i].bundleId).value
    {
      EndpointKnownTransitionsOf(api, anchoredBundles, endpoints);
      KnownTransitionsOf(api, anchoredBundles, EndpointBundleIds())
    }

    /** `endpoint_transitions_by_types`: the known endpoint transitions whose
        type is one of `types`, in bundle order. */
    function EndpointTransitionsByTypes(api: GraphApi, types: seq<TransitionType>): (r: seq<Transition>)
      reads this
      ensures forall x :: x in r ==> x.transitionType in types
      ensures forall x :: x in r <==> x in EndpointKnownTransitions(api) && x.transitionType in types
      ensures |r| <= |EndpointKnownTransitions(api)|
    {
      FilterByTypes(EndpointKnownTransitions(api), types)
    }

    /** `endpoint_transitions_by_type`: the one-type case of the above. */
    function EndpointTransitionsByType(api: GraphApi, transitionType: TransitionType): (r: seq<Transition>)
      reads this
      ensures r == EndpointTransitionsByTypes(api, [transitionType])
      ensures forall x :: x in r <==> x in EndpointKnownTransitions(api) && x.transitionType == transitionType
    {
      EndpointTransitionsByTypes(api, [transitionType])
    }

    /** `finalize`: keeps the endpoints whose seal is exposed, conceals every
        transition (state, then the seals of the dropped endpoints) and every
        extension (state only), and returns the number of concealments. */
    method Finalize(api: GraphApi, expose: seq<SealEndpoint>) returns (count: nat)
      modifies this
      ensures endpoints == KeptEndpoints(old(endpoints), expose)
      ensures var concealed := ConcealAll(api.seals, expose);
              var toConceal := ConcealAll(api.seals, RemovedSeals(old(endpoints), expose));
              var bundles := AnchoredConcealment(api, old(anchoredBundles), concealed, toConceal);
              var exts := ExtensionsConcealment(api, old(stateExtensions), concealed);
              && anchoredBundles == bundles.value
              && stateExtensions == exts.value
              && count == bundles.count + exts.count
      ensures version == old(version) && schema == old(schema) && genesis == old(genesis)
      ensures |anchoredBundles| == |old(anchoredBundles)|
      ensures forall k :: 0 <= k < |anchoredBundles| ==>
                && anchoredBundles[k].anchor == old(anchoredBundles[k].anchor)
                && |anchoredBundles[k].bundle.entries| == |old(anchoredBundles[k].bundle.entries)|
      ensures |stateExtensions| == |old(stateExtensions)|
    {
      var concealed := ConcealAll(api.seals, expose);
      var kept, removed := PartitionEndpoints(endpoints, expose);
      endpoints := kept;
      var toConceal := ConcealAll(api.seals, removed);
      var bs := anchoredBundles;
      var bundles := ConcealAnchored(api, bs, concealed, toConceal);
      anchoredBundles := bundles.value;
      var exts := stateExtensions;
      var extensions := ConcealExtensions(api, exts, concealed, bundles.count);
      stateExtensions := extensions.value;
      count := extensions.count;
      ExtensionsConcealmentShape(api, exts, concealed);
      AnchoredConcealmentShape(api, bs, concealed, toConceal);
    }

    /** `reveal_seals`: offers every assignment of every transition and
        extension the whole `knownSeals` sequence, and returns the number of
        seals revealed. */
    method RevealSeals(api: GraphApi, knownSeals: seq<GraphSeal>) returns (counter: nat)
      modifies this
      ensures var bundles := AnchoredRevelation(api, old(anchoredBundles), knownSeals);
              var exts := ExtensionsRevelation(api, old(stateExtensions), knownSeals);
              && anchoredBundles == bundles.value
              && stateExtensions == exts.value
              && counter == bundles.count + exts.count
      ensures endpoints == old(endpoints)
      ensures version == old(version) && schema == old(schema) && genesis == old(genesis)
      ensures |anchoredBundles| == |old(anchoredBundles)|
      ensures forall k :: 0 <= k < |anchoredBundles| ==> anchoredBundles[k].anchor == old(anchoredBundles[k].anchor)
      ensures |stateExtensions| == |old(stateExtensions)|
    {
      var bs := anchoredBundles;
      var bundles := RevealAnchored(api, bs, knownSeals);
      anchoredBundles := bundles.value;
      var exts := stateExtensions;
      var extensions := RevealExtensions(api, exts, knownSeals, bundles.count);
      stateExtensions := extensions.value;
      counter := extensions.count;
      AnchoredRevelationShape(api, bs, knownSeals);
      ExtensionsRevelationShape(api, exts, knownSeals);
    }
  }

  // ----------------------------------------------------------------- lemmas

  /** Resolving the sorted distinct bundle ids of the endpoints: nothing
      beyond the endpoints' own bundles, and every one of them that
      resolves. */
  lemma ResolvedEndpointBundles(api: GraphApi, bs: seq<AnchoredBundle>, eps: seq<Endpoint>)
    ensures var ids := SortedBundleIds(eps);
            var r := ResolveBundles(api, bs, ids);
            && (|r| == |ids| <==> forall b :: b in ids ==> api.bundleById(bs, b).Ok?)
            && (forall k :: 0 <= k < |r| ==>
                  exists i :: 0 <= i < |eps| && api.bundleById(bs, eps[i].bundleId) == Ok(r[k]))
            && (forall i :: 0 <= i < |eps| && api.bundleById(bs, eps[i].bundleId).Ok? ==>
                  api.bundleById(bs, eps[i].bundleId).value in r)
  {
    var ids := SortedBundleIds(eps);
    var r := ResolveBundles(api, bs, ids);
    assert (forall b :: b in ids ==> api.bundleById(bs, b).Ok?) <==>
           (forall j :: 0 <= j < |ids| ==> api.bundleById(bs, ids[j]).Ok?);
    ResolvedFromEndpoints(api, bs, eps, ids, r);
    EndpointsResolved(api, bs, eps, ids, r);
  }

  /** Every resolved bundle is the bundle of some endpoint. */
  lemma ResolvedFromEndpoints(api: GraphApi, bs: seq<AnchoredBundle>, eps: seq<Endpoint>,
                              ids: seq<BundleId>, r: seq<TransitionBundle>)
    requires ids == SortedBundleIds(eps) && r == ResolveBundles(api, bs, ids)
    ensures forall k :: 0 <= k < |r| ==>
              exists i :: 0 <= i < |eps| && api.bundleById(bs, eps[i].bundleId) == Ok(r[k])
  {
    forall k | 0 <= k < |r|
      ensures exists i :: 0 <= i < |eps| && api.bundleById(bs, eps[i].bundleId) == Ok(r[k])
    {
      var j :| 0 <= j < |ids| && api.bundleById(bs, ids[j]) == Ok(r[k]);
      assert ids[j] in ids;
      var i :| 0 <= i < |eps| && eps[i].bundleId == ids[j];
    }
  }

  /** Every endpoint bundle that resolves is among the resolved bundles. */
  lemma EndpointsResolved(api: GraphApi, bs: seq<AnchoredBundle>, eps: seq<Endpoint>,
                          ids: seq<BundleId>, r: seq<TransitionBundle>)
    requires ids == SortedBundleIds(eps) && r == ResolveBundles(api, bs, ids)
    ensures forall i :: 0 <= i < |eps| && api.bundleById(bs, eps[i].bundleId).Ok? ==>
              api.bundleById(bs, eps[i].bundleId).value in r
  {
    forall i | 0 <= i < |eps| && api.bundleById(bs, eps[i].bundleId).Ok?
      ensures api.bundleById(bs, eps[i].bundleId).value in r
    {
      assert eps[i].bundleId in ids;
      var j :| 0 <= j < |ids| && ids[j] == eps[i].bundleId;
    }
  }

  /** The known transitions of the endpoint bundle ids are those of the
      endpoints' own bundles. */
  lemma EndpointKnownTransitionsOf(api: GraphApi, bs: seq<AnchoredBundle>, eps: seq<Endpoint>)
    ensures forall x :: x in KnownTransitionsOf(api, bs, SortedBundleIds(eps)) <==>
              exists i :: 0 <= i < |eps| &&
                api.knownTransitionsByBundleId(bs, eps[i].bundleId).Ok? &&
                x in api.knownTransitionsByBundleId(bs, eps[i].bundleId).value
  {
    var ids := SortedBundleIds(eps);
    var r := KnownTransitionsOf(api, bs, ids);
    forall x
      ensures x in r <==>
              exists i :: 0 <= i < |eps| &&
                api.knownTransitionsByBundleId(bs, eps[i].bundleId).Ok? &&
                x in api.knownTransitionsByBundleId(bs, eps[i].bundleId).value
    {
      if x in r {
        var j :| 0 <= j < |ids| && api.knownTransitionsByBundleId(bs, ids[j]).Ok? &&
                 x in api.knownTransitionsByBundleId(bs, ids[j]).value;
        assert ids[j] in ids;
        var i :| 0 <= i < |eps| && eps[i].bundleId == ids[j];
      }
      if exists i :: 0 <= i < |eps| &&
           api.knownTransitionsByBundleId(bs, eps[i].bundleId).Ok? &&
           x in api.knownTransitionsByBundleId(bs, eps[i].bundleId).value
      {
        var i :| 0 <= i < |eps| &&
                 api.knownTransitionsByBundleId(bs, eps[i].bundleId).Ok? &&
                 x in api.knownTransitionsByBundleId(bs, eps[i].bundleId).value;
        assert eps[i].bundleId in ids;
        var j :| 0 <= j < |ids| && ids[j] == eps[i].bundleId;
      }
    }
  }

  /** Endpoint filtering distributes over concatenation: it keeps order. */
  lemma {:induction false} FilterConcat(a: seq<Endpoint>, b: seq<Endpoint>, expose: seq<SealEndpoint>)
    ensures KeptEndpoints(a + b, expose) == KeptEndpoints(a, expose) + KeptEndpoints(b, expose)
    ensures RemovedSeals(a + b, expose) == RemovedSeals(a, expose) + RemovedSeals(b, expose)
    decreases |a|
  {
    if a == [] {
      assert a + b == b;
    } else {
      var ab := a + b;
      assert ab[0] == a[0];
      assert ab[1..] == a[1..] + b;
      FilterConcat(a[1..], b, expose);
      var keptTail := KeptEndpoints(a[1..], expose);
      var removedTail := RemovedSeals(a[1..], expose);
      if a[0].seal in expose {
        assert KeptEndpoints(ab, expose) == [a[0]] + (keptTail + KeptEndpoints(b, expose));
        assert KeptEndpoints(a, expose) == [a[0]] + keptTail;
        assert RemovedSeals(ab, expose) == removedTail + RemovedSeals(b, expose);
        assert RemovedSeals(a, expose) == removedTail;
      } else {
        assert KeptEndpoints(ab, expose) == keptTail + KeptEndpoints(b, expose);
        assert KeptEndpoints(a, expose) == keptTail;
        assert RemovedSeals(ab, expose) == [a[0].seal] + (removedTail + RemovedSeals(b, expose));
        assert RemovedSeals(a, expose) == [a[0].seal] + removedTail;
      }
    }
  }

  /** The kept endpoints are exactly the old endpoints with an exposed seal;
      the removed seals are exactly the seals of the others. */
  lemma {:induction false} FilterMembership(eps: seq<Endpoint>, expose: seq<SealEndpoint>)
    ensures forall e :: e in KeptEndpoints(eps, expose) <==> e in eps && e.seal in expose
    ensures forall s :: s in RemovedSeals(eps, expose) <==> s !in expose && exists e :: e in eps && e.seal == s
    decreases |eps|
  {
    if eps != [] {
      FilterMembership(eps[1..], expose);
      assert forall e :: e in eps <==> e == eps[0] || e in eps[1..];
    }
  }

  /** Every old endpoint goes to exactly one side: kept, or its seal among
      the removed ones. */
  lemma {:induction false} FilterPartition(eps: seq<Endpoint>, expose: seq<SealEndpoint>)
    ensures |KeptEndpoints(eps, expose)| + |RemovedSeals(eps, expose)| == |eps|
    ensures multiset(SealsOf(KeptEndpoints(eps, expose))) + multiset(RemovedSeals(eps, expose)) == multiset(SealsOf(eps))
    decreases |eps|
  {
    if eps != [] {
      FilterPartition(eps[1..], expose);
      var head := eps[0].seal;
      var keptTail := KeptEndpoints(eps[1..], expose);
      var removedTail := RemovedSeals(eps[1..], expose);
      assert multiset(SealsOf(eps)) == multiset{head} + multiset(SealsOf(eps[1..]));
      if head in expose {
        var kept := [eps[0]] + keptTail;
        assert KeptEndpoints(eps, expose) == kept;
        assert kept[0] == eps[0] && kept[1..] == keptTail;
        assert multiset(SealsOf(kept)) == multiset{head} + multiset(SealsOf(keptTail));
        assert RemovedSeals(eps, expose) == removedTail;
      } else {
        assert KeptEndpoints(eps, expose) == keptTail;
        assert RemovedSeals(eps, expose) == [head] + removedTail;
        assert multiset([head] + removedTail) == multiset{head} + multiset(removedTail);
      }
    }
  }

  /** Filtering twice with the same exposed set changes nothing and drops
      nothing: a second `finalize` keeps the endpoints and has no seal to
      conceal. */
  lemma {:induction false} FilterIdempotent(eps: seq<Endpoint>, expose: seq<SealEndpoint>)
    ensures KeptEndpoints(KeptEndpoints(eps, expose), expose) == KeptEndpoints(eps, expose)
    ensures RemovedSeals(KeptEndpoints(eps, expose), expose) == []
    decreases |eps|
  {
    if eps != [] {
      FilterIdempotent(eps[1..], expose);
      var rest := KeptEndpoints(eps[1..], expose);
      if eps[0].seal in expose {
        assert KeptEndpoints(eps, expose) == [eps[0]] + rest;
        assert ([eps[0]] + rest)[1..] == rest;
      }
    }
  }

  /** `finalize` on bundles: same number of bundles, each anchor in place,
      each bundle's entries concealed one by one with their inputs kept. */
  lemma {:induction false} EntriesConcealmentShape(api: GraphApi, es: seq<BundleEntry>, concealed: seq<SecretSeal>, toConceal: seq<SecretSeal>)
    ensures var r := EntriesConcealment(api, es, concealed, toConceal).value;
            && |r| == |es|
            && forall k :: 0 <= k < |es| ==>
                 && r[k].inputs == es[k].inputs
                 && r[k].transition == TransitionConcealment(api, es[k].transition, concealed, toConceal).value
    decreases |es|
  {
    if es != [] {
      EntriesConcealmentShape(api, es[..|es| - 1], concealed, toConceal);
    }
  }

  lemma {:induction false} AnchoredConcealmentShape(api: GraphApi, bs: seq<AnchoredBundle>, concealed: seq<SecretSeal>, toConceal: seq<SecretSeal>)
    ensures var r := AnchoredConcealment(api, bs, concealed, toConceal).value;
            && |r| == |bs|
            && forall k :: 0 <= k < |bs| ==>
                 && r[k].anchor == bs[k].anchor
                 && r[k].bundle.entries == EntriesConcealment(api, bs[k].bundle.entries, concealed, toConceal).value
                 && |r[k].bundle.entries| == |bs[k].bundle.entries|
    decreases |bs|
  {
    if bs != [] {
      AnchoredConcealmentShape(api, bs[..|bs| - 1], concealed, toConceal);
      EntriesConcealmentShape(api, bs[|bs| - 1].bundle.entries, concealed, toConceal);
    }
  }

  /** After `finalize`, the transition at bundle `k`, entry `m` is the old one
      concealed, and its inputs are the old inputs. */
  lemma FinalizeKeepsInputs(api: GraphApi, bs: seq<AnchoredBundle>, concealed: seq<SecretSeal>, toConceal: seq<SecretSeal>, k: nat, m: nat)
    requires k < |bs| && m < |bs[k].bundle.entries|
    ensures var r := AnchoredConcealment(api, bs, concealed, toConceal).value;
            && k < |r| && m < |r[k].bundle.entries|
            && r[k].bundle.entries[m].inputs == bs[k].bundle.entries[m].inputs
            && r[k].bundle.entries[m].transition ==
                 TransitionConcealment(api, bs[k].bundle.entries[m].transition, concealed, toConceal).value
  {
    AnchoredConcealmentShape(api, bs, concealed, toConceal);
    EntriesConcealmentShape(api, bs[k].bundle.entries, concealed, toConceal);
  }

  lemma {:induction false} ExtensionsConcealmentShape(api: GraphApi, exts: seq<Extension>, concealed: seq<SecretSeal>)
    ensures var r := ExtensionsConcealment(api, exts, concealed).value;
            && |r| == |exts|
            && forall k :: 0 <= k < |exts| ==> r[k] == api.concealExtensionStateExcept(exts[k], concealed).value
    decreases |exts|
  {
    if exts != [] {
      ExtensionsConcealmentShape(api, exts[..|exts| - 1], concealed);
    }
  }

  /** `reveal_seals` on the owned rights of one node: each assignment is
      replaced by its revelation against the whole known sequence; the right
      types stay in place. */
  lemma {:induction false} RightsRevelationShape(api: GraphApi, rights: seq<OwnedRight>, known: seq<GraphSeal>)
    ensures var r := RightsRevelation(api, rights, known).value;
            && |r| == |rights|
            && forall k :: 0 <= k < |rights| ==>
                 && r[k].rightType == rights[k].rightType
                 && r[k].assignment == api.revealSeals(rights[k].assignment, known).value
    decreases |rights|
  {
    if rights != [] {
      RightsRevelationShape(api, rights[..|rights| - 1], known);
    }
  }

  lemma {:induction false} EntriesRevelationShape(api: GraphApi, es: seq<BundleEntry>, known: seq<GraphSeal>)
    ensures var r := EntriesRevelation(api, es, known).value;
            && |r| == |es|
            && forall k :: 0 <= k < |es| ==>
                 && r[k].inputs == es[k].inputs
                 && r[k].transition.transitionType == es[k].transition.transitionType
                 && r[k].transition.rest == es[k].transition.rest
                 && r[k].transition.ownedRights == RightsRevelation(api, es[k].transition.ownedRights, known).value
    decreases |es|
  {
    if es != [] {
      EntriesRevelationShape(api, es[..|es| - 1], known);
    }
  }

  lemma {:induction false} AnchoredRevelationShape(api: GraphApi, bs: seq<AnchoredBundle>, known: seq<GraphSeal>)
    ensures var r := AnchoredRevelation(api, bs, known).value;
            && |r| == |bs|
            && forall k :: 0 <= k < |bs| ==>
                 && r[k].anchor == bs[k].anchor
                 && r[k].bundle.entries == EntriesRevelation(api, bs[k].bundle.entries, known).value
                 && |r[k].bundle.entries| == |bs[k].bundle.entries|
    decreases |bs|
  {
    if bs != [] {
      AnchoredRevelationShape(api, bs[..|bs| - 1], known);
      EntriesRevelationShape(api, bs[|bs| - 1].bundle.entries, known);
    }
  }

  lemma {:induction false} ExtensionsRevelationShape(api: GraphApi, exts: seq<Extension>, known: seq<GraphSeal>)
    ensures var r := ExtensionsRevelation(api, exts, known).value;
            && |r| == |exts|
            && forall k :: 0 <= k < |exts| ==>
                 && r[k].extensionType == exts[k].extensionType
                 && r[k].rest == exts[k].rest
                 && r[k].ownedRights == RightsRevelation(api, exts[k].ownedRights, known).value
    decreases |exts|
  {
    if exts != [] {
      ExtensionsRevelationShape(api, exts[..|exts| - 1], known);
    }
  }

  /** The revelation count is the sum of the per-assignment counts. */
  lemma {:induction false} RightsRevelationCount(api: GraphApi, rights: seq<OwnedRight>, known: seq<GraphSeal>)
    ensures RightsRevelation(api, rights, known).count == SumReveals(api, rights, known)
    decreases |rights|
  {
    if rights != [] {
      RightsRevelationCount(api, rights[..|rights| - 1], known);
      SumRevealsSnoc(api, rights[..|rights| - 1], rights[|rights| - 1], known);
      assert rights[..|rights| - 1] + [rights[|rights| - 1]] == rights;
    }
  }

  /** Reference sum, from the front, of the per-assignment reveal counts. */
  function SumReveals(api: GraphApi, rights: seq<OwnedRight>, known: seq<GraphSeal>): nat
    decreases |rights|
  {
    if rights == [] then 0
    else api.revealSeals(rights[0].assignment, known).count + SumReveals(api, rights[1..], known)
  }

  lemma {:induction false} SumRevealsSnoc(api: GraphApi, rights: seq<OwnedRight>, last: OwnedRight, known: seq<GraphSeal>)
    ensures SumReveals(api, rights + [last], known) == SumReveals(api, rights, known) + api.revealSeals(last.assignment, known).count
    decreases |rights|
  {
    if rights != [] {
      assert (rights + [last])[1..] == rights[1..] + [last];
      SumRevealsSnoc(api, rights[1..], last, known);
    }
  }

  /** The guard as written and the intended guard disagree on every id whose
      transition exists: exactly one of them lets it through. */
  lemma GuardsDisagree(api: GraphApi, c: FullConsignment, id: NodeId)
    requires api.transitionById(c.anchoredBundles, id).Ok?
    ensures c.EndpointTransitionById(api, id).Ok? <==> !IsEndpointNode(api, c.anchoredBundles, c.endpoints, id)
    ensures c.IntendedEndpointTransitionById(api, id).Ok? <==> IsEndpointNode(api, c.anchoredBundles, c.endpoints, id)
    ensures c.EndpointTransitionById(api, id) != c.IntendedEndpointTransitionById(api, id)
  {
  }

  /** The intended guard hands back the transition of a known node of an
      endpoint's resolvable bundle, the id the written guard refuses. */
  lemma IntendedAcceptsEndpointNode(api: GraphApi, c: FullConsignment, i: nat, id: NodeId)
    requires i < |c.endpoints|
    requires api.bundleById(c.anchoredBundles, c.endpoints[i].bundleId).Ok?
    requires id in api.knownNodeIds(api.bundleById(c.anchoredBundles, c.endpoints[i].bundleId).value)
    ensures c.IntendedEndpointTransitionById(api, id) == api.transitionById(c.anchoredBundles, id)
    ensures c.EndpointTransitionById(api, id) == Err(NotEndpoint(id))
  {
  }

  // ------------------------------------------------ a second `finalize`

  /** What a second `finalize` with the same exposed seals relies on from
      the concealment helpers, whose bodies are not part of this model:
      concealing no seals counts nothing, and state concealment finds
      nothing left in a transition or extension already concealed with the
      same exposed seals. */
  ghost predicate ConcealmentSettles(api: GraphApi, concealed: seq<SecretSeal>)
  {
    && (forall t: Transition :: api.concealSeals(t, []).count == 0)
    && (forall t: Transition, toConceal: seq<SecretSeal> ::
          api.concealStateExcept(TransitionConcealment(api, t, concealed, toConceal).value, concealed).count == 0)
    && (forall x: Extension ::
          api.concealExtensionStateExcept(api.concealExtensionStateExcept(x, concealed).value, concealed).count == 0)
  }

  lemma {:induction false} EntriesSecondPass(api: GraphApi, es: seq<BundleEntry>, concealed: seq<SecretSeal>, toConceal: seq<SecretSeal>)
    requires ConcealmentSettles(api, concealed)
    ensures EntriesConcealment(api, EntriesConcealment(api, es, concealed, toConceal).value, concealed, []).count == 0
    decreases |es|
  {
    if es != [] {
      var init := EntriesConcealment(api, es[..|es| - 1], concealed, toConceal);
      EntriesSecondPass(api, es[..|es| - 1], concealed, toConceal);
      var last := es[|es| - 1];
      var t := TransitionConcealment(api, last.transition, concealed, toConceal);
      var once := init.value + [BundleEntry(t.value, last.inputs)];
      assert once[..|once| - 1] == init.value;
      var st := api.concealStateExcept(t.value, concealed);
      assert st.count == 0;
      assert api.concealSeals(st.value, []).count == 0;
    }
  }

  lemma {:induction false} AnchoredSecondPass(api: GraphApi, bs: seq<AnchoredBundle>, concealed: seq<SecretSeal>, toConceal: seq<SecretSeal>)
    requires ConcealmentSettles(api, concealed)
    ensures AnchoredConcealment(api, AnchoredConcealment(api, bs, concealed, toConceal).value, concealed, []).count == 0
    decreases |bs|
  {
    if bs != [] {
      var init := AnchoredConcealment(api, bs[..|bs| - 1], concealed, toConceal);
      AnchoredSecondPass(api, bs[..|bs| - 1], concealed, toConceal);
      var last := bs[|bs| - 1];
      var e := EntriesConcealment(api, last.bundle.entries, concealed, toConceal);
      var once := init.value + [AnchoredBundle(last.anchor, TransitionBundle(e.value))];
      assert once[..|once| - 1] == init.value;
      EntriesSecondPass(api, last.bundle.entries, concealed, toConceal);
    }
  }

  lemma {:induction false} ExtensionsSecondPass(api: GraphApi, exts: seq<Extension>, concealed: seq<SecretSeal>)
    requires ConcealmentSettles(api, concealed)
    ensures ExtensionsConcealment(api, ExtensionsConcealment(api, exts, concealed).value, concealed).count == 0
    decreases |exts|
  {
    if exts != [] {
      var init := ExtensionsConcealment(api, exts[..|exts| - 1], concealed);
      ExtensionsSecondPass(api, exts[..|exts| - 1], concealed);
      var x := api.concealExtensionStateExcept(exts[|exts| - 1], concealed);
      var once := init.value + [x.value];
      assert once[..|once| - 1] == init.value;
      assert api.concealExtensionStateExcept(x.value, concealed).count == 0;
    }
  }

  /** A second `finalize` with the same exposed seals, on the state the
      first one left, keeps the endpoints and makes no concealment, provided
      the concealment helpers settle. */
  lemma FinalizeTwiceCountsNothing(api: GraphApi, eps: seq<Endpoint>, bs: seq<AnchoredBundle>, exts: seq<Extension>, expose: seq<SealEndpoint>)
    requires ConcealmentSettles(api, ConcealAll(api.seals, expose))
    ensures var concealed := ConcealAll(api.seals, expose);
            var kept := KeptEndpoints(eps, expose);
            var bs1 := AnchoredConcealment(api, bs, concealed, ConcealAll(api.seals, RemovedSeals(eps, expose))).value;
            var exts1 := ExtensionsConcealment(api, exts, concealed).value;
            && KeptEndpoints(kept, expose) == kept
            && AnchoredConcealment(api, bs1, concealed, ConcealAll(api.seals, RemovedSeals(kept, expose))).count
               + ExtensionsConcealment(api, exts1, concealed).count == 0
  {
    var concealed := ConcealAll(api.seals, expose);
    FilterIdempotent(eps, expose);
    assert ConcealAll(api.seals, RemovedSeals(KeptEndpoints(eps, expose), expose)) == [];
    AnchoredSecondPass(api, bs, concealed, ConcealAll(api.seals, RemovedSeals(eps, expose)));
    ExtensionsSecondPass(api, exts, concealed);
  }

  /** As written, the endpoint guard refuses a known node of an endpoint
      bundle, the very id an endpoint query is meant to accept. */
  lemma EndpointNodeIsRefused(api: GraphApi, c: FullConsignment, i: nat, id: NodeId)
    requires i < |c.endpoints|
    requires api.bundleById(c.anchoredBundles, c.endpoints[i].bundleId).Ok?
    requires id in api.knownNodeIds(api.bundleById(c.anchoredBundles, c.endpoints[i].bundleId).value)
    ensures c.EndpointTransitionById(api, id) == Err(NotEndpoint(id))
  {
  }
}

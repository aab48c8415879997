# rgb-std consignment core, modelled in Dafny

This project models three parts of the RGB standard library:

- the **consignment container** `FullConsignment` (`src/consignment.rs`);
- the **seal model** of `std/src/containers/seal.rs`;
- the **chain iterator** `ChainIter` (`src/iter.rs`).

A consignment is the package of contract data one party sends another. It holds the schema and the genesis. It also holds the declared endpoints, which are pairs of a bundle id and a seal endpoint. Then come the anchored transition bundles and the state extensions.

The model covers these operations:

- decoding refuses every consignment version other than 0;
- the set-valued queries `txids` and `node_ids`;
- the endpoint queries;
- `finalize`, which keeps only the exposed endpoints and conceals everything else for one recipient. It returns the number of concealments made;
- `reveal_seals`, which un-blinds seals the receiver knows. It returns the number revealed;
- the seal constructors, conversions, concealment and parser;
- the chain iterator. It walks from its start transition back along one owned-right type, and records the first lookup error. As written, the walk only begins from starts that the inverted endpoint guard lets through (see below): a known node of a resolvable endpoint bundle gives an empty iterator.

Files:

- `Prelude.dfy`: `Option`, `Result`, the fixed-width integer types, and `Txid`.
- `Seals.dfy`: `VoutSeal`, `TerminalSeal` and their operations. `GraphSeal` and `SecretSeal` come from the commitment library. Their operations are collected in the record `SealLib`.
- `Graph.dfy`: identifiers, transitions, extensions, bundles and anchors. `GraphApi` collects the graph operations of the core protocol library. `InsertSorted` models a `BTreeSet` as its strictly increasing iteration sequence.
- `Consignment.dfy`: the `FullConsignment` class and the version gate. It holds the queries and the specification functions of `finalize` and `reveal_seals`. The loop methods that implement those two are each proved equal to their specification function. Lemmas about the specification functions complete the file.
- `Iter.dfy` contains the following:
  - a pure `Step` function for one `next` call, and `Run` for many calls;
  - lemmas about runs: fused after `None`, a sticky error, and coherence;
  - the `ChainIter` class, whose `Next` method is proved equal to `Step`;
  - the start of `transition_witness_iter`.

Operations whose bodies live in other crates are passed in as function-valued fields of `SealLib` and `GraphApi`. The model itself assumes nothing about them beyond their types. Some lemmas take facts about them as preconditions, and hold only where those facts do:

- `WithVoutIsWitness(lib)` states that `GraphSeal::with_vout` builds a seal relative to the witness transaction. `GraphSealFrom`'s contract, `VoutRoundTrip`, `ConcealCanonical` and `DisplayWitnessRoundTrip` rely on it.
- `DisplayConcealedRoundTrip` requires that the text form of a `SecretSeal` parses back to the same seal.
- `DisplayWitnessRoundTrip` requires two things of the printed graph seal: it parses back to the same `GraphSeal`, and the `SecretSeal` grammar rejects it.
- `ConcealedGrammarWins` requires that both grammars accept the given text.
- `ConcealmentSettles(api, concealed)` states three facts about the concealment helpers of the core protocol library: `conceal_seals` with no seals counts nothing; `conceal_state_except` finds nothing left to conceal in a transition it has already concealed with the same seals; and the extension state concealment finds nothing left in its own output. `EntriesSecondPass`, `AnchoredSecondPass`, `ExtensionsSecondPass` and `FinalizeTwiceCountsNothing` rely on it.

Opaque payloads are abstract types: `Schema`, `Genesis`, `Assignment`, node content and Merkle proofs. The random blinding factor of `VoutSeal::new` is passed as a parameter.

The code is modelled as written. In two places it does something other than what its names and doc comments say; "## Findings" lists both, with the intended behaviour modelled beside the written one.

## Model

| member | source | states |
|---|---|---|
| Consignment.VersionGate | src/consignment.rs:137-143 | decoding succeeds exactly when the fields decode and the version is 0; any other version gives `UnsupportedDataStructure` with the fixed message; a field error is passed on unchanged |
| Consignment.FullConsignment.FromFields | src/consignment.rs:137 | the object `strict_decode_self!` builds holds exactly the decoded fields, in order |
| Consignment.FullConsignment.StrictDecode | src/consignment.rs:135-145 | a fresh consignment holding the decoded fields when the version gate passes, otherwise the gate's error |
| Consignment.FullConsignment.With | src/consignment.rs:151-166 | the new consignment holds the given parts, and its version is `RGB_CONSIGNMENT_VERSION` = 0 |
| Consignment.FullConsignment.Version | src/consignment.rs:172 | the version field as stored |
| Consignment.AnchorTxids | src/consignment.rs:176-179 | a txid is in the set iff some anchor carries it; at most one txid per bundle |
| Consignment.FullConsignment.Txids | src/consignment.rs:175-180 | a txid is in `txids` iff some anchored bundle's anchor has it; the set is no larger than the bundle list |
| Consignment.BundlesKnownIds | src/consignment.rs:186-189 | a node id is in the union iff some bundle knows it |
| Consignment.ExtensionIds | src/consignment.rs:190 | a node id is in the set iff it is the id of some extension |
| Consignment.FullConsignment.NodeIds | src/consignment.rs:183-192 | genesis is always in the set; an id is in it iff it is genesis, a known node of some bundle, or the id of some extension |
| Graph.InsertSorted | src/consignment.rs:196-200 | inserting into a strictly sorted id sequence keeps it strictly sorted, adds exactly the new id, and grows it by at most one |
| Consignment.SortedBundleIds | src/consignment.rs:195-201 | the collected ids are strictly increasing, contain exactly the endpoints' bundle ids, and are no more than the endpoints |
| Consignment.FullConsignment.EndpointBundleIds | src/consignment.rs:195-201 | the distinct endpoint bundle ids in increasing order; membership iff some endpoint names that bundle |
| Consignment.ResolveBundles | src/consignment.rs:205-208 | the result is no longer than the ids, as long exactly when every id resolves, holds only resolved bundles, and holds every bundle that resolves |
| Consignment.ResolvedFromEndpoints | src/consignment.rs:204-209 | every bundle `endpoint_bundles` returns is the bundle of some endpoint |
| Consignment.EndpointsResolved | src/consignment.rs:204-209 | every endpoint whose bundle resolves has that bundle in the result |
| Consignment.ResolvedEndpointBundles | src/consignment.rs:204-209 | no bundle is silently lost unless its id fails to resolve; the result is drawn from the endpoints' bundles and covers all of them |
| Consignment.FullConsignment.EndpointBundles | src/consignment.rs:204-209 | no more bundles than distinct endpoint bundle ids, equally many exactly when all resolve, sound and complete w.r.t. the endpoints |
| Consignment.AnyEndpointNode | src/consignment.rs:216-221 | the `any` is true iff the id is a known node of some endpoint bundle that resolves |
| Consignment.FullConsignment.EndpointTransitionById | src/consignment.rs:212-227 | as written: `NotEndpoint(id)` for a known node of a resolvable endpoint bundle, otherwise exactly `transition_by_id(id)` |
| Consignment.EndpointNodeIsRefused | src/consignment.rs:216-223 | a known node of an endpoint's resolvable bundle is refused with `NotEndpoint` |
| Consignment.FullConsignment.IntendedEndpointTransitionById | src/consignment.rs:212-227 | the guard the function's name and error variant mean: `NotEndpoint(id)` for every id that is not a known node of a resolvable endpoint bundle, otherwise exactly `transition_by_id(id)` |
| Consignment.GuardsDisagree | src/consignment.rs:216-226 | for every id whose transition exists, the written guard lets it through iff it is not an endpoint node and the intended guard iff it is, so the two results always differ |
| Consignment.IntendedAcceptsEndpointNode | src/consignment.rs:216-226 | a known node of an endpoint's resolvable bundle gets its transition from the intended guard and `NotEndpoint` from the written one |
| Consignment.KnownTransitionsOf | src/consignment.rs:244-245 | a transition is in the flattened list iff some id's `known_transitions_by_bundle_id` succeeds and contains it |
| Consignment.EndpointKnownTransitionsOf | src/consignment.rs:242-245 | the transitions gathered over the distinct endpoint bundle ids are exactly those of the endpoints' own bundles that resolve |
| Consignment.FullConsignment.EndpointKnownTransitions | src/consignment.rs:242-245 | a transition is listed iff the bundle of some endpoint yields it |
| Consignment.FilterByTypes | src/consignment.rs:246 | a transition survives iff it was in the input and its type is among the requested |
| Consignment.FullConsignment.EndpointTransitionsByTypes | src/consignment.rs:238-248 | every result has a requested type; membership iff a known endpoint transition of a requested type; never longer than the unfiltered list |
| Consignment.FullConsignment.EndpointTransitionsByType | src/consignment.rs:230-235 | equals the multi-type query on the singleton list, so membership iff the transition has that type |
| Consignment.ConcealAll | src/consignment.rs:251-254 | one concealed seal per seal endpoint, in order, each its canonical concealment |
| Consignment.PartitionEndpoints | src/consignment.rs:256-269 | the filter loop keeps exactly `KeptEndpoints` and pushes exactly `RemovedSeals` |
| Consignment.FilterConcat | src/consignment.rs:257-269 | keeping and removing distribute over concatenation, so both keep the original order |
| Consignment.FilterMembership | src/consignment.rs:261-268 | an endpoint is kept iff it was present and its seal is exposed; a seal is removed iff it is not exposed and some endpoint had it |
| Consignment.FilterPartition | src/consignment.rs:261-268 | kept plus removed have the original length, and their seals together are the original seals as a multiset |
| Consignment.FilterIdempotent | src/consignment.rs:257-269 | filtering the kept endpoints again keeps all of them and removes nothing, so a second `finalize` with the same exposure has no seal to conceal |
| Consignment.EntriesSecondPass | src/consignment.rs:280-288 | concealing an already concealed bundle's entries again, with no seals to conceal, counts nothing when the helpers settle |
| Consignment.AnchoredSecondPass | src/consignment.rs:276-291 | the same for all anchored bundles |
| Consignment.ExtensionsSecondPass | src/consignment.rs:295-300 | the same for the extensions |
| Consignment.FinalizeTwiceCountsNothing | src/consignment.rs:250-303 | a second `finalize` with the same exposed seals keeps every endpoint and returns 0, when the helpers settle |
| Consignment.ConcealBundle | src/consignment.rs:280-288 | the per-bundle loop gives exactly `EntriesConcealment`, entries and summed count |
| Consignment.ConcealAnchored | src/consignment.rs:276-291 | the bundle loop gives exactly `AnchoredConcealment`, bundles and summed count |
| Consignment.ConcealExtensions | src/consignment.rs:295-300 | the fold conceals each extension's state in place and adds its count to the running total |
| Consignment.EntriesConcealmentShape | src/consignment.rs:282-287 | same number of entries; each keeps its inputs; each transition is the old one with state concealed and then the removed seals concealed |
| Consignment.AnchoredConcealmentShape | src/consignment.rs:276-293 | same number of bundles, each anchor unchanged, each bundle's entries concealed one by one with unchanged length |
| Consignment.FinalizeKeepsInputs | src/consignment.rs:282-287 | at every bundle and entry position the inputs are the old inputs and the transition is the old one concealed |
| Consignment.ExtensionsConcealmentShape | src/consignment.rs:295-300 | same number of extensions, each only state-concealed (extensions never get `conceal_seals`) |
| Consignment.FullConsignment.Finalize | src/consignment.rs:250-303 | new endpoints are the kept ones; bundles and extensions are the concealment specifications over the exposed and the removed seals; the count is the bundles' sum plus the extensions' sum; version, schema and genesis, the number of bundles, each anchor and the number of entries per bundle are unchanged |
| Consignment.RevealRights | src/consignment.rs:318-320 | the in-place loop over one node's rights gives exactly `RightsRevelation` |
| Consignment.RevealBundle | src/consignment.rs:314-324 | the per-bundle loop gives exactly `EntriesRevelation` |
| Consignment.RevealAnchored | src/consignment.rs:313-325 | the in-place loop over bundles gives exactly `AnchoredRevelation` |
| Consignment.RevealExtensions | src/consignment.rs:326-330 | the in-place loop over extensions gives exactly `ExtensionsRevelation`, count added to the running total |
| Consignment.RightsRevelationShape | src/consignment.rs:318-320 | each right keeps its type and its assignment is replaced by its revelation against the whole known-seal list |
| Consignment.RightsRevelationCount | src/consignment.rs:318-320 | the count is the sum of the per-assignment reveal counts |
| Consignment.EntriesRevelationShape | src/consignment.rs:314-324 | same entries, inputs, transition types and content; only owned rights revealed |
| Consignment.AnchoredRevelationShape | src/consignment.rs:313-325 | same number of bundles and anchors, entries revealed in place |
| Consignment.ExtensionsRevelationShape | src/consignment.rs:326-330 | same number of extensions, same types and content, only owned rights revealed |
| Consignment.FullConsignment.RevealSeals | src/consignment.rs:308-332 | bundles and extensions are the revelation specifications; the counter is their summed count; endpoints, version, schema, genesis, bundle count and anchors unchanged |
| Seals.SealWith | std/src/containers/seal.rs:100-106 | the seal holds exactly the given method, output and blinding |
| Seals.SealWithOpret | std/src/containers/seal.rs:86-88 | `with` with `OpretFirst` |
| Seals.SealWithTapret | std/src/containers/seal.rs:93-95 | `with` with `TapretFirst` |
| Seals.SealNew | std/src/containers/seal.rs:65-67 | the drawn entropy becomes the blinding; method and output as given |
| Seals.SealNewOpret | std/src/containers/seal.rs:73 | a fresh opret seal on the output |
| Seals.SealNewTapret | std/src/containers/seal.rs:79-81 | a fresh tapret seal on the output |
| Seals.GraphSealFrom | std/src/containers/seal.rs:109-111 | the graph seal is witness-relative with the same method, output and blinding (given `with_vout`'s meaning) |
| Seals.TerminalFrom | std/src/containers/seal.rs:142-151 | witness-relative seals become `WitnessVout` with the same fields; seals with a txid become `ConcealedUtxo` of their concealment, and only those |
| Seals.TerminalNewVout | std/src/containers/seal.rs:156-158 | a `WitnessVout` with the given method, output and drawn blinding |
| Seals.Conceal | std/src/containers/seal.rs:161-170 | a concealed seal is its own concealment; a witness output is concealed through its graph seal |
| Seals.FromStr | std/src/containers/seal.rs:184-188 | the concealed grammar wins when it parses; otherwise the graph grammar's result converted; an error only when both fail, and then the graph grammar's error |
| Seals.StrictTag | std/src/containers/seal.rs:131-140 | tag 0 iff `ConcealedUtxo`, tag 1 iff `WitnessVout`, no other tag |
| Seals.StrictDumb | std/src/containers/seal.rs:125 | the placeholder is the `ConcealedUtxo` arm, tag 0 |
| Seals.VoutRoundTrip | std/src/containers/seal.rs:142-151 | a `VoutSeal` turned into a graph seal and back is `WitnessVout` of the same seal |
| Seals.ConcealCanonical | std/src/containers/seal.rs:161-170 | concealing the terminal form of any graph seal equals concealing the graph seal itself |
| Seals.DisplayConcealedRoundTrip | std/src/containers/seal.rs:172-189 | printing and parsing a concealed seal gives it back when the secret-seal text round-trips |
| Seals.DisplayWitnessRoundTrip | std/src/containers/seal.rs:172-189 | printing and parsing a witness-output seal gives it back when its text is not also a concealed seal |
| Seals.ConcealedGrammarWins | std/src/containers/seal.rs:185-187 | text valid in both grammars parses as a concealed seal |
| Iter.Step | src/iter.rs:44-66 | no next item: nothing yielded, nothing changed; an item is yielded iff it has a parent of type `connected_by`, and it is the current item; otherwise the chain ends; with a parent, the next item is the parent's witness lookup, and a failed lookup records its error |
| Iter.Run | src/iter.rs:44-66 | `n` successive `next` calls, threading the state; one item per call |
| Iter.RunFromEmpty | src/iter.rs:45 | with no next item, any number of calls yield `None` and leave the state alone |
| Iter.FusedAfterNone | src/iter.rs:44-57 | once `next` returned `None`, every later call returns `None` |
| Iter.RunNoneThenNone | src/iter.rs:44-57 | within any run of calls, a `None` is followed only by `None`s |
| Iter.ErrorSticky | src/iter.rs:59-65 | once recorded, the error survives any number of further calls |
| Iter.RunCoherent | src/iter.rs:59-65 | every reachable state has no next item whenever it has an error |
| Iter.ChainStart | src/iter.rs:76-87 | the error starts empty; there is a first item iff the endpoint guard passes and the start has a witness, and it is that witness lookup's value |
| Iter.ChainFromEndpointIsEmpty | src/iter.rs:76-87 | as written, a start at an endpoint node yields an empty iterator with no error |
| Iter.NonEndpointStartNotReported | src/iter.rs:82-87 | as written, a start that is not an endpoint node is not reported: `is_err` is false and `into_result` is `Ok(())` |
| Iter.IntendedChainStart | src/iter.rs:75-88 | the start as documented: a refusal of the intended guard becomes the error with no next item; otherwise there is no error, a first item exists iff the witness lookup succeeds, and it is the lookup's value |
| Iter.IntendedRefusalReported | src/iter.rs:70-74 | from the intended start, a start that is not an endpoint node gives `is_err` and `into_result == Err(NotEndpoint(start))` |
| Iter.ChainIter.constructor | src/iter.rs:75-88 | the iterator starts in `ChainStart`, not terminated, with no error |
| Iter.ChainIter.Next | src/iter.rs:44-66 | the new state and the returned item are one `Step`; after a `None` it is terminated and stays unchanged |
| Iter.ChainIter.IsErr | src/iter.rs:28 | true iff an error is recorded |
| Iter.ChainIter.IntoResult | src/iter.rs:32-38 | `Err(e)` iff the recorded error is `e`, otherwise `Ok(())` |
| Iter.TransitionWitnessIter | src/iter.rs:90-102 | no bundles: no current transitions; otherwise the first anchor's txid with the first bundle's known transitions, and the cursor holds the remaining bundles; the requested types are kept |

## Left out

- Consignment.FullConsignment.Id: the consensus commitment hash is a parameter; no property of the hash is stated.
- Seals.Display: the text forms of `SecretSeal` and `GraphSeal` are parameters; only the round-trip lemmas speak about printing.
- Hashing of node, bundle and consignment ids, and the tagged-hash midstate: ids are plain numbers.
- Strict encoding of the six fields is a parameter of `StrictDecode`; byte layouts are not modelled.
- `thread_rng`: the blinding entropy is a parameter of the `new` constructors.
- `TransitionBundle` is a `BTreeMap` keyed by transition; the model keeps its entries as a sequence and does not model re-keying and reordering when concealed transitions are collected again.
- `SealEndpoint`, used by the consignment, belongs to the core protocol library. The model puts `TerminalSeal` in its place, which has the same two arms. `SealEndpoint::commit_conceal` is modelled by `Seals.Conceal`.
- `expose` is a `BTreeSet`; the model takes it as a sequence, so `concealed_endpoints` follows the given order.
- Consignment.FullConsignment.Finalize: a bundle is modelled only by its revealed `(transition, inputs)` entries, the ones `bundle.into_iter()` yields. Any part of a bundle that iteration does not yield is not modelled, nor is whether `TransitionBundle::from` keeps or drops it. The promise that the number of entries per bundle is unchanged covers the revealed entries only. Each bundle is kept positionally: the source re-collects the pairs into a `BTreeMap` keyed by the concealed transition, which merges two entries whose concealed transitions coincide, so its entry count can drop. The model does not capture this merge.
- Consignment.FullConsignment.RevealSeals: likewise, only the revealed entries of a bundle are modelled. Whether the rebuild through `.collect::<BTreeMap<_, _>>().into()` keeps or drops anything else of a bundle is not modelled. That rebuild also merges two entries whose revealed transitions coincide; the model keeps entries positionally and does not capture this merge.
- Consignment.FinalizeTwiceCountsNothing: that a second `finalize` counts nothing rests on `ConcealmentSettles`. Its clauses: `conceal_seals` with no seals counts nothing; `conceal_state_except` and the extension state concealment find nothing left to conceal in their own output. The bodies of those helpers are not part of this model, so this is a precondition, not a proved fact. `Consignment.FilterIdempotent` proves the endpoint half unconditionally.
- Consignment.FullConsignment.Finalize: the count is an unbounded `nat`; `usize` overflow is not modelled.
- Consignment.FullConsignment.Finalize: the `LargeVec` bound of 2^32 elements behind `try_into().expect(..)` is not modelled; the length is preserved, so the conversion cannot fail.
- Consignment.FullConsignment.RevealSeals: the counter is an unbounded `nat`; overflow is not modelled.
- `MeshIter`'s `Iterator` implementation is not part of this model; only the state `transition_witness_iter` creates is.
- Chain length: that a chain ends needs an acyclic graph, which the graph operations as parameters do not promise; only the per-call and run properties are stated.
- Validation, the command-line tool and the standard-library generator are not part of this model.
- Merkle proofs inside anchors are opaque and carried unchanged.

## Findings

| source | as written | input that shows it | evidently intended | confidence | as-written member | corrected member |
|---|---|---|---|---|---|---|
| src/consignment.rs:216-224 | `endpoint_transition_by_id` returns `NotEndpoint` when the id is among the known node ids of a resolvable endpoint bundle, and passes every other id to `transition_by_id` | an id that is a known node of an endpoint's resolvable bundle and whose `transition_by_id` is `Ok`: the written guard gives `NotEndpoint`, the intended one the transition (`GuardsDisagree`) | refuse exactly the ids that are not known nodes of a resolvable endpoint bundle | high (not executed) | Consignment.EndpointNodeIsRefused | Consignment.FullConsignment.IntendedEndpointTransitionById |
| src/iter.rs:82-87 | `chain_iter` sets `error: None` whatever the guard said, so a refused start gives an empty iterator with `is_err() == false` and `into_result() == Ok(())` | a start that is not a known node of any resolvable endpoint bundle: the written start reports no error | the guard's refusal recorded as the iterator's error (`NotEndpoint(start)`), as the doc comments at src/iter.rs:70-74 and src/iter.rs:27-31 suggest (`is_err` and `into_result` report the error that terminated the iterator) | high (not executed) | Iter.NonEndpointStartNotReported | Iter.IntendedChainStart |

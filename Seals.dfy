/** Single-use seals that bind contract state to a transaction output
    (std/src/containers/seal.rs): the witness-relative `VoutSeal`, the
    two-armed `TerminalSeal`, their conversions to and from the graph-level
    seal, the one canonical concealment and the text parser. */
module Seals {
  import opened Prelude

  /** Which commitment scheme closes the seal. */
  datatype CloseMethod = OpretFirst | TapretFirst

  /** Output number inside a transaction (`bp::Vout`, a `u32`). */
  type Vout = U32

  /** The transaction a graph seal points into: the (not yet known) witness
      transaction of the node carrying it, or an explicit transaction id. */
  datatype TxPtr = WitnessTx | TxidPtr(txid: Txid)

  /** `GraphSeal`: a revealed seal definition of the node graph. */
  datatype GraphSeal = GraphSeal(closeMethod: CloseMethod, txid: TxPtr, vout: Vout, blinding: U64)

  /** `SecretSeal`: the concealed (hashed) form of a seal. */
  datatype SecretSeal = SecretSeal(digest: nat)

  /** Error of the text parsers of `SecretSeal` and `GraphSeal`. */
  type ParseError(==, !new)

  /** The seal operations of the commitment library whose bodies lie outside
      this repository: `GraphSeal::with_vout`, `GraphSeal::conceal`, the
      `FromStr` and `Display` implementations of `SecretSeal` and
      `GraphSeal`, and the strict-encoding placeholder of `SecretSeal`. */
  datatype SealLib = SealLib(
    withVout: (CloseMethod, Vout, U64) -> GraphSeal,
    conceal: GraphSeal -> SecretSeal,
    parseSecret: string -> Result<SecretSeal, ParseError>,
    parseGraph: string -> Result<GraphSeal, ParseError>,
    displaySecret: SecretSeal -> string,
    displayGraph: GraphSeal -> string,
    dumbSecret: SecretSeal)

  /** `with_vout` builds a witness-relative seal with the given fields. */
  ghost predicate WithVoutIsWitness(lib: SealLib)
  {
    forall m: CloseMethod, v: Vout, b: U64 :: lib.withVout(m, v, b) == GraphSeal(m, WitnessTx, v, b)
  }

  /** Seal definition re-using the witness transaction of some other seal:
      only the output number is known. */
  datatype VoutSeal = VoutSeal(closeMethod: CloseMethod, vout: Vout, blinding: U64)

  /** Seal endpoint: a concealed seal of some external output, or an output
      of the witness transaction together with its blinding factor. */
  datatype TerminalSeal = ConcealedUtxo(secret: SecretSeal) | WitnessVout(seal: VoutSeal)

  // ---------------------------------------------------------------- VoutSeal

  /** `VoutSeal::with`: reconstructs a seal from a known blinding factor. */
  function SealWith(closeMethod: CloseMethod, vout: Vout, blinding: U64): (s: VoutSeal)
    ensures s.closeMethod == closeMethod && s.vout == vout && s.blinding == blinding
  {
    VoutSeal(closeMethod, vout, blinding)
  }

  /** `VoutSeal::with_opret`. */
  function SealWithOpret(vout: Vout, blinding: U64): (s: VoutSeal)
    ensures s == SealWith(OpretFirst, vout, blinding)
    ensures s.closeMethod == OpretFirst && s.vout == vout && s.blinding == blinding
  {
    SealWith(OpretFirst, vout, blinding)
  }

  /** `VoutSeal::with_tapret`. */
  function SealWithTapret(vout: Vout, blinding: U64): (s: VoutSeal)
    ensures s == SealWith(TapretFirst, vout, blinding)
    ensures s.closeMethod == TapretFirst && s.vout == vout && s.blinding == blinding
  {
    SealWith(TapretFirst, vout, blinding)
  }

  /** `VoutSeal::new`; `entropy` is the value `thread_rng().next_u64()` drew. */
  function SealNew(closeMethod: CloseMethod, vout: Vout, entropy: U64): (s: VoutSeal)
    ensures s.closeMethod == closeMethod && s.vout == vout && s.blinding == entropy
  {
    SealWith(closeMethod, vout, entropy)
  }

  /** `VoutSeal::new_opret`. */
  function SealNewOpret(vout: Vout, entropy: U64): (s: VoutSeal)
    ensures s.closeMethod == OpretFirst && s.vout == vout && s.blinding == entropy
  {
    SealNew(OpretFirst, vout, entropy)
  }

  /** `VoutSeal::new_tapret`. */
  function SealNewTapret(vout: Vout, entropy: U64): (s: VoutSeal)
    ensures s.closeMethod == TapretFirst && s.vout == vout && s.blinding == entropy
  {
    SealNew(TapretFirst, vout, entropy)
  }

  /** `From<VoutSeal> for GraphSeal`. */
  function GraphSealFrom(lib: SealLib, s: VoutSeal): (g: GraphSeal)
    ensures WithVoutIsWitness(lib) ==> g == GraphSeal(s.closeMethod, WitnessTx, s.vout, s.blinding)
  {
    lib.withVout(s.closeMethod, s.vout, s.blinding)
  }

  // ------------------------------------------------------------ TerminalSeal

  /** `From<GraphSeal> for TerminalSeal`: a witness-relative seal keeps its
      fields, a seal with an explicit txid is concealed. */
  function TerminalFrom(lib: SealLib, g: GraphSeal): (t: TerminalSeal)
    ensures g.txid.WitnessTx? <==> t.WitnessVout?
    ensures g.txid.WitnessTx? ==> t.seal == VoutSeal(g.closeMethod, g.vout, g.blinding)
    ensures g.txid.TxidPtr? ==> t.secret == lib.conceal(g)
  {
    match g.txid
    case WitnessTx => WitnessVout(SealWith(g.closeMethod, g.vout, g.blinding))
    case TxidPtr(_) => ConcealedUtxo(lib.conceal(g))
  }

  /** `TerminalSeal::new_vout`; `entropy` is the drawn blinding factor. */
  function TerminalNewVout(closeMethod: CloseMethod, vout: Vout, entropy: U64): (t: TerminalSeal)
    ensures t.WitnessVout? && t.seal.closeMethod == closeMethod && t.seal.vout == vout
    ensures t.seal.blinding == entropy
  {
    WitnessVout(SealNew(closeMethod, vout, entropy))
  }

  /** `Conceal for TerminalSeal`: both arms end in the same concealed form. */
  function Conceal(lib: SealLib, t: TerminalSeal): (h: SecretSeal)
    ensures t.ConcealedUtxo? ==> h == t.secret
    ensures t.WitnessVout? ==> h == lib.conceal(GraphSealFrom(lib, t.seal))
  {
    match t
    case ConcealedUtxo(secret) => secret
    case WitnessVout(seal) => lib.conceal(GraphSealFrom(lib, seal))
  }

  /** `Display for TerminalSeal`. */
  function Display(lib: SealLib, t: TerminalSeal): string
  {
    match t
    case ConcealedUtxo(secret) => lib.displaySecret(secret)
    case WitnessVout(seal) => lib.displayGraph(GraphSealFrom(lib, seal))
  }

  /** `FromStr for TerminalSeal`: the concealed grammar is tried first; only
      when it fails is the revealed grammar tried. */
  function FromStr(lib: SealLib, s: string): (r: Result<TerminalSeal, ParseError>)
    ensures lib.parseSecret(s).Ok? ==> r == Ok(ConcealedUtxo(lib.parseSecret(s).value))
    ensures lib.parseSecret(s).Err? && lib.parseGraph(s).Ok? ==>
              r == Ok(TerminalFrom(lib, lib.parseGraph(s).value))
    ensures r.Err? <==> lib.parseSecret(s).Err? && lib.parseGraph(s).Err?
    ensures r.Err? ==> r.error == lib.parseGraph(s).error
  {
    match lib.parseSecret(s)
    case Ok(secret) => Ok(ConcealedUtxo(secret))
    case Err(_) =>
      match lib.parseGraph(s)
      case Ok(g) => Ok(TerminalFrom(lib, g))
      case Err(e) => Err(e)
  }

  /** Strict-encoding discriminant of each arm (`tags = custom`). */
  function StrictTag(t: TerminalSeal): (tag: U8)
    ensures tag == 0 <==> t.ConcealedUtxo?
    ensures tag == 1 <==> t.WitnessVout?
    ensures tag <= 1
  {
    match t
    case ConcealedUtxo(_) => 0
    case WitnessVout(_) => 1
  }

  /** Strict-encoding placeholder value (`dumb = ConcealedUtxo(...)`). */
  function StrictDumb(lib: SealLib): (t: TerminalSeal)
    ensures t == ConcealedUtxo(lib.dumbSecret) && StrictTag(t) == 0
  {
    ConcealedUtxo(lib.dumbSecret)
  }

  // ----------------------------------------------------------------- lemmas

  /** Converting a `VoutSeal` to a graph seal and back gives the
      witness-output arm holding the very same seal. */
  lemma VoutRoundTrip(lib: SealLib, s: VoutSeal)
    requires WithVoutIsWitness(lib)
    ensures TerminalFrom(lib, GraphSealFrom(lib, s)) == WitnessVout(s)
  {
  }

  /** Concealment is canonical: whichever arm a graph seal converts to, its
      concealed form is the graph seal's own concealment. */
  lemma ConcealCanonical(lib: SealLib, g: GraphSeal)
    requires WithVoutIsWitness(lib)
    ensures Conceal(lib, TerminalFrom(lib, g)) == lib.conceal(g)
  {
    match g.txid
    case WitnessTx =>
      assert GraphSealFrom(lib, VoutSeal(g.closeMethod, g.vout, g.blinding)) == g;
    case TxidPtr(_) =>
  }

  /** A concealed seal printed and parsed back is the same seal, provided the
      concealed-seal text form round-trips. */
  lemma DisplayConcealedRoundTrip(lib: SealLib, h: SecretSeal)
    requires lib.parseSecret(lib.displaySecret(h)) == Ok(h)
    ensures FromStr(lib, Display(lib, ConcealedUtxo(h))) == Ok(ConcealedUtxo(h))
  {
  }

  /** A witness-output seal printed and parsed back is the same seal when the
      graph-seal text round-trips and is not also accepted by the concealed
      grammar, which `FromStr` tries first. */
  lemma DisplayWitnessRoundTrip(lib: SealLib, s: VoutSeal)
    requires WithVoutIsWitness(lib)
    requires lib.parseSecret(lib.displayGraph(GraphSealFrom(lib, s))).Err?
    requires lib.parseGraph(lib.displayGraph(GraphSealFrom(lib, s))) == Ok(GraphSealFrom(lib, s))
    ensures FromStr(lib, Display(lib, WitnessVout(s))) == Ok(WitnessVout(s))
  {
    VoutRoundTrip(lib, s);
  }

  /** The parse order matters: text that the concealed grammar accepts is
      read as a concealed seal even when it is also a valid graph seal. */
  lemma ConcealedGrammarWins(lib: SealLib, s: string)
    requires lib.parseSecret(s).Ok? && lib.parseGraph(s).Ok?
    ensures FromStr(lib, s).Ok? && FromStr(lib, s).value.ConcealedUtxo?
  {
  }
}

/** The quantization range tuner of qa_conv (config.py). Every PIM unit
 *  keeps real-valued log2 thresholds for its activation, weight and bias;
 *  only their rounded values reach the hardware. The tuner moves an
 *  activation threshold until the effective ADC exponent
 *  round(curr) - round(prev) - round(weight) fits the range
 *  [min, max - acti_bit_width], then clamps the bias threshold. */
module QuantConfig {
  import opened Wrappers

  // ---------------------------------------------------------------------
  // Rounding
  // ---------------------------------------------------------------------

  /** torch.round: the nearest integer, a tie going to the even one. */
  function Round(x: real): (r: int)
    ensures -0.5 <= x - r as real <= 0.5
    ensures (x - r as real == 0.5 || x - r as real == -0.5) ==> r % 2 == 0
  {
    var f := x.Floor;
    var frac := x - f as real;
    if frac < 0.5 then f
    else if frac > 0.5 then f + 1
    else if f % 2 == 0 then f
    else f + 1
  }

  /** An integer rounds to itself. */
  lemma RoundOfInteger(n: int)
    ensures Round(n as real) == n
  {
    assert (n as real).Floor == n;
  }

  /** Shifting by an integer shifts the rounded value by the same amount,
   *  unless the value is a tie and the shift is odd. */
  lemma RoundShift(x: real, k: int)
    requires x - x.Floor as real != 0.5 || k % 2 == 0
    ensures Round(x - k as real) == Round(x) - k
  {
    var f := x.Floor;
    assert (x - k as real).Floor == f - k;
    if x - f as real == 0.5 {
      assert (f - k) % 2 == f % 2 by {
        assert f - k == f + 2 * (-(k / 2));
      }
    }
  }

  // ---------------------------------------------------------------------
  // Range specification and effective exponent
  // ---------------------------------------------------------------------

  /** The bit widths of weights, biases and activations (config.Config,
   *  defaults 5, 12 and 5). */
  datatype BitWidths = BitWidths(weight: int, bias: int, acti: int)

  const DEFAULT_WIDTHS: BitWidths := BitWidths(5, 12, 5)

  /** The ADC specification: precision and the log2 range it covers. */
  datatype Spec = Spec(precision: int, minRange: int, maxRange: int)

  /** set_qa_conv_spec's entry check: the range must hold the precision. */
  function SetSpec(precision: int, minRange: int, maxRange: int): (r: Option<Spec>)
    ensures r.Some? <==> maxRange - minRange >= precision
    ensures r.Some? ==> r.value.maxRange - r.value.minRange >= r.value.precision
    ensures r.Some? ==> r.value == Spec(precision, minRange, maxRange)
  {
    if maxRange >= precision + minRange then Some(Spec(precision, minRange, maxRange)) else None
  }

  /** The kinds of module the tuner distinguishes. */
  datatype NodeKind =
    | Conv2dBNReLUNode
    | Conv2dBNNode
    | ReLUNode
    | ShareQuantNode
    | LinearNode
    | OtherNode

  /** The rounded thresholds get_effective_log2_t returns. */
  datatype Log2T = Log2T(curr: int, prev: int, weight: int, bias: int)

  /** The exponent the ADC must cover. */
  function Effective(t: Log2T): int
  {
    t.curr - t.prev - t.weight
  }

  /** The exponent of the activation times weight product. */
  function ActiWgt(t: Log2T): int
  {
    t.prev + t.weight
  }

  /** The two exponents add up to the output's rounded threshold. */
  lemma EffectivePlusActiWgt(t: Log2T)
    ensures Effective(t) + ActiWgt(t) == t.curr
  {
  }

  /** Which modules get_effective_log2_t has thresholds for: a fused
   *  convolution, or a ReLU/ShareQuant right after Conv2dBN or Linear. */
  predicate HasThresholds(kind: NodeKind, prevKind: NodeKind)
  {
    kind in {Conv2dBNReLUNode, Conv2dBNNode}
    || (kind in {ReLUNode, ShareQuantNode} && prevKind in {Conv2dBNNode, LinearNode})
  }

  /** get_effective_log2_t: the rounded thresholds of the module's output,
   *  of its input activation, of its weights and of its bias. For a fused
   *  convolution `prevActi` is the predecessor's threshold and the weight
   *  and bias are the module's own; for a ReLU or ShareQuant they come from
   *  the convolution before it and `prevActi` from the one before that. */
  function GetEffective(kind: NodeKind, prevKind: NodeKind,
                        curr: real, prevActi: real, weight: real, bias: real): (r: Option<Log2T>)
    ensures r.Some? <==> HasThresholds(kind, prevKind)
    ensures r.Some? ==> Effective(r.value) == Round(curr) - Round(prevActi) - Round(weight)
    ensures r.Some? ==> ActiWgt(r.value) == Round(prevActi) + Round(weight)
    ensures r.Some? ==> r.value.bias == Round(bias)
  {
    if HasThresholds(kind, prevKind)
    then Some(Log2T(Round(curr), Round(prevActi), Round(weight), Round(bias)))
    else None
  }

  /** The exit check of the tuner. */
  predicate InRange(effective: int, spec: Spec, actiWidth: int)
  {
    spec.minRange <= effective && effective + actiWidth <= spec.maxRange
  }

  /** The amount the tuner subtracts from the activation threshold: the
   *  shortfall below the minimum, else the excess above the maximum. */
  function Adjustment(effective: int, spec: Spec, actiWidth: int): (d: int)
    ensures d == 0 <==> InRange(effective, spec, actiWidth)
    ensures effective < spec.minRange ==> effective - d == spec.minRange
    ensures spec.minRange <= effective && effective + actiWidth > spec.maxRange ==>
              effective - d + actiWidth == spec.maxRange
    ensures spec.minRange + actiWidth <= spec.maxRange ==> InRange(effective - d, spec, actiWidth)
  {
    if effective < spec.minRange then effective - spec.minRange
    else if effective + actiWidth > spec.maxRange then effective + actiWidth - spec.maxRange
    else 0
  }

  /** Which modules the tuner adjusts: a fused Conv-BN-ReLU after a
   *  Conv2dBN, Conv-BN-ReLU, ReLU or ShareQuant, and a ReLU or ShareQuant
   *  after a Conv2dBN. */
  predicate Tunes(kind: NodeKind, prevKind: NodeKind)
  {
    (kind == Conv2dBNReLUNode
       && prevKind in {Conv2dBNNode, Conv2dBNReLUNode, ReLUNode, ShareQuantNode})
    || (kind in {ReLUNode, ShareQuantNode} && prevKind == Conv2dBNNode)
  }

  /** Every module the tuner adjusts has thresholds. */
  lemma TunedHaveThresholds(kind: NodeKind, prevKind: NodeKind)
    requires Tunes(kind, prevKind)
    ensures HasThresholds(kind, prevKind)
  {
  }

  // ---------------------------------------------------------------------
  // The threshold update
  // ---------------------------------------------------------------------

  /** The update as config.py writes it: `acti_log2_t -= d` on the real
   *  threshold. */
  function ShiftActiAsWritten(acti: real, d: int): (r: real)
    ensures r + d as real == acti
  {
    acti - d as real
  }

  /** Away from ties, or for an even adjustment, the update moves the
   *  rounded threshold by exactly d. */
  lemma ShiftActiAsWrittenAwayFromTies(acti: real, d: int)
    requires acti - acti.Floor as real != 0.5 || d % 2 == 0
    ensures Round(ShiftActiAsWritten(acti, d)) == Round(acti) - d
  {
    RoundShift(acti, d);
  }

  /** On a tie with an odd adjustment the update misses: with the default
   *  widths and the range [-1, 9], an output threshold of 6.5 over an input
   *  threshold of 0 and a weight threshold of 1 gives an effective exponent
   *  of 5, one too many; the threshold moves to 5.5, which still rounds to
   *  6, and the exit check fails. */
  lemma ShiftActiAsWrittenMissesOnTie()
    ensures Round(6.5) == 6 && Round(5.5) == 6
    ensures Adjustment(Round(6.5) - Round(0.0) - Round(1.0), Spec(10, -1, 9), DEFAULT_WIDTHS.acti) == 1
    ensures !InRange(Round(ShiftActiAsWritten(6.5, 1)) - Round(0.0) - Round(1.0),
                     Spec(10, -1, 9), DEFAULT_WIDTHS.acti)
  {
    assert (6.5).Floor == 6;
    assert (5.5).Floor == 5;
    assert (0.0).Floor == 0;
    assert (1.0).Floor == 1;
  }

  /** The corrected update: the threshold is set to its rounded value minus
   *  d, so its rounded value moves by exactly d. */
  function ShiftActi(acti: real, d: int): (r: real)
    ensures Round(r) == Round(acti) - d
  {
    RoundOfInteger(Round(acti) - d);
    (Round(acti) - d) as real
  }

  /** clip_bias: the rounded bias threshold clamped into
   *  [actiWgt + bias - acti - weight, actiWgt + bias - weight]. */
  function ClipBias(bias: real, actiWgt: int, w: BitWidths): (r: int)
    ensures var lo := actiWgt + (w.bias - w.acti - w.weight);
            var hi := actiWgt + (w.bias - w.weight);
            && (w.acti >= 0 ==> lo <= r <= hi)
            && (lo <= Round(bias) <= hi ==> r == Round(bias))
            && (Round(bias) < lo ==> r == lo)
            && (lo <= Round(bias) && Round(bias) > hi ==> r == hi)
  {
    var rb := Round(bias);
    if rb < actiWgt + (w.bias - w.acti - w.weight) then actiWgt + (w.bias - w.acti - w.weight)
    else if rb > actiWgt + (w.bias - w.weight) then actiWgt + (w.bias - w.weight)
    else rb
  }

  /** Clamping twice is clamping once. */
  lemma ClipBiasIdempotent(bias: real, actiWgt: int, w: BitWidths)
    requires w.acti >= 0
    ensures ClipBias(ClipBias(bias, actiWgt, w) as real, actiWgt, w) == ClipBias(bias, actiWgt, w)
  {
    RoundOfInteger(ClipBias(bias, actiWgt, w));
  }

  /** The thresholds of one PIM unit. */
  class PimUnit {
    var actiLog2T: real
    var weightLog2T: real
    var biasLog2T: real

    constructor (acti: real, weight: real, bias: real)
      ensures actiLog2T == acti && weightLog2T == weight && biasLog2T == bias
    {
      actiLog2T := acti;
      weightLog2T := weight;
      biasLog2T := bias;
    }
  }

  /** The weight threshold get_effective_log2_t uses: the unit's own for a
   *  fused convolution, the preceding convolution's for a ReLU. */
  function WeightOf(unit: PimUnit, kind: NodeKind, prevWeight: real): real
    reads unit
  {
    if kind == Conv2dBNReLUNode then unit.weightLog2T else prevWeight
  }

  /** tune_log2_t_for_pim on one module, with the corrected threshold
   *  update. `prevKind` is None when the module has no predecessor;
   *  `prevActi` and `prevWeight` are the thresholds get_effective_log2_t
   *  reads from the modules before it. The result is false where the
   *  source's exit assertion fails. */
  method Tune(unit: PimUnit, kind: NodeKind, prevKind: Option<NodeKind>,
              prevActi: real, prevWeight: real, spec: Spec, w: BitWidths) returns (ok: bool)
    modifies unit
    ensures unit.weightLog2T == old(unit.weightLog2T)
    ensures kind !in {Conv2dBNReLUNode, ReLUNode, ShareQuantNode} || prevKind.None? ==>
              ok && unit.actiLog2T == old(unit.actiLog2T) && unit.biasLog2T == old(unit.biasLog2T)
    ensures prevKind.Some? && !Tunes(kind, prevKind.value) ==> unit.actiLog2T == old(unit.actiLog2T)
    ensures kind != Conv2dBNReLUNode ==> unit.biasLog2T == old(unit.biasLog2T)
    ensures prevKind.Some? && kind in {Conv2dBNReLUNode, ReLUNode, ShareQuantNode} ==>
              var t := GetEffective(kind, prevKind.value, unit.actiLog2T, prevActi,
                                    WeightOf(unit, kind, prevWeight), unit.biasLog2T);
              && (ok <==> t.None? || InRange(Effective(t.value), spec, w.acti))
              && (kind == Conv2dBNReLUNode ==>
                    unit.biasLog2T == ClipBias(old(unit.biasLog2T), ActiWgt(t.value), w) as real)
    ensures (prevKind.Some? && Tunes(kind, prevKind.value)
             && spec.minRange + w.acti <= spec.maxRange) ==> ok
    ensures prevKind.Some? && Tunes(kind, prevKind.value) ==>
              var t0 := old(GetEffective(kind, prevKind.value, unit.actiLog2T, prevActi,
                                         WeightOf(unit, kind, prevWeight), unit.biasLog2T));
              t0.Some?
              && var d := Adjustment(Effective(t0.value), spec, w.acti);
                 unit.actiLog2T == if d == 0 then old(unit.actiLog2T) else ShiftActi(old(unit.actiLog2T), d)
  {
    if kind !in {Conv2dBNReLUNode, ReLUNode, ShareQuantNode} || prevKind.None? {
      return true;
    }
    var pk := prevKind.value;
    var weight := WeightOf(unit, kind, prevWeight);
    if Tunes(kind, pk) {
      var t := GetEffective(kind, pk, unit.actiLog2T, prevActi, weight, unit.biasLog2T);
      var d := Adjustment(Effective(t.value), spec, w.acti);
      if d != 0 {
        unit.actiLog2T := ShiftActi(unit.actiLog2T, d);
      }
    }
    var t := GetEffective(kind, pk, unit.actiLog2T, prevActi, weight, unit.biasLog2T);
    if kind == Conv2dBNReLUNode {
      unit.biasLog2T := ClipBias(unit.biasLog2T, ActiWgt(t.value), w) as real;
    }
    ok := t.None? || InRange(Effective(t.value), spec, w.acti);
  }
}

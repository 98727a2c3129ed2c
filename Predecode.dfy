/** Sizing of the NAND-flash row predecoder (PredecodeBlock::Initialize in
 *  nand_flash_sim): how an address of n bits is split over 1→2, 2→4 and
 *  3→8 basic decoders, how those are grouped into first-stage NAND row
 *  decoders (1A, 1B, 1C) in front of a second-stage row decoder, and how
 *  many gate inputs each decoder output drives. Loads are counted in gate
 *  inputs of the driven stage; the capacitances, resistances and the
 *  analog models behind them are not part of this model. */
module Predecode {
  import opened Wrappers

  /** The widest address the predecoder accepts. */
  const MAX_ADDRESS_BITS: nat := 27

  function Pow2(e: nat): (r: nat)
    ensures r >= 1
  {
    if e == 0 then 1 else 2 * Pow2(e - 1)
  }

  lemma {:induction false} Pow2Add(a: nat, b: nat)
    ensures Pow2(a + b) == Pow2(a) * Pow2(b)
  {
    if a > 0 {
      Pow2Add(a - 1, b);
      assert Pow2(a + b) == 2 * (Pow2(a - 1) * Pow2(b));
    }
  }

  datatype InitError = InvalidAddressBits

  // ---------------------------------------------------------------------
  // Basic decoder counts
  // ---------------------------------------------------------------------

  /** numDecoder12, numDecoder24 and numDecoder38. */
  datatype DecoderCounts = DecoderCounts(d12: nat, d24: nat, d38: nat)

  /** The basic decoders an address of n >= 1 bits is split into: one 1→2
   *  decoder for a single bit, otherwise 3→8 decoders and the 2→4 decoders
   *  the remainder modulo 3 needs. */
  function CountsOf(n: nat): (c: DecoderCounts)
    requires n >= 1
    ensures c.d12 + 2 * c.d24 + 3 * c.d38 == n
    ensures c.d12 <= 1 && c.d24 <= 2
    ensures c.d12 == 1 <==> n == 1
  {
    if n == 1 then DecoderCounts(1, 0, 0)
    else
      var d24 := if n % 3 == 2 then 1 else if n % 3 == 1 then 2 else 0;
      DecoderCounts(0, d24, (n - 2 * d24) / 3)
  }

  /** Of all ways to cover n >= 2 bits with 2→4 and 3→8 decoders, the one
   *  chosen uses the fewest decoders, and it is the only one with at most
   *  two 2→4 decoders. */
  lemma FewestDecoders(n: nat, d24: nat, d38: nat)
    requires n >= 2 && 2 * d24 + 3 * d38 == n
    ensures CountsOf(n).d24 + CountsOf(n).d38 <= d24 + d38
    ensures d24 <= 2 ==> CountsOf(n) == DecoderCounts(0, d24, d38)
  {
    var c := CountsOf(n);
    // 2 * (d24 - c.d24) == 3 * (c.d38 - d38), so d24 - c.d24 == 3 * w
    var w := (d24 - c.d24) - (c.d38 - d38);
    assert d24 - c.d24 == 3 * w;
    assert c.d38 - d38 == 2 * w;
  }

  /** numBasicDecoder: the number of basic decoders, one per three address
   *  bits rounded up. */
  function BasicTotal(n: nat): (k: nat)
    requires n >= 1
    ensures k == (n + 2) / 3
    ensures n <= MAX_ADDRESS_BITS ==> 1 <= k <= 9
  {
    CountsOf(n).d12 + CountsOf(n).d24 + CountsOf(n).d38
  }

  // ---------------------------------------------------------------------
  // First-stage split
  // ---------------------------------------------------------------------

  /** One number per first-stage row decoder 1A, 1B and 1C. */
  datatype PerStage = PerStage(a: nat, b: nat, c: nat)

  /** numNandInputStage1A/1B/1C: how k >= 2 basic decoders are shared among
   *  the first-stage NAND decoders (the fewest stages of at most three
   *  inputs, balanced, the larger share in 1A). */
  function SplitOf(k: nat): (s: PerStage)
    requires 2 <= k <= 9
    ensures s.a + s.b + s.c == k
    ensures s.c <= s.b <= s.a <= 3 && 2 <= s.a
    ensures s.b > 0 <==> k > 3
    ensures s.c > 0 <==> k > 6
    ensures s.b > 0 ==> s.a <= s.b + 1
    ensures s.c > 0 ==> s.a <= s.c + 1
  {
    if k <= 3 then PerStage(k, 0, 0)
    else if k <= 6 then PerStage(k - k / 2, k / 2, 0)
    else if k == 7 then PerStage(3, 2, 2)
    else if k == 8 then PerStage(3, 3, 2)
    else PerStage(3, 3, 3)
  }

  /** The split is the only one with those properties. */
  lemma SplitUnique(k: nat, s: PerStage)
    requires 2 <= k <= 9
    requires s.a + s.b + s.c == k
    requires s.c <= s.b <= s.a <= 3
    requires (s.b > 0 <==> k > 3) && (s.c > 0 <==> k > 6)
    requires s.b > 0 ==> s.a <= s.b + 1
    requires s.c > 0 ==> s.a <= s.c + 1
    ensures s == SplitOf(k)
  {
  }

  /** The address bits each first-stage decoder decodes when there is a
   *  second stage (n >= 10): the 2→4 decoders all sit in stage 1A, so the
   *  three stages together decode the whole address. */
  function StageBits(n: nat): (bits: PerStage)
    requires 10 <= n <= MAX_ADDRESS_BITS
    ensures bits.a + bits.b + bits.c == n
    ensures bits.b == 3 * SplitOf(BasicTotal(n)).b && bits.c == 3 * SplitOf(BasicTotal(n)).c
  {
    var s := SplitOf(BasicTotal(n));
    PerStage(3 * s.a - CountsOf(n).d24, 3 * s.b, 3 * s.c)
  }

  // ---------------------------------------------------------------------
  // Row decoders
  // ---------------------------------------------------------------------

  /** What the outputs of a decoder drive: gate inputs of the next stage,
   *  or the load given to Initialize. */
  datatype Load = NandInputs(count: nat) | ExternalLoad

  /** A row decoder with its number of outputs (rows) and its load. */
  datatype RowDecoder = RowDecoder(rows: nat, load: Load)

  /** rowDecoderStage2, rowDecoderStage1A/1B/1C; None is a null pointer. */
  datatype Rows = Rows(stage2: Option<RowDecoder>, a: Option<RowDecoder>,
                       b: Option<RowDecoder>, c: Option<RowDecoder>)

  /** The row decoders of a two-level predecoder: a second stage of total
   *  rows fed by 1A, 1B and, when three, 1C, decoding bits.a, bits.b and
   *  bits.c address bits. Each first-stage output drives one input of
   *  every second-stage NAND that selects it, i.e. as many as the other
   *  first stages have rows together. */
  function TwoLevelRows(total: nat, bits: PerStage, three: bool): (r: Rows)
  {
    var ra, rb, rc := Pow2(bits.a), Pow2(bits.b), Pow2(bits.c);
    if !three then
      Rows(Some(RowDecoder(total, ExternalLoad)), Some(RowDecoder(ra, NandInputs(rb))),
           Some(RowDecoder(rb, NandInputs(ra))), None)
    else
      Rows(Some(RowDecoder(total, ExternalLoad)), Some(RowDecoder(ra, NandInputs(rb * rc))),
           Some(RowDecoder(rb, NandInputs(ra * rc))), Some(RowDecoder(rc, NandInputs(ra * rb))))
  }

  /** The row decoders built for 1 <= n <= 27 address bits: none for a
   *  single basic decoder, stage 1A alone for two or three, and a second
   *  stage fed by 1A, 1B (and 1C from seven basic decoders on) otherwise. */
  function RowsOf(n: nat): (r: Rows)
    requires 1 <= n <= MAX_ADDRESS_BITS
  {
    var k := BasicTotal(n);
    if k <= 1 then Rows(None, None, None, None)
    else if k <= 3 then Rows(None, Some(RowDecoder(Pow2(n), ExternalLoad)), None, None)
    else TwoLevelRows(Pow2(n), StageBits(n), k >= 7)
  }

  /** x * y * z, regrouped. */
  lemma Regroup(x: int, y: int, z: int)
    ensures x * (y * z) == x * y * z && y * (x * z) == x * y * z && z * (x * y) == x * y * z
  {
  }

  /** 2^a * 2^b * 2^c, grouped every way the row decoders use. */
  lemma Pow2Three(a: nat, b: nat, c: nat)
    ensures Pow2(a) * Pow2(b) * Pow2(c) == Pow2(a + b + c)
    ensures Pow2(a) * (Pow2(b) * Pow2(c)) == Pow2(a + b + c)
    ensures Pow2(b) * (Pow2(a) * Pow2(c)) == Pow2(a + b + c)
    ensures Pow2(c) * (Pow2(a) * Pow2(b)) == Pow2(a + b + c)
  {
    Pow2Add(a, b);
    Pow2Add(a + b, c);
    Regroup(Pow2(a), Pow2(b), Pow2(c));
  }

  /** A positive count scaled by x stays the same only for x == 1. */
  lemma ScaleFixed(x: nat, p: nat)
    requires p >= 1
    ensures x * p == p <==> x == 1
  {
    if x >= 2 {
      assert x * p == p + (x - 1) * p;
    }
  }

  lemma Pow2Table()
    ensures Pow2(2) == 4 && Pow2(3) == 8 && Pow2(4) == 16 && Pow2(5) == 32
    ensures Pow2(6) == 64 && Pow2(7) == 128 && Pow2(8) == 256 && Pow2(9) == 512
  {
  }

  /** In a two-level predecoder whose first stages decode all
   *  bits.a + bits.b + bits.c address bits, the first-stage row counts
   *  multiply to the 2^(a+b+c) rows of the second stage, and every output
   *  of a first stage drives 2^(a+b+c) / rows NAND inputs. */
  lemma TwoLevelFanOut(bits: PerStage, three: bool)
    requires !three ==> bits.c == 0
    ensures var r, m := TwoLevelRows(Pow2(bits.a + bits.b + bits.c), bits, three), Pow2(bits.a + bits.b + bits.c);
      && r.stage2 == Some(RowDecoder(m, ExternalLoad))
      && r.a.Some? && r.b.Some? && (r.c.Some? <==> three)
      && (!three ==> r.a.value.rows * r.b.value.rows == m)
      && (three ==> r.a.value.rows * r.b.value.rows * r.c.value.rows == m)
      && r.a.value.rows * r.a.value.load.count == m
      && r.b.value.rows * r.b.value.load.count == m
      && (three ==> r.c.value.rows * r.c.value.load.count == m)
  {
    if three {
      Pow2Three(bits.a, bits.b, bits.c);
    } else {
      Pow2Add(bits.a, bits.b);
    }
  }

  /** Which row decoders are built: none up to 3 address bits, stage 1A
   *  alone up to 9, a second stage fed by 1A and 1B up to 18, and 1C too
   *  from 19 bits on. A second stage, or 1A alone, has the 2^n rows of
   *  the whole address and drives the external load. */
  lemma RowsShape(n: nat)
    requires 1 <= n <= MAX_ADDRESS_BITS
    ensures var r := RowsOf(n);
      && (r.a.None? <==> n <= 3)
      && (r.stage2.None? <==> n <= 9)
      && (r.b.Some? <==> r.stage2.Some?)
      && (r.c.Some? <==> n >= 19)
      && (r.stage2.Some? ==> r.stage2.value == RowDecoder(Pow2(n), ExternalLoad))
      && (r.a.Some? && r.stage2.None? ==> r.a.value == RowDecoder(Pow2(n), ExternalLoad))
  {
    var k := BasicTotal(n);
    if k >= 4 {
      assert RowsOf(n) == TwoLevelRows(Pow2(n), StageBits(n), k >= 7);
    }
  }

  /** The row decoders decode the whole address: the first-stage row
   *  counts multiply to the 2^n rows of the second stage, and every
   *  output of a first stage drives 2^n / rows NAND inputs, one per
   *  second-stage row that selects it. */
  lemma RowsDecodeAddress(n: nat)
    requires 10 <= n <= MAX_ADDRESS_BITS
    ensures var r := RowsOf(n);
      && r.a.Some? && r.b.Some? && r.a.value.load.NandInputs? && r.b.value.load.NandInputs?
      && (r.c.None? ==> r.a.value.rows * r.b.value.rows == Pow2(n))
      && (r.c.Some? ==> r.a.value.rows * r.b.value.rows * r.c.value.rows == Pow2(n))
      && r.a.value.rows * r.a.value.load.count == Pow2(n)
      && r.b.value.rows * r.b.value.load.count == Pow2(n)
      && (r.c.Some? ==> r.c.value.rows * r.c.value.load.count == Pow2(n))
  {
    var k := BasicTotal(n);
    var bits := StageBits(n);
    assert RowsOf(n) == TwoLevelRows(Pow2(bits.a + bits.b + bits.c), bits, k >= 7);
    TwoLevelFanOut(bits, k >= 7);
  }

  /** With seven to nine basic decoders, 1B and 1C have 64 or 512 rows. */
  lemma ThreeStageRows(n: nat)
    requires 19 <= n <= MAX_ADDRESS_BITS
    ensures BasicTotal(n) == 7 ==> RowsOf(n).b.value.rows == 64 && RowsOf(n).c.value.rows == 64
    ensures BasicTotal(n) == 8 ==> RowsOf(n).b.value.rows == 512 && RowsOf(n).c.value.rows == 64
    ensures BasicTotal(n) == 9 ==> RowsOf(n).b.value.rows == 512 && RowsOf(n).c.value.rows == 512
  {
    var bits := StageBits(n);
    assert RowsOf(n) == TwoLevelRows(Pow2(n), bits, true);
    Pow2Table();
  }

  // ---------------------------------------------------------------------
  // Basic decoders
  // ---------------------------------------------------------------------

  /** A basic decoder with its number of address inputs and its load. */
  datatype BasicDecoder = BasicDecoder(inputBits: nat, load: Load)

  /** The basic decoders of stage 1B or 1C: 3→8 decoders, each output of
   *  which meets the outputs of the other decoders of the stage. */
  function BasicFor(nand: nat): (d: BasicDecoder)
    requires 2 <= nand <= 3
    ensures d.inputBits == 3 && d.load.NandInputs?
    ensures d.load.count * Pow2(d.inputBits) == Pow2(3 * nand)
  {
    Pow2Table();
    BasicDecoder(3, NandInputs(if nand == 2 then 8 else 8 * 8))
  }

  /** numBasicDecoderA1, basicDecoderA1, numBasicDecoderA2, basicDecoderA2. */
  datatype StageADecoders = StageADecoders(numA1: nat, a1: BasicDecoder, numA2: nat, a2: Option<BasicDecoder>)

  /** The basic decoders of stage 1A with nandA inputs, d24 of them 2→4
   *  decoders (listed first) and the rest 3→8 decoders. */
  function StageABasics(nandA: nat, d24: nat): (s: StageADecoders)
    requires 2 <= nandA && d24 <= 2
  {
    if d24 == 0 then
      StageADecoders(nandA, BasicDecoder(3, NandInputs(Pow2(3 * (nandA - 1)))), 0, None)
    else if d24 == 1 then
      var numA2 := nandA - 1;
      StageADecoders(1, BasicDecoder(2, NandInputs(Pow2(3 * numA2))),
                     numA2, Some(BasicDecoder(3, NandInputs(Pow2(2 + 3 * (numA2 - 1))))))
    else if nandA == 2 then
      StageADecoders(2, BasicDecoder(2, NandInputs(4)), 0, None)
    else
      StageADecoders(2, BasicDecoder(2, NandInputs(4 * 8)), 1, Some(BasicDecoder(3, NandInputs(4 * 4))))
  }

  /** Address bits taken by a stage-1A decoder group. */
  function ABits(s: StageADecoders): nat
  {
    s.numA1 * s.a1.inputBits + (if s.a2.Some? then s.numA2 * s.a2.value.inputBits else 0)
  }

  /** Stage 1A gets one basic decoder per NAND input, d24 of them 2→4, and
   *  they take exactly the 3 * nandA - d24 address bits 1A decodes; every
   *  output of each drives one NAND input per row of 1A that selects it. */
  lemma StageAFanOut(nandA: nat, d24: nat)
    requires 2 <= nandA <= 3 && d24 <= 2
    ensures var s := StageABasics(nandA, d24);
      && s.numA1 + s.numA2 == nandA
      && (s.a2.None? <==> s.numA2 == 0)
      && (if s.a1.inputBits == 2 then s.numA1 else 0) == d24
      && (s.a2.Some? ==> s.a2.value.inputBits == 3)
      && ABits(s) == 3 * nandA - d24
      && s.a1.load.NandInputs?
      && s.a1.load.count * Pow2(s.a1.inputBits) == Pow2(3 * nandA - d24)
      && (s.a2.Some? ==> s.a2.value.load.NandInputs?
                         && s.a2.value.load.count * Pow2(s.a2.value.inputBits) == Pow2(3 * nandA - d24))
  {
    Pow2Table();
  }

  // ---------------------------------------------------------------------
  // The whole sizing
  // ---------------------------------------------------------------------

  /** numNandInputStage1A/1B/1C after Initialize(n) on a block that held
   *  prev: the split for the stages built; a stage that is not built keeps
   *  its previous value. */
  function NandInputsAfter(n: nat, prev: PerStage): PerStage
    requires 1 <= n <= MAX_ADDRESS_BITS
  {
    var k := BasicTotal(n);
    if k <= 1 then prev
    else if k <= 3 then prev.(a := k)
    else if k <= 6 then SplitOf(k).(c := prev.c)
    else SplitOf(k)
  }

  /** numAddressBitStage1A/1B/1C after Initialize(n) on a block that held
   *  prev: the rows of the first stages of a two-level predecoder. */
  function StageRowsAfter(n: nat, prev: PerStage): PerStage
    requires 1 <= n <= MAX_ADDRESS_BITS
  {
    var k := BasicTotal(n);
    if k <= 3 then prev
    else
      var bits := StageBits(n);
      PerStage(Pow2(bits.a), Pow2(bits.b), if k <= 6 then prev.c else Pow2(bits.c))
  }

  /** basicDecoderA1/A2/B/C with numBasicDecoderA1/A2. */
  datatype Basics = Basics(a1: Option<BasicDecoder>, numA1: nat, a2: Option<BasicDecoder>, numA2: nat,
                           b: Option<BasicDecoder>, c: Option<BasicDecoder>)

  /** The basic decoders built for n address bits: a single decoder of n
   *  inputs driving the external load when there is no first stage;
   *  otherwise the stage-1A group and one 3→8 group per further stage. */
  function BasicsOf(n: nat): Basics
    requires 1 <= n <= MAX_ADDRESS_BITS
  {
    var k := BasicTotal(n);
    if k <= 1 then Basics(Some(BasicDecoder(n, ExternalLoad)), 1, None, 0, None, None)
    else
      var s := SplitOf(k);
      var sa := StageABasics(s.a, CountsOf(n).d24);
      Basics(Some(sa.a1), sa.numA1, sa.a2, sa.numA2,
             if k >= 4 then Some(BasicFor(s.b)) else None,
             if k >= 7 then Some(BasicFor(s.c)) else None)
  }

  /** The address bits the stage-1A group takes. */
  function GroupABits(b: Basics): nat
  {
    (if b.a1.Some? then b.numA1 * b.a1.value.inputBits else 0)
    + (if b.a2.Some? then b.numA2 * b.a2.value.inputBits else 0)
  }

  /** Every first stage built has its group of basic decoders, and a
   *  predecoder of at most 3 address bits, with no first stage, is a
   *  single basic decoder of n inputs driving the external load. */
  lemma BasicsShape(n: nat)
    requires 1 <= n <= MAX_ADDRESS_BITS
    ensures var b, r := BasicsOf(n), RowsOf(n);
      && b.a1.Some?
      && (b.b.Some? <==> r.b.Some?)
      && (b.c.Some? <==> r.c.Some?)
      && (r.a.None? ==> b == Basics(Some(BasicDecoder(n, ExternalLoad)), 1, None, 0, None, None))
  {
    RowsShape(n);
  }

  /** With a first stage (n >= 4), the basic decoders take exactly the n
   *  address bits, and stage 1A has one basic decoder per NAND input. */
  lemma BasicsCoverAddress(n: nat)
    requires 4 <= n <= MAX_ADDRESS_BITS
    ensures var b, s := BasicsOf(n), SplitOf(BasicTotal(n));
      && b.a1.Some?
      && b.numA1 + b.numA2 == s.a
      && GroupABits(b) + 3 * s.b + 3 * s.c == n
  {
    var k := BasicTotal(n);
    var s := SplitOf(k);
    var d24 := CountsOf(n).d24;
    StageAFanOut(s.a, d24);
    assert GroupABits(BasicsOf(n)) == 3 * s.a - d24;
  }

  /** From four address bits on, stage 1A decodes the 3 * nandA - d24 bits
   *  its NAND inputs take. */
  lemma StageARows(n: nat)
    requires 4 <= n <= MAX_ADDRESS_BITS
    ensures var k := BasicTotal(n);
      && 2 <= k
      && RowsOf(n).a.Some?
      && RowsOf(n).a.value.rows == Pow2(3 * SplitOf(k).a - CountsOf(n).d24)
  {
    var k := BasicTotal(n);
    var s := SplitOf(k);
    var d24 := CountsOf(n).d24;
    RowsShape(n);
    if k <= 3 {
      assert 3 * s.a - d24 == n;
    } else {
      var bits := StageBits(n);
      assert 3 * s.a - d24 == bits.a;
      assert RowsOf(n) == TwoLevelRows(Pow2(n), bits, k >= 7);
    }
  }

  /** Every output of a stage-1A basic decoder drives one NAND input per
   *  row of stage 1A that selects it. */
  lemma StageAWiring(n: nat)
    requires 4 <= n <= MAX_ADDRESS_BITS
    ensures var b, r := BasicsOf(n), RowsOf(n);
      && r.a.Some? && b.a1.Some?
      && b.a1.value.load.NandInputs?
      && b.a1.value.load.count * Pow2(b.a1.value.inputBits) == r.a.value.rows
      && (b.a2.Some? ==> b.a2.value.load.NandInputs?
                         && b.a2.value.load.count * Pow2(b.a2.value.inputBits) == r.a.value.rows)
  {
    StageARows(n);
    var k := BasicTotal(n);
    var s := SplitOf(k);
    var d24 := CountsOf(n).d24;
    StageAFanOut(s.a, d24);
    var sa := StageABasics(s.a, d24);
    assert BasicsOf(n).a1 == Some(sa.a1) && BasicsOf(n).a2 == sa.a2;
  }

  /** Every output of the basic decoder of stage 1B or 1C drives one NAND
   *  input per row of its stage that selects it. */
  lemma GroupWiring(n: nat)
    requires 4 <= n <= MAX_ADDRESS_BITS
    ensures var b, r := BasicsOf(n), RowsOf(n);
      && (b.b.Some? ==> r.b.Some? && b.b.value.load.count * Pow2(b.b.value.inputBits) == r.b.value.rows)
      && (b.c.Some? ==> r.c.Some? && b.c.value.load.count * Pow2(b.c.value.inputBits) == r.c.value.rows)
  {
    var k := BasicTotal(n);
    RowsShape(n);
    if k >= 4 {
      var s := SplitOf(k);
      var bits := StageBits(n);
      assert RowsOf(n) == TwoLevelRows(Pow2(n), bits, k >= 7);
      var _ := BasicFor(s.b);
      if k >= 7 {
        var _ := BasicFor(s.c);
      }
    }
  }

  /** The integer state Initialize sets. */
  datatype Sizing = Sizing(
    outputs: nat,                   // numOutputAddressBit
    counts: DecoderCounts,          // numDecoder12/24/38
    nandInputs: PerStage,           // numNandInputStage1A/1B/1C
    stageRows: PerStage,            // numAddressBitStage1A/1B/1C
    rows: Rows,                     // rowDecoderStage2/1A/1B/1C
    basics: Basics)

  /** The sizing after Initialize(n) with 1 <= n <= 27 on a block whose
   *  previous sizing was prev. */
  function Sized(n: nat, prev: Sizing): Sizing
    requires 1 <= n <= MAX_ADDRESS_BITS
  {
    Sizing(Pow2(n), CountsOf(n), NandInputsAfter(n, prev.nandInputs),
           StageRowsAfter(n, prev.stageRows), RowsOf(n), BasicsOf(n))
  }

  /** The area, latency, energy and leakage an empty predecoder reports. */
  datatype Costs = Costs(height: real, width: real, area: real,
                         readLatency: real, readDynamicEnergy: real, leakage: real)

  // ---------------------------------------------------------------------
  // The stale shift of stage 1A (seven to nine basic decoders)
  // ---------------------------------------------------------------------

  /** numAddressBitStage1A as the seven-to-nine branch computes it: the
   *  field's previous value shifted left, where the two-stage branch
   *  first resets it to 1. */
  function StageARowsAsWritten(previous: nat, n: nat): (rows: nat)
    requires 19 <= n <= MAX_ADDRESS_BITS
    ensures rows == previous * Pow2(StageBits(n).a)
  {
    previous * Pow2(3 * SplitOf(BasicTotal(n)).a - CountsOf(n).d24)
  }

  /** The shift gives the rows stage 1A decodes only when the field held 1
   *  before, which nothing in Initialize guarantees. */
  lemma StageARowsStale(previous: nat, n: nat)
    requires 19 <= n <= MAX_ADDRESS_BITS
    ensures StageARowsAsWritten(previous, n) == RowsOf(n).a.value.rows <==> previous == 1
  {
    var bits := StageBits(n);
    var p := Pow2(bits.a);
    assert RowsOf(n).a.value.rows == p by {
      assert RowsOf(n) == TwoLevelRows(Pow2(n), bits, true);
    }
    ScaleFixed(previous, p);
  }

  /** A block initialised for 12 address bits holds 64 in the field; set up
   *  again for 21 bits, the as-written shift sizes stage 1A at 32768 rows
   *  instead of 512, and the three first stages no longer multiply to the
   *  2^21 rows of the second stage. */
  lemma ReinitializedBlockOversizesStageA(prev: Sizing)
    ensures Sized(12, prev).stageRows.a == 64
    ensures Sized(21, Sized(12, prev)).stageRows.a == 512
    ensures StageARowsAsWritten(Sized(12, prev).stageRows.a, 21) == 32768
    ensures 32768 * RowsOf(21).b.value.rows * RowsOf(21).c.value.rows != Pow2(21)
  {
    Pow2Table();
    assert BasicTotal(12) == 4 && StageBits(12).a == 6;
    assert BasicTotal(21) == 7 && StageBits(21).a == 9;
    ThreeStageRows(21);
  }

  // ---------------------------------------------------------------------
  // The sizing steps of Initialize, on values
  // ---------------------------------------------------------------------

  /** The decoder-count part of Initialize: one 1→2 decoder for a single
   *  address bit, otherwise 2→4 decoders by the remainder modulo 3 and
   *  3→8 decoders for the rest. */
  method CountDecoders(n: nat) returns (counts: DecoderCounts)
    requires 1 <= n
    ensures counts == CountsOf(n)
  {
    var d12, d24, d38 := 0, 0, 0;
    if n == 1 {
      d12 := 1;
    } else {
      var numAddressMod3 := n % 3;
      if numAddressMod3 == 2 {
        d24 := 1;
      } else if numAddressMod3 == 1 {
        d24 := 2;
      }
      d38 := (n - 2 * d24) / 3;
    }
    counts := DecoderCounts(d12, d24, d38);
  }

  /** The row-decoder part of Initialize: the NAND inputs, rows and loads of
   *  the first stages and the second stage, starting from the values the
   *  block held before (prevNand, prevRows). The seven-to-nine branch starts
   *  the rows of stage 1A from 1, as the two-stage branch does (see
   *  StageARowsAsWritten). */
  method SizeRowDecoders(n: nat, outputs: nat, counts: DecoderCounts, prevNand: PerStage, prevRows: PerStage)
    returns (nand: PerStage, stageRows: PerStage, rows: Rows)
    requires 1 <= n <= MAX_ADDRESS_BITS
    requires outputs == Pow2(n) && counts == CountsOf(n)
    ensures nand == NandInputsAfter(n, prevNand)
    ensures stageRows == StageRowsAfter(n, prevRows)
    ensures rows == RowsOf(n)
  {
    var d24 := counts.d24;
    var nandA, nandB, nandC := prevNand.a, prevNand.b, prevNand.c;
    var rowsA, rowsB, rowsC := prevRows.a, prevRows.b, prevRows.c;
    var stage1A, stage1B, stage1C, stage2 := None, None, None, None;
    var numBasicDecoder := counts.d12 + counts.d24 + counts.d38;
    assert numBasicDecoder == BasicTotal(n);
    if numBasicDecoder <= 1 {
    } else if numBasicDecoder <= 3 {
      nandA := numBasicDecoder;
      stage1A := Some(RowDecoder(outputs, ExternalLoad));
    } else {
      stage2 := Some(RowDecoder(outputs, ExternalLoad));
      ghost var bits := StageBits(n);
      if numBasicDecoder <= 6 {
        nandB := numBasicDecoder / 2;
        nandA := numBasicDecoder - nandB;
        rowsA, rowsB := 1, 1;
        var i := 3 * nandA - d24;
        assert i == bits.a && 3 * nandB == bits.b;
        rowsA := rowsA * Pow2(i);
        rowsB := rowsB * Pow2(3 * nandB);
        stage1A := Some(RowDecoder(rowsA, NandInputs(rowsB)));
        stage1B := Some(RowDecoder(rowsB, NandInputs(rowsA)));
      } else if numBasicDecoder <= 9 {
        if numBasicDecoder == 7 {
          nandA, nandB, nandC := 3, 2, 2;
          rowsB := Pow2(3 * nandB);
          rowsC := Pow2(3 * nandC);
          assert rowsB == 64 && rowsC == 64 by { Pow2Table(); }
        } else if numBasicDecoder == 8 {
          nandA, nandB, nandC := 3, 3, 2;
          rowsB := Pow2(3 * nandB);
          rowsC := Pow2(3 * nandC);
          assert rowsB == 512 && rowsC == 64 by { Pow2Table(); }
        } else {
          nandA, nandB, nandC := 3, 3, 3;
          rowsB := Pow2(3 * nandB);
          rowsC := Pow2(3 * nandC);
          assert rowsB == 512 && rowsC == 512 by { Pow2Table(); }
        }
        var i := 3 * nandA - d24;
        assert i == bits.a && 3 * nandB == bits.b && 3 * nandC == bits.c;
        rowsA := Pow2(i);
        stage1A := Some(RowDecoder(rowsA, NandInputs(rowsB * rowsC)));
        stage1B := Some(RowDecoder(rowsB, NandInputs(rowsA * rowsC)));
        stage1C := Some(RowDecoder(rowsC, NandInputs(rowsA * rowsB)));
      }
    }
    nand, stageRows := PerStage(nandA, nandB, nandC), PerStage(rowsA, rowsB, rowsC);
    rows := Rows(stage2, stage1A, stage1B, stage1C);
  }

  /** The basic-decoder part of Initialize: the groups of stages 1C and 1B,
   *  then the group of stage 1A. */
  method SizeBasicDecoders(n: nat, counts: DecoderCounts, nand: PerStage, rows: Rows) returns (basics: Basics)
    requires 1 <= n <= MAX_ADDRESS_BITS
    requires counts == CountsOf(n) && rows == RowsOf(n)
    requires BasicTotal(n) >= 2 ==> nand.a == SplitOf(BasicTotal(n)).a
    requires BasicTotal(n) >= 4 ==> nand.b == SplitOf(BasicTotal(n)).b
    requires BasicTotal(n) >= 7 ==> nand.c == SplitOf(BasicTotal(n)).c
    ensures basics == BasicsOf(n)
  {
    var b, c := SizeGroupDecoders(n, nand, rows);
    var a1, numA1, a2, numA2 := SizeStageADecoders(n, counts, nand.a, rows.a);
    basics := Basics(a1, numA1, a2, numA2, b, c);
  }

  /** basicDecoderC and basicDecoderB: a 3→8 decoder for each of stages 1C
   *  and 1B that is built, each output driving one NAND input per row of
   *  the stage that selects it. */
  method SizeGroupDecoders(n: nat, nand: PerStage, rows: Rows) returns (b: Option<BasicDecoder>, c: Option<BasicDecoder>)
    requires 1 <= n <= MAX_ADDRESS_BITS
    requires rows == RowsOf(n)
    requires BasicTotal(n) >= 4 ==> nand.b == SplitOf(BasicTotal(n)).b
    requires BasicTotal(n) >= 7 ==> nand.c == SplitOf(BasicTotal(n)).c
    ensures b == BasicsOf(n).b && c == BasicsOf(n).c
  {
    RowsShape(n);
    if rows.c.Some? {
      c := Some(BasicDecoder(3, NandInputs(if nand.c == 2 then 8 else 8 * 8)));
    } else {
      c := None;
    }
    if rows.b.Some? {
      b := Some(BasicDecoder(3, NandInputs(if nand.b == 2 then 8 else 8 * 8)));
    } else {
      b := None;
    }
  }

  /** basicDecoderA1 and basicDecoderA2 with their counts: by the number of
   *  2→4 decoders when stage 1A is built, otherwise the one basic decoder of
   *  the whole address, driving the external load. */
  method SizeStageADecoders(n: nat, counts: DecoderCounts, nandA: nat, stage1A: Option<RowDecoder>)
    returns (a1: Option<BasicDecoder>, numA1: nat, a2: Option<BasicDecoder>, numA2: nat)
    requires 1 <= n <= MAX_ADDRESS_BITS
    requires counts == CountsOf(n) && stage1A == RowsOf(n).a
    requires BasicTotal(n) >= 2 ==> nandA == SplitOf(BasicTotal(n)).a
    ensures a1 == BasicsOf(n).a1 && numA1 == BasicsOf(n).numA1
    ensures a2 == BasicsOf(n).a2 && numA2 == BasicsOf(n).numA2
  {
    var d12, d24, d38 := counts.d12, counts.d24, counts.d38;
    RowsShape(n);
    if stage1A.Some? {
      if d24 == 0 {
        numA1, numA2 := nandA, 0;
        var numCapNandA1 := Pow2(3 * (nandA - 1));
        a1 := Some(BasicDecoder(3, NandInputs(numCapNandA1)));
        a2 := None;
      } else if d24 == 1 {
        numA1 := 1;
        numA2 := nandA - numA1;
        var numCapNandA1 := Pow2(3 * numA2);
        var numCapNandA2 := Pow2(2 + 3 * (numA2 - 1));
        a1 := Some(BasicDecoder(2, NandInputs(numCapNandA1)));
        a2 := Some(BasicDecoder(3, NandInputs(numCapNandA2)));
      } else if nandA == 2 {
        // two 2→4 decoders
        numA1, numA2 := 2, 0;
        a1 := Some(BasicDecoder(2, NandInputs(4)));
        a2 := None;
      } else {
        numA1, numA2 := 2, 1;
        a1 := Some(BasicDecoder(2, NandInputs(4 * 8)));
        a2 := Some(BasicDecoder(3, NandInputs(4 * 4)));
      }
      ghost var sa := StageABasics(nandA, d24);
      assert a1 == Some(sa.a1) && numA1 == sa.numA1 && a2 == sa.a2 && numA2 == sa.numA2;
    } else {
      numA1, numA2 := 1, 0;
      a2 := None;
      if d12 == 1 {
        a1 := Some(BasicDecoder(1, ExternalLoad));
      } else if d24 == 1 {
        a1 := Some(BasicDecoder(2, ExternalLoad));
      } else {
        // the one 3→8 decoder
        a1 := Some(BasicDecoder(3, ExternalLoad));
      }
      assert a1 == Some(BasicDecoder(n, ExternalLoad)) by {
        assert n <= 3;
        assert n == 2 ==> counts == DecoderCounts(0, 1, 0);
        assert n == 3 ==> counts == DecoderCounts(0, 0, 1);
      }
    }
  }

  // ---------------------------------------------------------------------
  // The predecoder block
  // ---------------------------------------------------------------------

  class PredecodeBlock {
    var initialized: bool
    var numAddressBit: nat
    var normal: bool

    var costs: Costs   // height, width, area, readLatency, readDynamicEnergy, leakage

    // The sizing fields, grouped as the Sizing datatype groups them.
    var numOutputAddressBit: nat
    var decoders: DecoderCounts   // numDecoder12, numDecoder24, numDecoder38
    var nandInputs: PerStage      // numNandInputStage1A, 1B, 1C
    var stageRows: PerStage       // numAddressBitStage1A, 1B, 1C
    var rowDecoders: Rows         // rowDecoderStage2, 1A, 1B, 1C
    var basicDecoders: Basics     // basicDecoderA1, A2, B, C, numBasicDecoderA1, A2

    /** The sizing fields as one value. */
    function Snapshot(): Sizing
      reads this
    {
      Sizing(numOutputAddressBit, decoders, nandInputs, stageRows, rowDecoders, basicDecoders)
    }

    /** A new block is not initialised and holds no decoders; its other
     *  fields hold arbitrary values. */
    constructor()
      ensures !initialized
      ensures rowDecoders == Rows(None, None, None, None)
      ensures basicDecoders.a1.None? && basicDecoders.a2.None? && basicDecoders.b.None? && basicDecoders.c.None?
    {
      initialized := false;
      rowDecoders := Rows(None, None, None, None);
      basicDecoders := Basics(None, 0, None, 0, None, None);
    }

    /** Initialize(_numAddressBit, …): more than 27 address bits is an error
     *  (the simulator exits); no address bits give an empty predecoder with
     *  zero costs; otherwise the decoders are sized as Sized states, from
     *  the basic decoder counts, through the row decoders, to the basic
     *  decoders that feed them, and the stages that are not built keep what
     *  the block held before. */
    method Initialize(n: nat, isNormal: bool) returns (r: Result<(), InitError>)
      modifies this
      ensures numAddressBit == n && normal == isNormal
      ensures r == if n > MAX_ADDRESS_BITS then Err(InvalidAddressBits) else Ok(())
      ensures initialized == (n <= MAX_ADDRESS_BITS || old(initialized))
      ensures costs == if n == 0 then Costs(0.0, 0.0, 0.0, 0.0, 0.0, 0.0) else old(costs)
      ensures Snapshot() == if 1 <= n <= MAX_ADDRESS_BITS then Sized(n, old(Snapshot())) else old(Snapshot())
    {
      ghost var before := Snapshot();
      numAddressBit := n;
      normal := isNormal;
      if numAddressBit > MAX_ADDRESS_BITS {
        r := Err(InvalidAddressBits);
      } else {
        initialized := true;
        if numAddressBit == 0 {
          costs := Costs(0.0, 0.0, 0.0, 0.0, 0.0, 0.0);
        } else {
          assert Snapshot() == before;
          Size();
        }
        r := Ok(());
      }
    }

    /** The sizing of Initialize for one to 27 address bits: the number of
     *  outputs, the basic decoder counts, the row decoders and the basic
     *  decoders that feed them, worked out on values and stored at the end. */
    method Size()
      requires 1 <= numAddressBit <= MAX_ADDRESS_BITS
      modifies this`numOutputAddressBit, this`decoders, this`nandInputs, this`stageRows
      modifies this`rowDecoders, this`basicDecoders
      ensures Snapshot() == Sized(numAddressBit, old(Snapshot()))
    {
      var n := numAddressBit;
      var outputs := Pow2(n);
      var counts := CountDecoders(n);
      var nand, rowCounts, rowDecs := SizeRowDecoders(n, outputs, counts, nandInputs, stageRows);
      var basics := SizeBasicDecoders(n, counts, nand, rowDecs);
      numOutputAddressBit, decoders, nandInputs, stageRows := outputs, counts, nand, rowCounts;
      rowDecoders, basicDecoders := rowDecs, basics;
    }
  }
}

/** Tiling arithmetic of the compiler's tensors (tensors.h, tensors.cpp):
 *  vectors and image-pixel streams are cut into MVMU_DIM-wide tiles, weight
 *  matrices into MVMU_DIM x (MVMU_DIM * MVMU_DPT) tiles, and the input side
 *  of a layer into stacks of a 3D MVMU. All sizes are `unsigned int` in the
 *  source; every formula below is only used where the source's operands do
 *  not wrap (no zero lengths, no zero kernel dimensions). */
module Tensors {
  import opened Common
  import opened Wrappers

  // ---------------------------------------------------------------------
  // Vectors and matrices
  // ---------------------------------------------------------------------

  /** AbstractVector::nTiles: number of MVMU_DIM-wide tiles of a vector. */
  function VectorNTiles(length: nat): (r: nat)
    requires length >= 1
    ensures r == CeilDiv(length, MVMU_DIM)
    ensures r >= 1 && (r - 1) * MVMU_DIM < length <= r * MVMU_DIM
  {
    CeilDivIdiom(length, MVMU_DIM);
    (length - 1) / MVMU_DIM + 1
  }

  /** ConstantMatrixImpl::nHeightTiles. */
  function MatrixNHeightTiles(height: nat): (r: nat)
    requires height >= 1
    ensures r == CeilDiv(height, MVMU_DIM)
  {
    CeilDivIdiom(height, MVMU_DIM);
    (height - 1) / MVMU_DIM + 1
  }

  /** ConstantMatrixImpl::nWidthTiles: a width tile spans MVMU_DPT blocks of
   *  MVMU_DIM columns. */
  function MatrixNWidthTiles(width: nat): (r: nat)
    requires width >= 1
    ensures r == CeilDiv(width, MVMU_DIM * MVMU_DPT)
    ensures r == CeilDiv(VectorNTiles(width), MVMU_DPT)
  {
    WidthBlocks(width);
    ((width - 1) / MVMU_DIM) / MVMU_DPT + 1
  }

  lemma WidthBlocks(width: nat)
    requires width >= 1
    ensures ((width - 1) / MVMU_DIM) / MVMU_DPT + 1 == CeilDiv(width, MVMU_DIM * MVMU_DPT)
    ensures ((width - 1) / MVMU_DIM) / MVMU_DPT + 1 == CeilDiv(VectorNTiles(width), MVMU_DPT)
  {
    var q1, r1 := (width - 1) / MVMU_DIM, (width - 1) % MVMU_DIM;
    var q2, r2 := q1 / MVMU_DPT, q1 % MVMU_DPT;
    assert width - 1 == q2 * (MVMU_DIM * MVMU_DPT) + (r2 * MVMU_DIM + r1);
    DivModUnique(width - 1, MVMU_DIM * MVMU_DPT, q2, r2 * MVMU_DIM + r1);
    CeilDivIdiom(width, MVMU_DIM * MVMU_DPT);
    CeilDivIdiom(q1 + 1, MVMU_DPT);
  }

  /** ConstantMatrixImpl::nWidthRest: the number of MVMU_DIM-column blocks in
   *  the last width tile. */
  function MatrixNWidthRest(width: nat): (r: nat)
    requires width >= 1
    ensures 1 <= r <= MVMU_DPT
    ensures (MatrixNWidthTiles(width) - 1) * MVMU_DPT + r == VectorNTiles(width)
  {
    var rest := ((width - 1) / MVMU_DIM + 1) % MVMU_DPT;
    LastTile((width - 1) / MVMU_DIM + 1, MVMU_DPT);
    if rest != 0 then rest else MVMU_DPT
  }

  // ---------------------------------------------------------------------
  // Image-pixel streams and the input side of convolutional layers
  // ---------------------------------------------------------------------

  /** Tiles holding a full MVMU_DIM channels of one kernel position. */
  function CompleteTiles(nChannels: nat, kernelWidth: nat, kernelHeight: nat): nat
  {
    (nChannels / MVMU_DIM) * kernelWidth * kernelHeight
  }

  /** How many leftover channel groups (nChannels % MVMU_DIM of them) fit in
   *  one tile. */
  function MaxConcat(nChannels: nat): (r: nat)
    requires nChannels % MVMU_DIM != 0
    ensures 1 <= r && r * (nChannels % MVMU_DIM) <= MVMU_DIM
    ensures (r + 1) * (nChannels % MVMU_DIM) > MVMU_DIM
  {
    MVMU_DIM / (nChannels % MVMU_DIM)
  }

  /** Tiles that concatenate the leftover channels of several kernel
   *  positions; none when the channel count is a multiple of MVMU_DIM. */
  function ConcatTiles(nChannels: nat, kernelWidth: nat, kernelHeight: nat): (r: nat)
    requires kernelWidth >= 1 && kernelHeight >= 1
    ensures nChannels % MVMU_DIM == 0 ==> r == 0
    ensures nChannels % MVMU_DIM != 0 ==>
              r == CeilDiv(kernelWidth * kernelHeight, MaxConcat(nChannels))
  {
    if nChannels % MVMU_DIM != 0 then
      MulAtLeastOne(kernelWidth, kernelHeight);
      CeilDivIdiom(kernelWidth * kernelHeight, MaxConcat(nChannels));
      (kernelWidth * kernelHeight - 1) / MaxConcat(nChannels) + 1
    else
      0
  }

  /** AbstractImagePixelStream::nTiles, and the stack count that
   *  getNInTiles / getNInRestDPT / the Layer constructor start from. */
  function StreamNTiles(nChannels: nat, kernelWidth: nat, kernelHeight: nat): (r: nat)
    requires kernelWidth >= 1 && kernelHeight >= 1
    ensures nChannels >= 1 ==> r >= 1
    ensures nChannels % MVMU_DIM == 0 ==> r * MVMU_DIM == nChannels * kernelWidth * kernelHeight
  {
    StreamNTilesPositive(nChannels, kernelWidth, kernelHeight);
    CompleteTiles(nChannels, kernelWidth, kernelHeight)
    + ConcatTiles(nChannels, kernelWidth, kernelHeight)
  }

  lemma StreamNTilesPositive(nChannels: nat, kernelWidth: nat, kernelHeight: nat)
    requires kernelWidth >= 1 && kernelHeight >= 1
    ensures nChannels >= 1 ==>
              CompleteTiles(nChannels, kernelWidth, kernelHeight)
              + ConcatTiles(nChannels, kernelWidth, kernelHeight) >= 1
    ensures nChannels % MVMU_DIM == 0 ==>
              CompleteTiles(nChannels, kernelWidth, kernelHeight) * MVMU_DIM
              == nChannels * kernelWidth * kernelHeight
  {
    var q := nChannels / MVMU_DIM;
    var kk := kernelWidth * kernelHeight;
    MulAtLeastOne(kernelWidth, kernelHeight);
    assert CompleteTiles(nChannels, kernelWidth, kernelHeight) == q * kk;
    if nChannels % MVMU_DIM == 0 {
      assert nChannels == q * MVMU_DIM;
      assert q * kk * MVMU_DIM == nChannels * kk;
      if nChannels >= 1 {
        MulAtLeastOne(q, kk);
      }
    }
  }

  /** ConvolutionalConstantMatrixImpl::getNInTiles (and the FC variant): the
   *  number of 3D MVMUs on the input side, MVMU_DPT stacks each. */
  function NInTiles(nInChannels: nat, kernelWidth: nat, kernelHeight: nat): (r: nat)
    requires nInChannels >= 1 && kernelWidth >= 1 && kernelHeight >= 1
    ensures r == CeilDiv(StreamNTiles(nInChannels, kernelWidth, kernelHeight), MVMU_DPT)
    ensures r >= 1
  {
    CeilDivIdiom(StreamNTiles(nInChannels, kernelWidth, kernelHeight), MVMU_DPT);
    (StreamNTiles(nInChannels, kernelWidth, kernelHeight) - 1) / MVMU_DPT + 1
  }

  /** getNInRestDPT: the stacks used in the last input-side MVMU. */
  function NInRestDPT(nInChannels: nat, kernelWidth: nat, kernelHeight: nat): (r: nat)
    requires nInChannels >= 1 && kernelWidth >= 1 && kernelHeight >= 1
    ensures 1 <= r <= MVMU_DPT
    ensures (NInTiles(nInChannels, kernelWidth, kernelHeight) - 1) * MVMU_DPT + r
            == StreamNTiles(nInChannels, kernelWidth, kernelHeight)
  {
    var rest := StreamNTiles(nInChannels, kernelWidth, kernelHeight) % MVMU_DPT;
    LastTile(StreamNTiles(nInChannels, kernelWidth, kernelHeight), MVMU_DPT);
    if rest == 0 then MVMU_DPT else rest
  }

  /** getNOutTiles: the output channels are tiled as the height of the
   *  layer's weight matrix, so the output side takes the fewest MVMUs whose
   *  128 columns cover every output channel. */
  function NOutTiles(nOutChannels: nat): (r: nat)
    requires nOutChannels >= 1
    ensures r >= 1 && (r - 1) * MVMU_DIM < nOutChannels <= r * MVMU_DIM
  {
    MatrixNHeightTiles(nOutChannels)
  }

  // ---------------------------------------------------------------------
  // Layer (tensors.cpp, Layer constructor, getNMVMU, setDuplicate)
  // ---------------------------------------------------------------------

  /** Stacks a layer occupies in one MVMU: the stream's tile count, capped at
   *  MVMU_DPT. */
  function LayerNStack(nInChannels: nat, kernelWidth: nat, kernelHeight: nat): (r: nat)
    requires kernelWidth >= 1 && kernelHeight >= 1
    ensures r <= MVMU_DPT && r <= StreamNTiles(nInChannels, kernelWidth, kernelHeight)
    ensures r == MVMU_DPT || r == StreamNTiles(nInChannels, kernelWidth, kernelHeight)
  {
    var total := StreamNTiles(nInChannels, kernelWidth, kernelHeight);
    if total < MVMU_DPT then total else MVMU_DPT
  }

  /** Latency of one output pixel: every stack is precharged once, every
   *  stack but the last is shifted, the last reuses its stack, and one ADC
   *  conversion follows. */
  function PixelLatency(nStack: nat, dacScaling: nat): (r: nat)
    requires nStack >= 1
    ensures r >= STACK_REUSE_LATENCY + PRECHARGE_LATENCY * dacScaling + ADC_LATENCY
    ensures nStack == 1 <==> r == STACK_REUSE_LATENCY + PRECHARGE_LATENCY * dacScaling + ADC_LATENCY
  {
    (nStack - 1) * (STACK_SHIFT_LATENCY + PRECHARGE_LATENCY * dacScaling)
    + STACK_REUSE_LATENCY + PRECHARGE_LATENCY * dacScaling
    + ADC_LATENCY
  }

  /** Stacking one more layer adds one shift and one more precharge. */
  lemma PixelLatencyStep(nStack: nat, dacScaling: nat)
    requires nStack >= 1
    ensures PixelLatency(nStack + 1, dacScaling)
            == PixelLatency(nStack, dacScaling) + STACK_SHIFT_LATENCY + PRECHARGE_LATENCY * dacScaling
  {
    var c := STACK_SHIFT_LATENCY + PRECHARGE_LATENCY * dacScaling;
    assert nStack * c == (nStack - 1) * c + c;
  }

  /** A deeper stack never makes a pixel faster, and each extra layer
   *  costs at least one shift. */
  lemma {:induction false} PixelLatencyMonotone(n1: nat, n2: nat, dacScaling: nat)
    requires 1 <= n1 <= n2
    ensures PixelLatency(n1, dacScaling) + (n2 - n1) * STACK_SHIFT_LATENCY <= PixelLatency(n2, dacScaling)
    decreases n2 - n1
  {
    if n1 < n2 {
      PixelLatencyStep(n1, dacScaling);
      PixelLatencyMonotone(n1 + 1, n2, dacScaling);
    }
  }

  class Layer {
    const kernelWidth: nat
    const kernelHeight: nat
    const nInChannels: nat
    const outImageWidth: nat
    const outImageHeight: nat
    const nOutChannels: nat
    const isFC: bool
    const nStack: nat
    const load: nat
    var duplicateWidth: nat
    var duplicateHeight: nat

    ghost predicate Valid()
      reads this
    {
      && kernelWidth >= 1 && kernelHeight >= 1 && nInChannels >= 1 && nOutChannels >= 1
      && nStack == LayerNStack(nInChannels, kernelWidth, kernelHeight)
    }

    /** The Layer constructor: computes the stack count and the load. */
    constructor (kernelWidth: nat, kernelHeight: nat, nInChannels: nat,
                 outImageWidth: nat, outImageHeight: nat, nOutChannels: nat,
                 dacScaling: nat, isFC: bool)
      requires kernelWidth >= 1 && kernelHeight >= 1 && nInChannels >= 1 && nOutChannels >= 1
      ensures Valid()
      ensures 1 <= nStack <= MVMU_DPT
      ensures this.kernelWidth == kernelWidth && this.kernelHeight == kernelHeight
      ensures this.nInChannels == nInChannels && this.nOutChannels == nOutChannels
      ensures this.outImageWidth == outImageWidth && this.outImageHeight == outImageHeight
      ensures this.isFC == isFC
      ensures load == outImageWidth * outImageHeight * PixelLatency(nStack, dacScaling)
    {
      this.kernelWidth := kernelWidth;
      this.kernelHeight := kernelHeight;
      this.nInChannels := nInChannels;
      this.outImageWidth := outImageWidth;
      this.outImageHeight := outImageHeight;
      this.nOutChannels := nOutChannels;
      this.isFC := isFC;
      var stacks := LayerNStack(nInChannels, kernelWidth, kernelHeight);
      this.nStack := stacks;
      this.load := outImageWidth * outImageHeight * PixelLatency(stacks, dacScaling);
    }

    /** Layer::getNMVMU. Because a layer never holds more than MVMU_DPT
     *  stacks, the input side always fits one MVMU and the count equals the
     *  number of output-side MVMUs. */
    method GetNMVMU() returns (n: nat)
      requires Valid()
      ensures n == CeilDiv(nStack, MVMU_DPT) * CeilDiv(nOutChannels, MVMU_DIM)
      ensures n == NOutTiles(nOutChannels)
    {
      var nInMVMUs := (nStack - 1) / MVMU_DPT + 1;
      var nOutMVMUs := (nOutChannels - 1) / MVMU_DIM + 1;
      n := nInMVMUs * nOutMVMUs;
      CeilDivIdiom(nStack, MVMU_DPT);
      CeilDivIdiom(nOutChannels, MVMU_DIM);
    }

    /** Layer::setDuplicate: FC layers are never duplicated; the result is 0
     *  when a duplicate factor exceeds the output image, 1 otherwise. */
    method SetDuplicate(dupWidth: nat, dupHeight: nat) returns (ok: int)
      modifies this
      ensures duplicateWidth == (if isFC then 1 else dupWidth)
      ensures duplicateHeight == (if isFC then 1 else dupHeight)
      ensures ok == 0 <==> (duplicateWidth > outImageWidth || duplicateHeight > outImageHeight)
      ensures ok == 0 || ok == 1
      ensures isFC && outImageWidth >= 1 && outImageHeight >= 1 ==> ok == 1
    {
      if isFC {
        duplicateWidth := 1;
        duplicateHeight := 1;
      } else {
        duplicateWidth := dupWidth;
        duplicateHeight := dupHeight;
      }
      if duplicateWidth > outImageWidth || duplicateHeight > outImageHeight {
        return 0;
      }
      return 1;
    }
  }

  // ---------------------------------------------------------------------
  // Tile-size loops of the tensor constructors
  // ---------------------------------------------------------------------

  /** The loop of InputVectorImpl / OutputVectorImpl (and the height and
   *  width loops of ConstantMatrixImpl): every tile is `unit` wide except
   *  the last, which takes the remainder when there is one. */
  method TileSizes(total: nat, unit: nat) returns (sizes: seq<nat>)
    requires total >= 1 && unit >= 1
    ensures |sizes| == CeilDiv(total, unit)
    ensures forall i :: 0 <= i < |sizes| - 1 ==> sizes[i] == unit
    ensures sizes[|sizes| - 1] == (if total % unit > 0 then total % unit else unit)
    ensures forall i :: 0 <= i < |sizes| ==> 1 <= sizes[i] <= unit
    ensures Sum(sizes) == total
  {
    var n := (total - 1) / unit + 1;
    CeilDivIdiom(total, unit);
    LastTile(total, unit);
    sizes := [];
    for i := 0 to n
      invariant |sizes| == i
      invariant forall k :: 0 <= k < i && k < n - 1 ==> sizes[k] == unit
      invariant forall k :: 0 <= k < i ==> 1 <= sizes[k] <= unit
      invariant i < n ==> Sum(sizes) == i * unit
      invariant i == n ==> Sum(sizes) == total
      invariant i == n ==> sizes[n - 1] == (if total % unit > 0 then total % unit else unit)
    {
      var tileSize := unit;
      if i == n - 1 && total % unit > 0 {
        tileSize := total % unit;
      }
      SumAppend(sizes, tileSize);
      assert (i + 1) * unit == i * unit + unit;
      sizes := sizes + [tileSize];
    }
  }

  /** Tile heights and widths of ConstantMatrixImpl. */
  method MatrixTileShape(width: nat, height: nat) returns (heights: seq<nat>, widths: seq<nat>)
    requires width >= 1 && height >= 1
    ensures |heights| == MatrixNHeightTiles(height) && Sum(heights) == height
    ensures forall i :: 0 <= i < |heights| ==> 1 <= heights[i] <= MVMU_DIM
    ensures |widths| == MatrixNWidthTiles(width) && Sum(widths) == width
    ensures forall i :: 0 <= i < |widths| ==> 1 <= widths[i] <= MVMU_DIM * MVMU_DPT
  {
    heights := TileSizes(height, MVMU_DIM);
    widths := TileSizes(width, MVMU_DIM * MVMU_DPT);
  }

  /** The loop of ImagePixelStreamImpl (and its input/output variants): the
   *  complete tiles carry MVMU_DIM channels; each concatenated tile carries
   *  MaxConcat leftover groups, the last one possibly fewer. The sizes add up
   *  to every channel of every kernel position. */
  method StreamTileSizes(nChannels: nat, kernelWidth: nat, kernelHeight: nat)
    returns (sizes: seq<nat>)
    requires nChannels >= 1 && kernelWidth >= 1 && kernelHeight >= 1
    ensures |sizes| == StreamNTiles(nChannels, kernelWidth, kernelHeight)
    ensures forall i :: 0 <= i < CompleteTiles(nChannels, kernelWidth, kernelHeight) ==>
              sizes[i] == MVMU_DIM
    ensures forall i :: 0 <= i < |sizes| ==> 1 <= sizes[i] <= MVMU_DIM
    ensures Sum(sizes) == nChannels * kernelWidth * kernelHeight
  {
    var n := StreamNTiles(nChannels, kernelWidth, kernelHeight);
    var nComplete := CompleteTiles(nChannels, kernelWidth, kernelHeight);
    var kk := kernelWidth * kernelHeight;
    var rem := nChannels % MVMU_DIM;
    MulAtLeastOne(kernelWidth, kernelHeight);
    sizes := [];
    for i := 0 to n
      invariant |sizes| == i
      invariant forall k :: 0 <= k < i && k < nComplete ==> sizes[k] == MVMU_DIM
      invariant forall k :: 0 <= k < i ==> 1 <= sizes[k] <= MVMU_DIM
      invariant i <= nComplete ==> Sum(sizes) == i * MVMU_DIM
      invariant nComplete < i < n ==>
                  rem != 0 && Sum(sizes) == nComplete * MVMU_DIM + (i - nComplete) * MaxConcat(nChannels) * rem
      invariant nComplete < i == n ==> Sum(sizes) == nComplete * MVMU_DIM + kk * rem
    {
      var tileSize: nat;
      if i < nComplete {
        tileSize := MVMU_DIM;
      } else {
        var maxConcat := MaxConcat(nChannels);
        tileSize := maxConcat * rem;
        if i == n - 1 && kk % maxConcat > 0 {
          tileSize := (kk % maxConcat) * rem;
        }
        ConcatStep(nChannels, kk, i - nComplete, n - nComplete, tileSize);
      }
      SumAppend(sizes, tileSize);
      sizes := sizes + [tileSize];
    }
    MulAssoc(nChannels / MVMU_DIM, kernelWidth, kernelHeight);
    MulAssoc(nChannels, kernelWidth, kernelHeight);
    ChannelSum(nChannels, kk, nComplete);
  }

  /** One concatenated tile: its size lies in [1, MVMU_DIM], and when it is
   *  the last one the concatenated tiles together hold kk * rem channels. */
  lemma ConcatStep(nChannels: nat, kk: nat, j: nat, nConcat: nat, tileSize: nat)
    requires nChannels % MVMU_DIM != 0 && kk >= 1
    requires nConcat == CeilDiv(kk, MaxConcat(nChannels)) && j < nConcat
    requires tileSize == if j == nConcat - 1 && kk % MaxConcat(nChannels) > 0
                         then (kk % MaxConcat(nChannels)) * (nChannels % MVMU_DIM)
                         else MaxConcat(nChannels) * (nChannels % MVMU_DIM)
    ensures 1 <= tileSize <= MVMU_DIM
    ensures j < nConcat - 1 ==>
              (j + 1) * MaxConcat(nChannels) * (nChannels % MVMU_DIM)
              == j * MaxConcat(nChannels) * (nChannels % MVMU_DIM) + tileSize
    ensures j == nConcat - 1 ==>
              j * MaxConcat(nChannels) * (nChannels % MVMU_DIM) + tileSize
              == kk * (nChannels % MVMU_DIM)
  {
    var m := MaxConcat(nChannels);
    var rem := nChannels % MVMU_DIM;
    var last := if j == nConcat - 1 && kk % m > 0 then kk % m else m;
    ConcatTileArith(j, m, last, rem);
    if j == nConcat - 1 {
      CeilDivIdiom(kk, m);
      LastTile(kk, m);
    }
  }

  /** A tile of `last` of at most m groups of rem channels fits MVMU_DIM,
   *  and appending it to j full tiles adds last * rem channels. */
  lemma ConcatTileArith(j: nat, m: nat, last: nat, rem: nat)
    requires 1 <= last <= m && 1 <= rem && m * rem <= MVMU_DIM
    ensures 1 <= last * rem <= MVMU_DIM
    ensures (j * m + last) * rem == j * m * rem + last * rem
    ensures last == m ==> (j + 1) * m * rem == j * m * rem + last * rem
  {
    MulMono(last, m, rem);
    MulAtLeastOne(last, rem);
    assert (j + 1) * m == j * m + m;
  }

  lemma MulAssoc(a: nat, b: nat, c: nat)
    ensures a * (b * c) == a * b * c
  {
  }

  lemma MulMono(a: nat, b: nat, c: nat)
    requires a <= b
    ensures a * c <= b * c
  {
    assert b * c == a * c + (b - a) * c;
  }

  /** The channel total of a stream: complete tiles plus leftover groups. */
  lemma ChannelSum(nChannels: nat, kk: nat, nComplete: nat)
    requires nComplete == (nChannels / MVMU_DIM) * kk
    ensures nComplete * MVMU_DIM + kk * (nChannels % MVMU_DIM) == nChannels * kk
  {
    var q := nChannels / MVMU_DIM;
    var rem := nChannels % MVMU_DIM;
    assert nChannels == q * MVMU_DIM + rem;
    calc {
      nComplete * MVMU_DIM + kk * rem;
      q * kk * MVMU_DIM + kk * rem;
      kk * (q * MVMU_DIM + rem);
      nChannels * kk;
    }
  }

  // ---------------------------------------------------------------------
  // VectorImpl tile slots
  // ---------------------------------------------------------------------

  /** VectorImpl: one producer slot per tile, each filled at most once.
   *  Producers are identified by their operation number. */
  class VectorSlots {
    const length: nat
    var tiles: seq<Option<nat>>

    ghost predicate Valid()
      reads this
    {
      length >= 1 && |tiles| == VectorNTiles(length)
    }

    constructor (length: nat)
      requires length >= 1
      ensures Valid() && this.length == length
      ensures forall t :: 0 <= t < |tiles| ==> tiles[t] == None
    {
      this.length := length;
      tiles := seq((length - 1) / MVMU_DIM + 1, _ => None);
    }

    /** VectorImpl::setTile: refuses to reassign a filled slot. */
    method SetTile(t: nat, producer: nat) returns (ok: bool)
      requires Valid() && t < |tiles|
      modifies this
      ensures Valid()
      ensures ok <==> old(tiles[t]) == None
      ensures ok ==> tiles == old(tiles)[t := Some(producer)]
      ensures !ok ==> tiles == old(tiles)
    {
      if tiles[t] != None {
        return false;
      }
      tiles := tiles[t := Some(producer)];
      return true;
    }
  }
}

/** The channel partition of the quantized convolution (conv.py): in the
 *  INFERENCE phase the input channels are split into groups that each fit
 *  the rows of one crossbar array, and one partial convolution is run per
 *  group; the other phases run a single convolution. The convolutions
 *  themselves are floating-point tensor work and are not modelled: a plan
 *  records which channels each convolution reads and whether it adds the
 *  bias. */
module ConvPartition {
  import opened Wrappers
  import opened Common

  /** PIMUnit.QuantPhase. */
  datatype QuantPhase = Float | BaselineQuant | FoldingBN | QAConv | Inference

  /** One convolution over input channels [start, start + width), adding
   *  the bias when withBias holds. */
  datatype Group = Group(start: nat, width: nat, withBias: bool)

  /** What forward runs: the convolutions, and whether weight and bias are
   *  quantized by the layer's PIM unit first. */
  datatype Plan = Plan(quantized: bool, convs: seq<Group>)

  /** forward fails only in the INFERENCE phase, on a layer without bias:
   *  the first group reshapes a bias that is None. */
  datatype ConvError = MissingBias

  /** spatial_iter_granularity: how many input channels of a k x k kernel
   *  fit the rows of one array. Python's int() of the quotient truncates,
   *  which for these non-negative operands is floor division. */
  function Granularity(numRows: nat, k: nat): (g: nat)
    requires k >= 1
    ensures g * (k * k) <= numRows < (g + 1) * (k * k)
    ensures k * k <= numRows ==> g >= 1
  {
    DivModUnique(numRows, k * k, numRows / (k * k), numRows % (k * k));
    numRows / (k * k)
  }

  /** The groups the INFERENCE loop builds from channel start on: groups of
   *  g channels, the last one cut at the channel count; only a group that
   *  starts at channel 0 adds the bias. */
  function ChannelGroups(channels: nat, g: nat, start: nat): (gs: seq<Group>)
    requires g >= 1 && start <= channels
    ensures gs == [] <==> start == channels
    decreases channels - start
  {
    if start == channels then []
    else
      var width := if start + g >= channels then channels - start else g;
      [Group(start, width, start == 0)] + ChannelGroups(channels, g, start + width)
  }

  /** Every group holds between 1 and g channels from start on, each
   *  group begins where the one before it ends, and a group adds the bias
   *  exactly when it starts at channel 0. */
  lemma {:induction false} ChannelGroupsShape(channels: nat, g: nat, start: nat)
    requires g >= 1 && start <= channels
    ensures var gs := ChannelGroups(channels, g, start);
            && (forall i :: 0 <= i < |gs| ==> 1 <= gs[i].width <= g && start <= gs[i].start)
            && (forall i, j :: 0 <= i && j == i + 1 < |gs| ==> gs[i].start + gs[i].width == gs[j].start)
            && (forall i :: 0 <= i < |gs| ==> (gs[i].withBias <==> gs[i].start == 0))
    decreases channels - start
  {
    if start < channels {
      var width := if start + g >= channels then channels - start else g;
      var gs, tail := ChannelGroups(channels, g, start), ChannelGroups(channels, g, start + width);
      assert gs == [Group(start, width, start == 0)] + tail;
      ChannelGroupsShape(channels, g, start + width);
      if tail != [] {
        ChannelGroupsEnds(channels, g, start + width);
      }
      forall i | 1 <= i < |gs|
        ensures gs[i] == tail[i - 1] && start <= gs[i].start
      {
      }
      forall i, j | 0 <= i && j == i + 1 < |gs|
        ensures gs[i].start + gs[i].width == gs[j].start
      {
        if i > 0 {
          assert gs[i] == tail[i - 1] && gs[j] == tail[j - 1];
        }
      }
    }
  }

  /** The widths of the groups add up to the channels they cover. */
  function TotalWidth(gs: seq<Group>): nat
  {
    if gs == [] then 0 else gs[0].width + TotalWidth(gs[1..])
  }

  /** The groups from start read every remaining channel once: their
   *  widths add up to channels - start. */
  lemma {:induction false} ChannelGroupsCover(channels: nat, g: nat, start: nat)
    requires g >= 1 && start <= channels
    ensures TotalWidth(ChannelGroups(channels, g, start)) == channels - start
    decreases channels - start
  {
    if start < channels {
      var width := if start + g >= channels then channels - start else g;
      var gs := ChannelGroups(channels, g, start);
      assert gs[0].width == width && gs[1..] == ChannelGroups(channels, g, start + width);
      ChannelGroupsCover(channels, g, start + width);
      assert TotalWidth(gs) == width + TotalWidth(gs[1..]);
    } else {
      assert ChannelGroups(channels, g, start) == [];
    }
  }

  /** The groups from start begin at start and the last one ends at the
   *  channel count. */
  lemma {:induction false} ChannelGroupsEnds(channels: nat, g: nat, start: nat)
    requires g >= 1 && start < channels
    ensures var gs := ChannelGroups(channels, g, start);
            gs[0].start == start && gs[|gs| - 1].start + gs[|gs| - 1].width == channels
    decreases channels - start
  {
    var width := if start + g >= channels then channels - start else g;
    var gs, tail := ChannelGroups(channels, g, start), ChannelGroups(channels, g, start + width);
    assert gs == [Group(start, width, start == 0)] + tail;
    if start + width < channels {
      ChannelGroupsEnds(channels, g, start + width);
      assert gs[|gs| - 1] == tail[|tail| - 1];
    }
  }

  /** There are ceil((channels - start) / g) groups. */
  lemma {:induction false} ChannelGroupsCount(channels: nat, g: nat, start: nat)
    requires g >= 1 && start <= channels
    ensures |ChannelGroups(channels, g, start)| == CeilDiv(channels - start, g)
    decreases channels - start
  {
    if start < channels {
      var width := if start + g >= channels then channels - start else g;
      var gs := ChannelGroups(channels, g, start);
      assert gs[1..] == ChannelGroups(channels, g, start + width);
      ChannelGroupsCount(channels, g, start + width);
      if start + g < channels {
        CeilDivStep(channels - start, g);
      } else {
        CeilDivOne(channels - start, g);
      }
    }
  }

  /** Taking one full piece off leaves one piece fewer. */
  lemma CeilDivStep(a: nat, b: nat)
    requires a > b >= 1
    ensures CeilDiv(a, b) == CeilDiv(a - b, b) + 1
  {
    CeilDivIdiom(a, b);
    CeilDivIdiom(a - b, b);
    var q, r := (a - b - 1) / b, (a - b - 1) % b;
    assert a - b - 1 == q * b + r;
    assert (q + 1) * b == q * b + b;
    DivModUnique(a - 1, b, q + 1, r);
  }

  /** What fits in one piece takes one piece. */
  lemma CeilDivOne(a: nat, b: nat)
    requires 1 <= a <= b
    ensures CeilDiv(a, b) == 1
  {
    CeilDivIdiom(a, b);
    DivModUnique(a - 1, b, 0, a - 1);
  }

  /** Only the first group adds the bias: groups start at increasing
   *  channels, so only the first starts at channel 0. */
  lemma OnlyFirstHasBias(channels: nat, g: nat)
    requires g >= 1
    ensures var gs := ChannelGroups(channels, g, 0);
            forall i :: 0 <= i < |gs| ==> (gs[i].withBias <==> i == 0)
  {
    var gs := ChannelGroups(channels, g, 0);
    if gs != [] {
      ChannelGroupsShape(channels, g, 0);
      ChannelGroupsEnds(channels, g, 0);
      StartsGrow(gs);
    }
  }

  /** In a chain of contiguous non-empty groups, group i starts at least i
   *  channels after the first. */
  lemma {:induction false} StartsGrow(gs: seq<Group>)
    requires forall i :: 0 <= i < |gs| ==> gs[i].width >= 1
    requires forall i, j :: 0 <= i && j == i + 1 < |gs| ==> gs[i].start + gs[i].width == gs[j].start
    ensures forall i :: 0 <= i < |gs| ==> gs[i].start >= gs[0].start + i
  {
    if |gs| > 1 {
      StartsGrow(gs[1..]);
      assert forall i :: 1 <= i < |gs| ==> gs[i] == gs[1..][i - 1];
    }
  }

  /** The INFERENCE loop of conv_forward over the input channels. A
   *  kernel too wide for the array (k * k > numRows) makes the
   *  granularity 0 and the loop never ends once there is a channel, so
   *  that case is excluded. */
  method PartitionChannels(channels: nat, numRows: nat, k: nat, hasBias: bool)
    returns (r: Result<seq<Group>, ConvError>)
    requires k >= 1 && (channels == 0 || k * k <= numRows)
    ensures channels == 0 ==> r == Ok([])
    ensures channels > 0 && !hasBias ==> r == Err(MissingBias)
    ensures channels > 0 && hasBias ==> r == Ok(ChannelGroups(channels, Granularity(numRows, k), 0))
  {
    var granularity := numRows / (k * k);
    if channels == 0 {
      return Ok([]);
    }
    ghost var g0 := Granularity(numRows, k);
    var groups: seq<Group> := [];
    var inChannel := 0;
    while inChannel < channels
      invariant inChannel <= channels && (inChannel < channels ==> granularity == g0)
      invariant groups + ChannelGroups(channels, g0, inChannel) == ChannelGroups(channels, g0, 0)
      invariant inChannel == 0 <==> groups == []
      invariant inChannel > 0 ==> hasBias
      decreases channels - inChannel
    {
      if inChannel + granularity >= channels {
        granularity := channels - inChannel;
      }
      if inChannel == 0 && !hasBias {
        return Err(MissingBias);
      }
      ghost var rest := ChannelGroups(channels, g0, inChannel);
      assert rest == [Group(inChannel, granularity, inChannel == 0)] + ChannelGroups(channels, g0, inChannel + granularity);
      groups := groups + [Group(inChannel, granularity, inChannel == 0)];
      inChannel := inChannel + granularity;
    }
    assert groups + [] == groups;
    return Ok(groups);
  }

  /** forward: the FLOAT phase runs the unquantized convolution; every
   *  other phase quantizes weight and bias, and all but INFERENCE run one
   *  convolution over every input channel. */
  method Forward(phase: QuantPhase, channels: nat, numRows: nat, k: nat, hasBias: bool)
    returns (r: Result<Plan, ConvError>)
    requires k >= 1 && (channels == 0 || k * k <= numRows)
    ensures phase == Float ==> r == Ok(Plan(false, [Group(0, channels, hasBias)]))
    ensures phase != Float && phase != Inference ==> r == Ok(Plan(true, [Group(0, channels, hasBias)]))
    ensures phase == Inference && channels == 0 ==> r == Ok(Plan(true, []))
    ensures phase == Inference && channels > 0 ==>
              if hasBias then r == Ok(Plan(true, ChannelGroups(channels, Granularity(numRows, k), 0)))
              else r == Err(MissingBias)
  {
    if phase == Float {
      return Ok(Plan(false, [Group(0, channels, hasBias)]));
    }
    if phase != Inference {
      return Ok(Plan(true, [Group(0, channels, hasBias)]));
    }
    var groups := PartitionChannels(channels, numRows, k, hasBias);
    match groups
    case Err(e) => return Err(e);
    case Ok(gs) => return Ok(Plan(true, gs));
  }

  /** The INFERENCE partition reads the same channels as the single
   *  convolution of the other phases and adds the bias once when there
   *  is a channel. */
  lemma InferenceMatchesWhole(channels: nat, numRows: nat, k: nat)
    requires k >= 1 && k * k <= numRows
    ensures var gs := ChannelGroups(channels, Granularity(numRows, k), 0);
            && TotalWidth(gs) == TotalWidth([Group(0, channels, true)])
            && (forall i :: 0 <= i < |gs| ==> (gs[i].withBias <==> i == 0))
            && (forall i :: 0 <= i < |gs| ==> gs[i].width * (k * k) <= numRows)
  {
    var g := Granularity(numRows, k);
    ChannelGroupsCover(channels, g, 0);
    ChannelGroupsShape(channels, g, 0);
    OnlyFirstHasBias(channels, g);
    var gs := ChannelGroups(channels, g, 0);
    forall i | 0 <= i < |gs|
      ensures gs[i].width * (k * k) <= numRows
    {
      if gs[i].width < g {
        MulGap(g, gs[i].width, k * k);
      }
    }
  }
}

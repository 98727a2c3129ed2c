/** The compiler's operation graph containers (operations.cpp): operand and
 *  user links between producers and consumers, the vector-length rules of
 *  ALU operations, the fixed-slot coalesced and sliding MVM sets, and the
 *  shape arithmetic of max-pooling and of duplicated convolution layers. */
module Operations {
  import opened Common
  import opened Wrappers
  import Tensors

  // ---------------------------------------------------------------------
  // Producer / consumer links
  // ---------------------------------------------------------------------

  /** An operation of the graph. Every operation can be used as a producer
   *  (it keeps the set of its users) and as a consumer (it keeps its
   *  operands in order). */
  class Operation {
    var operands: seq<Operation>
    var users: set<Operation>

    /** Every operand of this consumer lists it among its users. */
    ghost predicate Linked()
      reads this, set p | p in operands
    {
      forall p :: p in operands ==> this in p.users
    }

    /** ConsumerOperation's constructor: a second operand is recorded only
     *  after a first one; each operand gains this consumer as a user. */
    constructor (op1: Operation?, op2: Operation?)
      requires op1 == null ==> op2 == null
      modifies {op1, op2} - {null}
      ensures operands == if op1 == null then []
                          else if op2 == null then [op1] else [op1, op2]
      ensures users == {}
      ensures op1 != null ==> op1.users == old(op1.users) + {this}
      ensures op2 != null ==> op2.users == old(op2.users) + {this}
      ensures Linked()
    {
      if op1 != null {
        if op2 != null {
          operands := [op1, op2];
        } else {
          operands := [op1];
        }
      } else {
        operands := [];
      }
      users := {};
      new;
      if op1 != null {
        op1.users := op1.users + {this};
        if op2 != null {
          op2.users := op2.users + {this};
        }
      }
    }

    /** ConsumerOperation::uses: a linear search of the operands. */
    method Uses(op: Operation) returns (found: bool)
      ensures found <==> op in operands
    {
      for i := 0 to |operands|
        invariant op !in operands[..i]
      {
        if operands[i] == op {
          return true;
        }
      }
      assert operands[..|operands|] == operands;
      return false;
    }

    /** ConsumerOperation::replaceOperand: every occurrence of `op` becomes
     *  `replacement`, and this consumer moves from the users of `op` to the
     *  users of `replacement`. The operand links stay consistent. */
    method ReplaceOperand(op: Operation, replacement: Operation)
      modifies this, op, replacement
      ensures |operands| == |old(operands)|
      ensures forall i :: 0 <= i < |operands| ==>
                operands[i] == if old(operands[i]) == op then replacement else old(operands[i])
      ensures op in old(operands) ==> replacement.users == old(replacement.users) + {this}
      ensures op in old(operands) && op != replacement ==> op.users == old(op.users) - {this}
      ensures op !in old(operands) ==>
                op.users == old(op.users) && replacement.users == old(replacement.users)
      ensures op != replacement ==> op !in operands
      ensures old(Linked()) ==> Linked()
    {
      ghost var linked := Linked();
      for i := 0 to |operands|
        invariant |operands| == |old(operands)|
        invariant forall k :: 0 <= k < i ==>
                    operands[k] == if old(operands[k]) == op then replacement else old(operands[k])
        invariant forall k :: i <= k < |operands| ==> operands[k] == old(operands[k])
        invariant op in old(operands[..i]) ==>
                    replacement.users == old(replacement.users) + {this}
                    && (op != replacement ==> op.users == old(op.users) - {this})
        invariant op !in old(operands[..i]) ==>
                    op.users == old(op.users) && replacement.users == old(replacement.users)
        invariant this != op && this != replacement ==> users == old(users)
      {
        if operands[i] == op {
          operands := operands[i := replacement];
          op.users := op.users - {this};
          replacement.users := replacement.users + {this};
        }
        assert old(operands[..i + 1]) == old(operands[..i]) + [old(operands[i])];
      }
      assert old(operands[..|operands|]) == old(operands);
      if linked {
        forall p | p in operands
          ensures this in p.users
        {
          var k :| 0 <= k < |operands| && operands[k] == p;
          assert old(operands[k]) in old(operands);
        }
      }
    }
  }

  // ---------------------------------------------------------------------
  // ALU vector operations
  // ---------------------------------------------------------------------

  datatype OpCode =
    | ADD | SUB | MUL | DIV
    | MULI
    | AND | OR | NOT
    | EQ | NEQ | LT | LEQ | GT | GEQ
    | MIN | MAX
    | MSE
    | SIG | TANH | EXP | LOG | RELU | RELUD | LOG_SOFTMAX | LOG_SOFTMAXD | RNDCMP
    | RESIZE
    | CONCAT
    | NOACT

  /** The opcodes whose two operands must have the same length. */
  predicate IsBinary(op: OpCode)
  {
    op in {ADD, SUB, MUL, DIV, AND, OR, EQ, NEQ, LT, LEQ, GT, GEQ, MIN, MAX, MSE}
  }

  datatype AluError = ImmediateMismatch | LengthMismatch | MissingOperand | ResizeTooLong

  /** Length of an ALUVectorOperation built from operands of lengths `len1`
   *  and (when there is a second operand) `len2`. `imm` tells which
   *  constructor builds it: the one taking an immediate (and no second
   *  operand) serves MULI alone, the one taking two operands every other
   *  opcode. Each assertion of the two constructors becomes an error. */
  function AluLength(op: OpCode, len1: nat, len2: Option<nat>, imm: bool): (r: Result<nat, AluError>)
    requires imm ==> len2.None?
    ensures r.Ok? <==> (imm <==> op == MULI)
                       && (IsBinary(op) ==> len2 == Some(len1))
                       && (op == RESIZE ==> len2.Some? && len1 + len2.value <= MVMU_DIM)
    ensures r.Ok? && op == RESIZE ==> r.value == len1 + len2.value && r.value <= MVMU_DIM
    ensures r.Ok? && op != RESIZE ==> r.value == len1
    ensures (r == Err(ImmediateMismatch)) <==> (imm <==> op != MULI)
    ensures r.Err? && IsBinary(op) && !imm ==> r.error == (if len2.None? then MissingOperand else LengthMismatch)
  {
    if imm != (op == MULI) then Err(ImmediateMismatch)
    else if IsBinary(op) then
      if len2.None? then Err(MissingOperand)
      else if len2.value != len1 then Err(LengthMismatch)
      else Ok(len1)
    else if op == RESIZE then
      if len2.None? then Err(MissingOperand)
      else if len1 + len2.value > MVMU_DIM then Err(ResizeTooLong)
      else Ok(len1 + len2.value)
    else
      Ok(len1)
  }

  /** A RESIZE result always fits in a single vector tile. */
  lemma ResizeFitsOneTile(len1: nat, len2: nat)
    requires len1 + len2 >= 1
    requires AluLength(RESIZE, len1, Some(len2), false).Ok?
    ensures Tensors.VectorNTiles(AluLength(RESIZE, len1, Some(len2), false).value) == 1
  {
  }

  // ---------------------------------------------------------------------
  // MVM sets
  // ---------------------------------------------------------------------

  /** Index of the first non-null slot. */
  function FirstUsed(slots: seq<object?>): (r: nat)
    requires exists i :: 0 <= i < |slots| && slots[i] != null
    ensures r < |slots| && slots[r] != null
    ensures forall j :: 0 <= j < r ==> slots[j] == null
  {
    if slots[0] != null then 0 else 1 + FirstUsed(slots[1..])
  }

  /** An MVM operation with its back-pointers to the sets that hold it. */
  class MvmOp {
    var mergedSet: MergedMvmSet?
    var coalescedSet: CoalescedMvmSet?

    constructor ()
      ensures mergedSet == null && coalescedSet == null
    {
      mergedSet := null;
      coalescedSet := null;
    }
  }

  /** MergedMVMSet: an unordered set of MVMs, itself placed in at most one
   *  coalesced set and one sliding set. */
  class MergedMvmSet {
    var mvms: set<MvmOp>
    var coalescedSet: CoalescedMergedMvmSet?
    var slidingSet: SlidingMergedMvmSet?

    constructor ()
      ensures mvms == {} && coalescedSet == null && slidingSet == null
    {
      mvms := {};
      coalescedSet := null;
      slidingSet := null;
    }

    /** MergedMVMSet::add: an MVM already in a merged set cannot join a
     *  second one. */
    method Add(mvm: MvmOp) returns (ok: bool)
      modifies this`mvms, mvm`mergedSet
      ensures ok <==> old(mvm.mergedSet) == null
      ensures ok ==> mvms == old(mvms) + {mvm} && mvm.mergedSet == this
      ensures !ok ==> mvms == old(mvms) && mvm.mergedSet == old(mvm.mergedSet)
    {
      if mvm.mergedSet != null {
        return false;
      }
      mvms := mvms + {mvm};
      mvm.mergedSet := this;
      return true;
    }

    /** MergedMVMSet::remove. */
    method Remove(mvm: MvmOp)
      modifies this`mvms, mvm`mergedSet
      ensures mvms == old(mvms) - {mvm} && mvm.mergedSet == null
    {
      mvms := mvms - {mvm};
      mvm.mergedSet := null;
    }
  }

  /** CoalescedMVMSet: one slot per physical MVMU of a core. */
  class CoalescedMvmSet {
    var mvms: seq<MvmOp?>

    constructor ()
      ensures |mvms| == N_CONSTANT_MVMUS_PER_CORE
      ensures forall i :: 0 <= i < |mvms| ==> mvms[i] == null
    {
      mvms := seq(N_CONSTANT_MVMUS_PER_CORE, _ => null);
    }

    /** CoalescedMVMSet::add: the slot must be empty and the MVM must not be
     *  coalesced already. */
    method Add(mvm: MvmOp, pMVMU: nat) returns (ok: bool)
      requires pMVMU < |mvms|
      modifies this, mvm`coalescedSet
      ensures ok <==> old(mvms[pMVMU]) == null && old(mvm.coalescedSet) == null
      ensures ok ==> mvms == old(mvms)[pMVMU := mvm] && mvm.coalescedSet == this
      ensures !ok ==> mvms == old(mvms) && mvm.coalescedSet == old(mvm.coalescedSet)
    {
      if mvms[pMVMU] != null || mvm.coalescedSet != null {
        return false;
      }
      mvms := mvms[pMVMU := mvm];
      mvm.coalescedSet := this;
      return true;
    }

    /** CoalescedMVMSet::isSetLeader: the leader is the first used slot. */
    method IsSetLeader(mvm: MvmOp) returns (leader: bool)
      requires exists i :: 0 <= i < |mvms| && mvms[i] != null
      ensures leader <==> mvms[FirstUsed(mvms)] == mvm
      ensures leader <==> exists i :: 0 <= i < |mvms| && mvms[i] == mvm
                                      && forall j :: 0 <= j < i ==> mvms[j] == null
    {
      var first := FirstUsed(mvms);
      for i := 0 to |mvms|
        invariant i <= first
        invariant forall j :: 0 <= j < i ==> mvms[j] == null
      {
        var m := mvms[i];
        if m != null {
          return m == mvm;
        }
      }
      assert false;
    }
  }

  /** CoalescedMergedMVMSet: one merged set per physical MVMU of a core. */
  class CoalescedMergedMvmSet {
    var mvms: seq<MergedMvmSet?>

    constructor ()
      ensures |mvms| == N_CONSTANT_MVMUS_PER_CORE
      ensures forall i :: 0 <= i < |mvms| ==> mvms[i] == null
    {
      mvms := seq(N_CONSTANT_MVMUS_PER_CORE, _ => null);
    }

    method Add(mvm: MergedMvmSet, pMVMU: nat) returns (ok: bool)
      requires pMVMU < |mvms|
      modifies this, mvm`coalescedSet
      ensures ok <==> old(mvms[pMVMU]) == null && old(mvm.coalescedSet) == null
      ensures ok ==> mvms == old(mvms)[pMVMU := mvm] && mvm.coalescedSet == this
      ensures !ok ==> mvms == old(mvms) && mvm.coalescedSet == old(mvm.coalescedSet)
    {
      if mvms[pMVMU] != null || mvm.coalescedSet != null {
        return false;
      }
      mvms := mvms[pMVMU := mvm];
      mvm.coalescedSet := this;
      return true;
    }

    /** CoalescedMergedMVMSet::removeAll: empties every slot and detaches
     *  each member from this set. */
    method RemoveAll()
      modifies this, set m: MergedMvmSet | m in mvms
      ensures |mvms| == |old(mvms)|
      ensures forall i :: 0 <= i < |mvms| ==> mvms[i] == null
      ensures forall m: MergedMvmSet :: m in old(mvms) ==> m.coalescedSet == null
      ensures forall m: MergedMvmSet :: m in old(mvms) ==>
                m.mvms == old(m.mvms) && m.slidingSet == old(m.slidingSet)
    {
      for i := 0 to |mvms|
        invariant |mvms| == |old(mvms)|
        invariant forall k :: 0 <= k < i ==> mvms[k] == null
        invariant forall k :: i <= k < |mvms| ==> mvms[k] == old(mvms[k])
        invariant forall m: MergedMvmSet :: m in old(mvms[..i]) ==> m.coalescedSet == null
        invariant forall m: MergedMvmSet :: m in old(mvms) ==>
                    m.mvms == old(m.mvms) && m.slidingSet == old(m.slidingSet)
      {
        var merged := mvms[i];
        if merged != null {
          mvms := mvms[i := null];
          merged.coalescedSet := null;
        }
        assert old(mvms[..i + 1]) == old(mvms[..i]) + [old(mvms[i])];
      }
      assert old(mvms[..|mvms|]) == old(mvms);
    }

    method IsSetLeader(mvm: MergedMvmSet) returns (leader: bool)
      requires exists i :: 0 <= i < |mvms| && mvms[i] != null
      ensures leader <==> mvms[FirstUsed(mvms)] == mvm
    {
      var first := FirstUsed(mvms);
      for i := 0 to |mvms|
        invariant i <= first
        invariant forall j :: 0 <= j < i ==> mvms[j] == null
      {
        var m := mvms[i];
        if m != null {
          return m == mvm;
        }
      }
      assert false;
    }

    /** CoalescedMergedMVMSet::isComplete: every physical MVMU is used. */
    method IsComplete() returns (complete: bool)
      ensures complete <==> forall i :: 0 <= i < |mvms| ==> mvms[i] != null
    {
      for i := 0 to |mvms|
        invariant forall j :: 0 <= j < i ==> mvms[j] != null
      {
        if mvms[i] == null {
          return false;
        }
      }
      return true;
    }
  }

  /** SlidingMergedMVMSet: an ordered set of merged MVMs run by one MVMU,
   *  one slot per slide. */
  class SlidingMergedMvmSet {
    var mvms: seq<MergedMvmSet?>

    constructor (slideSize: nat)
      ensures |mvms| == slideSize
      ensures forall i :: 0 <= i < |mvms| ==> mvms[i] == null
    {
      mvms := seq(slideSize, _ => null);
    }

    /** SlidingMergedMVMSet::add. */
    method Add(mvm: MergedMvmSet, slideId: nat) returns (ok: bool)
      requires slideId < |mvms|
      modifies this, mvm`slidingSet
      ensures ok <==> old(mvms[slideId]) == null && old(mvm.slidingSet) == null
      ensures ok ==> mvms == old(mvms)[slideId := mvm] && mvm.slidingSet == this
      ensures !ok ==> mvms == old(mvms) && mvm.slidingSet == old(mvm.slidingSet)
    {
      if mvms[slideId] != null || mvm.slidingSet != null {
        return false;
      }
      mvms := mvms[slideId := mvm];
      mvm.slidingSet := this;
      return true;
    }
  }

  // ---------------------------------------------------------------------
  // Image shapes
  // ---------------------------------------------------------------------

  /** maxpool: the output dimension for a window span. */
  function PoolOutDim(inDim: nat, span: nat): (r: nat)
    requires inDim >= 1 && span >= 1
    ensures r == CeilDiv(inDim, span)
    ensures forall x :: 0 <= x < inDim ==> x / span < r
  {
    CeilDivIdiom(inDim, span);
    forall x | 0 <= x < inDim
      ensures x / span <= (inDim - 1) / span
    {
      DivMono(x, inDim - 1, span);
    }
    (inDim - 1) / span + 1
  }

  /** The rows (or columns) of the output image that duplicate `d` of `dup`
   *  produces: the image split as evenly as possible, the first duplicates
   *  taking one more. */
  function PlainShare(outDim: nat, dup: nat, d: nat): nat
    requires dup >= 1
  {
    outDim / dup + (if d < outDim % dup then 1 else 0)
  }

  /** The share of a pooled layer, which hands out pairs of rows. */
  function PooledShare(outDim: nat, dup: nat, d: nat): nat
    requires dup >= 1
  {
    2 * (outDim / (dup * 2) + (if d * 2 < outDim % (dup * 2) then 1 else 0))
  }

  function DuplicateShare(outDim: nat, dup: nat, isPool: bool, d: nat): nat
    requires dup >= 1
  {
    if isPool then PooledShare(outDim, dup, d) else PlainShare(outDim, dup, d)
  }

  /** The duplicate split loop: every duplicate gets its share and its
   *  offset, the offsets being the running sum of the shares. Without
   *  pooling the shares differ by at most one and cover the image exactly;
   *  with pooling they are even and cover the image rounded up to even. */
  method DuplicateSplit(outDim: nat, dup: nat, isPool: bool)
    returns (shares: seq<nat>, offsets: seq<nat>)
    requires dup >= 1
    ensures |shares| == dup && |offsets| == dup
    ensures forall d :: 0 <= d < dup ==> offsets[d] == Sum(shares[..d])
    ensures !isPool ==> Sum(shares) == outDim
    ensures !isPool ==> forall d :: 0 <= d < dup ==>
              outDim / dup <= shares[d] <= outDim / dup + 1
    ensures isPool ==> Sum(shares) == outDim + outDim % 2
    ensures isPool ==> forall d :: 0 <= d < dup ==> shares[d] % 2 == 0
    ensures forall d, e :: 0 <= d < e < dup ==> shares[d] >= shares[e]
  {
    shares, offsets := [], [];
    for d := 0 to dup
      invariant |shares| == d && |offsets| == d
      invariant forall k :: 0 <= k < d ==> shares[k] == DuplicateShare(outDim, dup, isPool, k)
      invariant forall k :: 0 <= k < d ==> offsets[k] == Sum(shares[..k])
    {
      var share := DuplicateShare(outDim, dup, isPool, d);
      var offset := 0;
      if d != 0 {
        offset := shares[d - 1] + offsets[d - 1];
        assert shares[..d] == shares[..d - 1] + [shares[d - 1]];
        SumAppend(shares[..d - 1], shares[d - 1]);
      }
      ghost var before := shares;
      shares := shares + [share];
      offsets := offsets + [offset];
      assert shares[..d] == before;
      assert forall k :: 0 <= k < d ==> shares[..k] == before[..k];
    }
    SplitTotal(outDim, dup, isPool, shares);
  }

  /** A pooled share is twice a base amount, plus two for the first
   *  ceil(r / 2) duplicates, where r is what the pairs leave over. */
  lemma PooledShareShape(outDim: nat, dup: nat, d: nat)
    requires dup >= 1
    ensures PooledShare(outDim, dup, d)
            == 2 * (outDim / (dup * 2) + (if d < (outDim % (dup * 2) + 1) / 2 then 1 else 0))
  {
  }

  /** Prefix sums of shares of the form scale * (base + [k < extra]). */
  lemma {:induction false} StepPrefix(shares: seq<nat>, scale: nat, base: nat, extra: nat, n: nat)
    requires n <= |shares|
    requires forall k :: 0 <= k < |shares| ==>
               shares[k] == scale * (base + (if k < extra then 1 else 0))
    ensures Sum(shares[..n]) == scale * (n * base + (if n < extra then n else extra))
  {
    if n > 0 {
      StepPrefix(shares, scale, base, extra, n - 1);
      assert shares[..n] == shares[..n - 1] + [shares[n - 1]];
      SumAppend(shares[..n - 1], shares[n - 1]);
      var m := if n - 1 < extra then n - 1 else extra;
      var bump := if n - 1 < extra then 1 else 0;
      assert (if n < extra then n else extra) == m + bump;
      PrefixArith(scale, base, n, m, bump);
    }
  }

  lemma PrefixArith(scale: nat, base: nat, n: nat, m: nat, bump: nat)
    requires n >= 1
    ensures scale * ((n - 1) * base + m) + scale * (base + bump) == scale * (n * base + (m + bump))
  {
    assert n * base == (n - 1) * base + base;
    assert scale * ((n - 1) * base + m) + scale * (base + bump)
        == scale * (((n - 1) * base + m) + (base + bump));
  }

  /** Shares of the form scale * (base + [k < extra]) with extra <= their
   *  number add up to scale * (|shares| * base + extra) and never grow. */
  lemma StepShares(shares: seq<nat>, scale: nat, base: nat, extra: nat)
    requires extra <= |shares|
    requires forall k :: 0 <= k < |shares| ==>
               shares[k] == scale * (base + (if k < extra then 1 else 0))
    ensures Sum(shares) == scale * (|shares| * base + extra)
    ensures forall d, e :: 0 <= d < e < |shares| ==> shares[d] >= shares[e]
  {
    StepPrefix(shares, scale, base, extra, |shares|);
    assert shares[..|shares|] == shares;
    forall d, e | 0 <= d < e < |shares|
      ensures shares[d] >= shares[e]
    {
      MulMonoLeft(scale, base + (if e < extra then 1 else 0), base + (if d < extra then 1 else 0));
    }
  }

  lemma MulMonoLeft(a: nat, x: nat, y: nat)
    requires x <= y
    ensures a * x <= a * y
  {
    assert a * y == a * x + a * (y - x);
  }

  lemma SplitTotal(outDim: nat, dup: nat, isPool: bool, shares: seq<nat>)
    requires dup >= 1 && |shares| == dup
    requires forall k :: 0 <= k < dup ==> shares[k] == DuplicateShare(outDim, dup, isPool, k)
    ensures !isPool ==> Sum(shares) == outDim
    ensures !isPool ==> forall d :: 0 <= d < dup ==> outDim / dup <= shares[d] <= outDim / dup + 1
    ensures isPool ==> Sum(shares) == outDim + outDim % 2
    ensures isPool ==> forall d :: 0 <= d < dup ==> shares[d] % 2 == 0
    ensures forall d, e :: 0 <= d < e < dup ==> shares[d] >= shares[e]
  {
    if isPool {
      PoolSplit(outDim, dup, shares);
    } else {
      PlainSplit(outDim, dup, shares);
    }
  }

  lemma PlainSplit(outDim: nat, dup: nat, shares: seq<nat>)
    requires dup >= 1 && |shares| == dup
    requires forall k :: 0 <= k < dup ==> shares[k] == PlainShare(outDim, dup, k)
    ensures Sum(shares) == outDim
    ensures forall d :: 0 <= d < dup ==> outDim / dup <= shares[d] <= outDim / dup + 1
    ensures forall d, e :: 0 <= d < e < dup ==> shares[d] >= shares[e]
  {
    var q, r := outDim / dup, outDim % dup;
    forall k | 0 <= k < |shares|
      ensures shares[k] == 1 * (q + (if k < r then 1 else 0))
    {
    }
    StepShares(shares, 1, q, r);
    assert outDim == dup * q + r;
  }

  lemma PoolSplit(outDim: nat, dup: nat, shares: seq<nat>)
    requires dup >= 1 && |shares| == dup
    requires forall k :: 0 <= k < dup ==> shares[k] == PooledShare(outDim, dup, k)
    ensures Sum(shares) == outDim + outDim % 2
    ensures forall d :: 0 <= d < dup ==> shares[d] % 2 == 0
    ensures forall d, e :: 0 <= d < e < dup ==> shares[d] >= shares[e]
  {
    var q, t := outDim / (dup * 2), (outDim % (dup * 2) + 1) / 2;
    PoolArith(outDim, dup);
    forall k | 0 <= k < |shares|
      ensures shares[k] == 2 * (q + (if k < t then 1 else 0))
    {
      PooledShareShape(outDim, dup, k);
    }
    StepShares(shares, 2, q, t);
  }

  /** Pooled shares add up to the image size rounded up to even. */
  lemma PoolArith(outDim: nat, dup: nat)
    requires dup >= 1
    ensures (outDim % (dup * 2) + 1) / 2 <= dup
    ensures 2 * (dup * (outDim / (dup * 2)) + (outDim % (dup * 2) + 1) / 2) == outDim + outDim % 2
  {
    var w := dup * 2;
    var q, r := outDim / w, outDim % w;
    var m := dup * q;
    assert q * w == 2 * m;
    assert outDim == 2 * m + r;
    assert 2 * ((r + 1) / 2) == r + r % 2;
  }
}

/** The integer and mask parts of instruction emission (codegen.cpp): the
 *  transfer width of load, store, guard, send and receive, the MVMU mask of
 *  an MVM instruction, the rule that one member of a coalesced set speaks
 *  for all, and the consumer counter of store and receive. */
module CodeGen {
  import opened Common
  import opened Wrappers
  import opened Operations

  // ---------------------------------------------------------------------
  // Transfer width
  // ---------------------------------------------------------------------

  /** The width search `for (w = max; length % w != 0; --w)`: the widest
   *  transfer of at most maxWidth words that divides the length, and the
   *  number of transfers it takes. */
  method TransferShape(length: nat, maxWidth: nat) returns (width: nat, vec: nat)
    requires maxWidth >= 1
    ensures 1 <= width <= maxWidth
    ensures length % width == 0
    ensures forall w :: width < w <= maxWidth ==> length % w != 0
    ensures vec * width == length
  {
    width := maxWidth;
    while length % width != 0
      invariant 1 <= width <= maxWidth
      invariant forall w :: width < w <= maxWidth ==> length % w != 0
      decreases width
    {
      width := width - 1;
    }
    vec := length / width;
    DivModUnique(length, width, vec, 0);
  }

  // ---------------------------------------------------------------------
  // MVMU masks
  // ---------------------------------------------------------------------

  /** The mask string of an MVM instruction: '1' for a used MVMU, '0' for
   *  an idle one. */
  function Mask(used: seq<bool>): (m: string)
    ensures |m| == |used|
    ensures forall i :: 0 <= i < |m| ==> m[i] in {'0', '1'}
    ensures forall i :: 0 <= i < |m| ==> (m[i] == '1' <==> used[i])
  {
    if used == [] then ""
    else Mask(used[..|used| - 1]) + [if used[|used| - 1] then '1' else '0']
  }

  /** Which MVMUs a mask string names. */
  function UsedOf(m: string): (used: seq<bool>)
    ensures |used| == |m|
  {
    seq(|m|, i requires 0 <= i < |m| => m[i] == '1')
  }

  /** Reading a mask back gives the MVMUs it was built from. */
  lemma MaskRoundTrip(used: seq<bool>)
    ensures UsedOf(Mask(used)) == used
  {
  }

  /** A mask string of '0' and '1' is rebuilt from the MVMUs it names. */
  lemma UsedOfRoundTrip(m: string)
    requires forall i :: 0 <= i < |m| ==> m[i] in {'0', '1'}
    ensures Mask(UsedOf(m)) == m
  {
  }

  /** The number of '1' characters of a mask. */
  function Ones(m: string): nat
  {
    if m == [] then 0 else Ones(m[..|m| - 1]) + (if m[|m| - 1] == '1' then 1 else 0)
  }

  /** The number of true entries. */
  function CountTrue(used: seq<bool>): nat
  {
    if used == [] then 0 else CountTrue(used[..|used| - 1]) + (if used[|used| - 1] then 1 else 0)
  }

  /** A mask has one '1' per used MVMU. */
  lemma {:induction false} OnesOfMask(used: seq<bool>)
    ensures Ones(Mask(used)) == CountTrue(used)
  {
    if used != [] {
      var init := used[..|used| - 1];
      OnesOfMask(init);
      assert Mask(used)[..|used| - 1] == Mask(init);
    }
  }

  /** Only the MVMU at p is used. */
  function OneHot(n: nat, p: nat): (used: seq<bool>)
    ensures |used| == n
  {
    seq(n, i => i == p)
  }

  /** One-hot sequences have one true entry when p is a slot and none
   *  otherwise. */
  lemma {:induction false} CountOneHot(n: nat, p: nat)
    ensures CountTrue(OneHot(n, p)) == if p < n then 1 else 0
  {
    if n > 0 {
      assert OneHot(n, p)[..n - 1] == OneHot(n - 1, p);
      CountOneHot(n - 1, p);
    }
  }

  /** The mask of an MVM outside any coalesced set: N_CONSTANT_MVMUS_PER_CORE
   *  characters with a single '1' at its physical MVMU. */
  function SingleMask(pMVMU: nat): (m: string)
    ensures |m| == N_CONSTANT_MVMUS_PER_CORE
    ensures pMVMU < N_CONSTANT_MVMUS_PER_CORE ==> Ones(m) == 1 && m[pMVMU] == '1'
    ensures pMVMU >= N_CONSTANT_MVMUS_PER_CORE ==> Ones(m) == 0
  {
    OnesOfMask(OneHot(N_CONSTANT_MVMUS_PER_CORE, pMVMU));
    CountOneHot(N_CONSTANT_MVMUS_PER_CORE, pMVMU);
    Mask(OneHot(N_CONSTANT_MVMUS_PER_CORE, pMVMU))
  }

  /** The slots of a coalesced set that hold an MVM. */
  function SlotsUsed(s: CoalescedMvmSet): (used: seq<bool>)
    reads s
    ensures |used| == |s.mvms|
    ensures forall i :: 0 <= i < |used| ==> (used[i] <==> s.mvms[i] != null)
  {
    seq(|s.mvms|, i requires 0 <= i < |s.mvms| reads s => s.mvms[i] != null)
  }

  /** codegen(MVMOperation): an MVM outside a coalesced set emits its own
   *  one-hot mask; inside a set, only the leader emits, with the mask of
   *  every used slot, and every other member emits nothing (None). */
  method MvmMask(mvm: MvmOp, pMVMU: nat) returns (mask: Option<string>)
    requires mvm.coalescedSet != null ==> mvm in mvm.coalescedSet.mvms
    ensures mvm.coalescedSet == null ==> mask == Some(SingleMask(pMVMU))
    ensures mvm.coalescedSet != null ==>
              var s := mvm.coalescedSet;
              (mask.Some? <==> s.mvms[FirstUsed(s.mvms)] == mvm)
              && (mask.Some? ==> mask.value == Mask(SlotsUsed(s))
                                 && Ones(mask.value) == CountTrue(SlotsUsed(s)) >= 1)
  {
    var s := mvm.coalescedSet;
    if s == null {
      return Some(SingleMask(pMVMU));
    }
    var leader := s.IsSetLeader(mvm);
    if !leader {
      return None;
    }
    var used := SlotsUsed(s);
    OnesOfMask(used);
    CountTrueAtLeastOne(used, FirstUsed(s.mvms));
    return Some(Mask(used));
  }

  /** A sequence with a true entry counts at least one. */
  lemma {:induction false} CountTrueAtLeastOne(used: seq<bool>, k: nat)
    requires k < |used| && used[k]
    ensures CountTrue(used) >= 1
  {
    if k < |used| - 1 {
      CountTrueAtLeastOne(used[..|used| - 1], k);
    }
  }

  // ---------------------------------------------------------------------
  // Consumer counter
  // ---------------------------------------------------------------------

  /** The kinds of operation that read tile memory. */
  datatype ReaderKind = LoadReader | GuardReader | SendReader | OutputReader

  /** The counter of store and receive: the number of readers that will
   *  consume the data, i.e. every user except MVM guards. */
  method ConsumerCount(users: seq<ReaderKind>) returns (counter: nat)
    ensures counter + multiset(users)[GuardReader] == |users|
    ensures counter <= |users|
    ensures (forall i :: 0 <= i < |users| ==> users[i] != GuardReader) ==> counter == |users|
  {
    counter := 0;
    for i := 0 to |users|
      invariant counter + multiset(users[..i])[GuardReader] == i
    {
      assert users[..i + 1] == users[..i] + [users[i]];
      if users[i] != GuardReader {
        counter := counter + 1;
      }
    }
    assert users[..|users|] == users;
    if forall i :: 0 <= i < |users| ==> users[i] != GuardReader {
      assert GuardReader !in users;
    }
  }
}

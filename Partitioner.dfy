/** The graph partitioner's bookkeeping (partitioner.cpp): operations are
 *  bound to virtual MVMUs, virtual MVMUs are grouped in order into virtual
 *  cores and virtual cores into virtual tiles. Index 0 and 1 of every level
 *  are reserved for the input and the output tile. Operations, merged MVM
 *  sets and matrix tiles are identified by numbers. */
module Partitioner {
  import opened Common

  /** What assignVMVMU and reassignVMVMU need to know about an operation:
   *  an MVM (whether it is the last of its merged set, and that set's id),
   *  an ALU operation (whether it is a RESIZE) or anything else. */
  datatype OpKind =
    | MvmKind(isLast: bool, mergedSet: nat)
    | AluKind(isResize: bool)
    | OtherKind

  /** Reduction of an integer to a 32-bit unsigned value. */
  function Wrap(x: int): (r: nat)
    ensures r < UINT_MOD
    ensures 0 <= x < UINT_MOD ==> r == x
  {
    x % UINT_MOD
  }

  /** The number of groups, counting the two reserved ones, when the units
   *  2 .. n-1 are packed `per` to a group. */
  function GroupCount(n: nat, per: nat): (r: nat)
    requires n >= 2 && per >= 1
    ensures r >= 2
    ensures (r - 2) * per >= n - 2
    ensures r == 2 || (r - 3) * per < n - 2
  {
    2 + CeilDiv(n - 2, per)
  }

  /** The group count as partitioner.cpp computes it in unsigned 32-bit
   *  arithmetic: `2 + ((n - 2 - 1) / per + 1)`. For n == 2 the subtraction
   *  wraps around. */
  function GroupCountAsWritten(n: nat, per: nat): (r: nat)
    requires 2 <= n < UINT_MOD && 1 <= per
    ensures r < UINT_MOD
  {
    Wrap(2 + Wrap(Wrap(n - 2 - 1) / per + 1))
  }

  /** Whenever a unit beyond the reserved ones exists, the unsigned formula
   *  is the exact group count. */
  lemma GroupCountAsWrittenExact(n: nat, per: nat)
    requires 3 <= n < UINT_MOD && 1 <= per
    ensures GroupCountAsWritten(n, per) == GroupCount(n, per)
  {
    var q := (n - 3) / per;
    assert Wrap(n - 3) == n - 3;
    DivMono(n - 3, UINT_MOD - 1, per);
    assert q <= (UINT_MOD - 1) / per;
    assert q + 1 < UINT_MOD - 2;
    CeilDivIdiom(n - 2, per);
  }

  /** With one MVMU per core, the wrap of the empty case cancels out: the
   *  unsigned formula gives two cores for two virtual MVMUs. */
  lemma VCoreCountAsWrittenExact(nVMVMUs: nat)
    requires 2 <= nVMVMUs < UINT_MOD
    ensures GroupCountAsWritten(nVMVMUs, N_CONSTANT_MVMUS_PER_CORE)
            == GroupCount(nVMVMUs, N_CONSTANT_MVMUS_PER_CORE)
  {
    if nVMVMUs == 2 {
      assert Wrap(-1) == UINT_MOD - 1;
      assert Wrap(UINT_MOD - 1 + 1) == 0;
    } else {
      GroupCountAsWrittenExact(nVMVMUs, N_CONSTANT_MVMUS_PER_CORE);
    }
  }

  /** With 24 cores per tile the wrap does not cancel: two virtual cores
   *  (no matrix tile at all) give 178956973 virtual tiles instead of 2. */
  lemma VTileCountAsWrittenWraps()
    ensures GroupCountAsWritten(2, N_CORES_PER_TILE) == 178956973
    ensures GroupCount(2, N_CORES_PER_TILE) == 2
  {
    assert Wrap(-1) == UINT_MOD - 1;
    assert (UINT_MOD - 1) / N_CORES_PER_TILE == 178956970;
  }

  /** The group of unit v: units 0 and 1 keep their own group, units from 2
   *  on are packed `per` to a group starting at group 2. */
  function GroupOf(v: nat, per: nat): (g: nat)
    requires per >= 1
    ensures v < 2 ==> g == v
    ensures v >= 2 ==> g >= 2 && (g - 2) * per <= v - 2 < (g - 1) * per
  {
    if v < 2 then v
    else
      var g := (v - 2) / per + 2;
      assert (v - 2) == (g - 2) * per + (v - 2) % per;
      assert (g - 1) * per == (g - 2) * per + per;
      g
  }

  /** The first unit of group g. */
  function FirstOfGroup(g: nat, per: nat): (v: nat)
    requires per >= 1
    ensures GroupOf(v, per) == g
  {
    if g < 2 then g
    else
      DivModUnique((g - 2) * per, per, g - 2, 0);
      2 + (g - 2) * per
  }

  /** Every unit's group is below the group count. */
  lemma GroupBelowCount(v: nat, n: nat, per: nat)
    requires n >= 2 && per >= 1 && v < n
    ensures GroupOf(v, per) < GroupCount(n, per)
  {
    var g := GroupOf(v, per);
    var count := GroupCount(n, per);
    if v >= 2 && g >= count {
      MulGap(g - 2, count - 3, per);
      assert false;
    }
  }

  /** Every group below the count has its first unit among the units. */
  lemma FirstOfGroupInRange(g: nat, n: nat, per: nat)
    requires n >= 2 && per >= 1 && g < GroupCount(n, per)
    ensures FirstOfGroup(g, per) < n
  {
    var count := GroupCount(n, per);
    if g >= 2 && (g - 2) * per >= n - 2 {
      MulGap(count - 2, g - 2, per);
      assert false;
    }
  }

  /** The in-order grouping loop shared by assignVCoresInVMVMUOrder and
   *  assignVTilesInVMVMUOrder: every unit gets its group, every group is
   *  below the count and every group below the count is used, first by its
   *  first unit. */
  method GroupInOrder(n: nat, per: nat) returns (group: seq<nat>, count: nat)
    requires n >= 2 && per >= 1
    ensures count == GroupCount(n, per)
    ensures |group| == n
    ensures forall v :: 0 <= v < n ==> group[v] == GroupOf(v, per)
    ensures forall v :: 0 <= v < n ==> group[v] < count
    ensures forall g :: 0 <= g < count ==> FirstOfGroup(g, per) < n && group[FirstOfGroup(g, per)] == g
  {
    count := 2;
    count := count + ((n - 2 + per - 1) / per);
    group := [0, 1];
    for v := 2 to n
      invariant |group| == v
      invariant forall u :: 0 <= u < v ==> group[u] == GroupOf(u, per)
    {
      group := group + [(v - 2) / per + 2];
    }
    forall v | 0 <= v < n
      ensures group[v] < count
    {
      GroupBelowCount(v, n, per);
    }
    forall g | 0 <= g < count
      ensures FirstOfGroup(g, per) < n
    {
      FirstOfGroupInRange(g, n, per);
    }
  }

  class Partitioner {
    /** op2vmvmu_: the virtual MVMU of each operation and merged MVM set. */
    var op2vmvmu: map<nat, nat>
    /** cmat2vmvmu_: the virtual MVMU of each constant-matrix tile. */
    var cmat2vmvmu: map<nat, nat>
    var nVMVMUs: nat
    var nVCores: nat
    var nVTiles: nat
    /** vmvmu2vcore_ and vcore2vtile_, indexed by virtual MVMU / core. */
    var vmvmu2vcore: seq<nat>
    var vcore2vtile: seq<nat>

    /** The core and tile maps are consistent with the counts. */
    ghost predicate Valid()
      reads this
    {
      && nVMVMUs >= 2
      && |vmvmu2vcore| == nVMVMUs
      && (forall v :: 0 <= v < nVMVMUs ==> vmvmu2vcore[v] < nVCores)
      && |vcore2vtile| == nVCores
      && (forall c :: 0 <= c < nVCores ==> vcore2vtile[c] < nVTiles)
    }

    /** Nothing is assigned before partitioning starts. */
    constructor ()
      ensures op2vmvmu == map[] && cmat2vmvmu == map[]
      ensures nVMVMUs == 0 && nVCores == 0 && nVTiles == 0
      ensures vmvmu2vcore == [] && vcore2vtile == []
    {
      op2vmvmu := map[];
      cmat2vmvmu := map[];
      nVMVMUs := 0;
      nVCores := 0;
      nVTiles := 0;
      vmvmu2vcore := [];
      vcore2vtile := [];
    }

    /** reassignVMVMU: only a RESIZE operation may be moved to another
     *  virtual MVMU; anything else is refused and nothing changes. */
    method ReassignVMVMU(op: nat, kind: OpKind, vMVMU: nat) returns (ok: bool)
      modifies this`op2vmvmu
      ensures ok <==> kind.AluKind? && kind.isResize
      ensures op2vmvmu == if ok then old(op2vmvmu)[op := vMVMU] else old(op2vmvmu)
    {
      if !(kind.AluKind? && kind.isResize) {
        return false;
      }
      op2vmvmu := op2vmvmu[op := vMVMU];
      return true;
    }

    /** assignVMVMU: an operation is bound at most once; the last MVM of a
     *  merged set also binds the set. A refused call changes nothing. */
    method AssignVMVMU(op: nat, kind: OpKind, vMVMU: nat) returns (ok: bool)
      modifies this`op2vmvmu
      ensures ok <==> op !in old(op2vmvmu)
      ensures !ok ==> op2vmvmu == old(op2vmvmu)
      ensures ok && kind.MvmKind? && kind.isLast ==>
                op2vmvmu == old(op2vmvmu)[op := vMVMU][kind.mergedSet := vMVMU]
      ensures ok && !(kind.MvmKind? && kind.isLast) ==>
                op2vmvmu == old(op2vmvmu)[op := vMVMU]
    {
      if op in op2vmvmu {
        return false;
      }
      op2vmvmu := op2vmvmu[op := vMVMU];
      if kind.MvmKind? && kind.isLast {
        op2vmvmu := op2vmvmu[kind.mergedSet := vMVMU];
      }
      return true;
    }

    /** cloneAssignment: a copy inherits the virtual MVMU of its original,
     *  if the original has one. */
    method CloneAssignment(cloneFrom: nat, cloneTo: nat, kindTo: OpKind) returns (ok: bool)
      modifies this`op2vmvmu
      ensures cloneFrom !in old(op2vmvmu) ==> ok && op2vmvmu == old(op2vmvmu)
      ensures cloneFrom in old(op2vmvmu) && ok ==>
                cloneTo in op2vmvmu && op2vmvmu[cloneTo] == old(op2vmvmu)[cloneFrom]
      ensures cloneFrom in old(op2vmvmu) && ok && kindTo.MvmKind? && kindTo.isLast ==>
                op2vmvmu == old(op2vmvmu)[cloneTo := old(op2vmvmu)[cloneFrom]]
                                         [kindTo.mergedSet := old(op2vmvmu)[cloneFrom]]
      ensures cloneFrom in old(op2vmvmu) && ok && !(kindTo.MvmKind? && kindTo.isLast) ==>
                op2vmvmu == old(op2vmvmu)[cloneTo := old(op2vmvmu)[cloneFrom]]
      ensures cloneFrom in old(op2vmvmu) ==> (ok <==> cloneTo !in old(op2vmvmu))
      ensures !ok ==> op2vmvmu == old(op2vmvmu)
    {
      if cloneFrom in op2vmvmu {
        var v := op2vmvmu[cloneFrom];
        ok := AssignVMVMU(cloneTo, kindTo, v);
        if ok && kindTo.MvmKind? && kindTo.isLast && kindTo.mergedSet == cloneTo {
          assert op2vmvmu[cloneTo] == v;
        }
      } else {
        ok := true;
      }
    }

    /** The numbering part of assignVMVMUsAndSpreadAffinity: virtual MVMUs
     *  0 and 1 are reserved, and for an INFERENCE model the matrix tiles,
     *  in the order `tiles` lists them (after the shuffle), take 2, 3, ...
     *  Any other model numbers no tile. */
    method AssignMatrixTiles(tiles: seq<nat>, inference: bool)
      requires forall k, l :: 0 <= k < l < |tiles| ==> tiles[k] != tiles[l]
      modifies this`nVMVMUs, this`cmat2vmvmu
      ensures nVMVMUs == if inference then 2 + |tiles| else 2
      ensures !inference ==> cmat2vmvmu == old(cmat2vmvmu)
      ensures inference ==>
                forall k :: 0 <= k < |tiles| ==> tiles[k] in cmat2vmvmu && cmat2vmvmu[tiles[k]] == 2 + k
      ensures inference ==>
                cmat2vmvmu.Keys == old(cmat2vmvmu.Keys) + set k | 0 <= k < |tiles| :: tiles[k]
      ensures forall t :: t in old(cmat2vmvmu) && t !in tiles ==> t in cmat2vmvmu && cmat2vmvmu[t] == old(cmat2vmvmu)[t]
    {
      nVMVMUs := 2;
      if inference {
        for i := 0 to |tiles|
          invariant nVMVMUs == 2 + i
          invariant forall k :: 0 <= k < i ==> tiles[k] in cmat2vmvmu && cmat2vmvmu[tiles[k]] == 2 + k
          invariant cmat2vmvmu.Keys == old(cmat2vmvmu.Keys) + set k | 0 <= k < i :: tiles[k]
          invariant forall t :: t in old(cmat2vmvmu) && t !in tiles ==> t in cmat2vmvmu && cmat2vmvmu[t] == old(cmat2vmvmu)[t]
        {
          var vMVMU := nVMVMUs;
          nVMVMUs := nVMVMUs + 1;
          cmat2vmvmu := cmat2vmvmu[tiles[i] := vMVMU];
        }
      }
    }

    /** assignVCoresInVMVMUOrder: one constant MVMU per core, so every
     *  virtual MVMU gets a core of its own. */
    method AssignVCoresInVMVMUOrder()
      requires 2 <= nVMVMUs < UINT_MOD
      modifies this`vmvmu2vcore, this`nVCores
      ensures nVCores == GroupCountAsWritten(nVMVMUs, N_CONSTANT_MVMUS_PER_CORE)
      ensures nVCores == nVMVMUs
      ensures |vmvmu2vcore| == nVMVMUs
      ensures forall v :: 0 <= v < nVMVMUs ==> vmvmu2vcore[v] == v
    {
      vmvmu2vcore, nVCores := GroupInOrder(nVMVMUs, N_CONSTANT_MVMUS_PER_CORE);
      VCoreCountAsWrittenExact(nVMVMUs);
    }

    /** assignVTilesInVMVMUOrder with the corrected tile count: 24 cores to
     *  a tile, every core's tile below the count, every tile used. */
    method AssignVTilesInVMVMUOrder()
      requires nVMVMUs >= 2 && nVCores >= 2
      requires |vmvmu2vcore| == nVMVMUs
      requires forall v :: 0 <= v < nVMVMUs ==> vmvmu2vcore[v] < nVCores
      modifies this`vcore2vtile, this`nVTiles
      ensures Valid()
      ensures nVTiles == GroupCount(nVCores, N_CORES_PER_TILE)
      ensures forall c :: 0 <= c < nVCores ==> vcore2vtile[c] == GroupOf(c, N_CORES_PER_TILE)
      ensures forall t :: 0 <= t < nVTiles ==>
                FirstOfGroup(t, N_CORES_PER_TILE) < nVCores
                && vcore2vtile[FirstOfGroup(t, N_CORES_PER_TILE)] == t
    {
      vcore2vtile, nVTiles := GroupInOrder(nVCores, N_CORES_PER_TILE);
    }

    /** getVTile(op): an operation bound to an existing virtual MVMU lies on
     *  an existing virtual core and tile. */
    method GetVTile(op: nat) returns (vTile: nat)
      requires Valid() && op in op2vmvmu && op2vmvmu[op] < nVMVMUs
      ensures vTile == vcore2vtile[vmvmu2vcore[op2vmvmu[op]]]
      ensures vTile < nVTiles
    {
      var vCore := vmvmu2vcore[op2vmvmu[op]];
      vTile := vcore2vtile[vCore];
    }
  }
}

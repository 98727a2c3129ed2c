/** Register allocation bookkeeping (regalloc.cpp): the first-fit allocator
 *  over a core's register-file bitset, the spill tracker with its pair of
 *  mutually inverse reload maps, and the operation-to-register table.
 *  Operations are identified by their numeric id. */
module RegAlloc {
  import opened Common
  import opened Wrappers

  /** CoreAllocator::OUT_OF_REGISTERS. */
  const OUT_OF_REGISTERS: nat := REGISTERS_PER_CORE

  // ---------------------------------------------------------------------
  // Specification of the register-file pool
  // ---------------------------------------------------------------------

  /** Bits [i, i + size) of the pool are all clear. */
  predicate RunFree(pool: seq<bool>, i: nat, size: nat)
    requires i + size <= |pool|
  {
    forall k :: i <= k < i + size ==> !pool[k]
  }

  /** Bits [i, i + size) of the pool are all set. */
  predicate RunBusy(pool: seq<bool>, i: nat, size: nat)
    requires i + size <= |pool|
  {
    forall k :: i <= k < i + size ==> pool[k]
  }

  /** The lowest start, not below `from`, of a clear run of `size` bits that
   *  lies inside the register file. */
  function FirstFit(pool: seq<bool>, size: nat, from: nat): (r: Option<nat>)
    requires size <= REGISTER_FILE_SIZE <= |pool|
    decreases REGISTER_FILE_SIZE + 1 - from
    ensures r.Some? ==> from <= r.value && r.value + size <= REGISTER_FILE_SIZE
                        && RunFree(pool, r.value, size)
    ensures r.Some? ==> forall i :: from <= i < r.value ==> !RunFree(pool, i, size)
    ensures r.None? ==> forall i :: from <= i && i + size <= REGISTER_FILE_SIZE ==>
                          !RunFree(pool, i, size)
  {
    if from + size > REGISTER_FILE_SIZE then None
    else if RunFree(pool, from, size) then Some(from)
    else FirstFit(pool, size, from + 1)
  }

  /** The pool with bits [i, i + size) set to `v`. */
  function Mark(pool: seq<bool>, i: nat, size: nat, v: bool): (r: seq<bool>)
    requires i + size <= |pool|
    ensures |r| == |pool|
    ensures forall k :: 0 <= k < |r| ==> r[k] == if i <= k < i + size then v else pool[k]
  {
    seq(|pool|, k requires 0 <= k < |pool| => if i <= k < i + size then v else pool[k])
  }

  /** Freeing what was just allocated gives back the pool it was allocated
   *  from. */
  lemma FreeUndoesAllocate(pool: seq<bool>, i: nat, size: nat)
    requires i + size <= |pool| && RunFree(pool, i, size)
    ensures RunBusy(Mark(pool, i, size, true), i, size)
    ensures Mark(Mark(pool, i, size, true), i, size, false) == pool
  {
    var marked := Mark(pool, i, size, true);
    var back := Mark(marked, i, size, false);
    assert forall k :: 0 <= k < |pool| ==> back[k] == pool[k];
  }

  // ---------------------------------------------------------------------
  // CoreAllocator
  // ---------------------------------------------------------------------

  class CoreAllocator {
    /** memPool_: one bit per register; bit i stands for register
     *  REGISTER_FILE_START_ADDRESS + i. */
    var memPool: array<bool>

    ghost predicate Valid()
      reads this
    {
      memPool.Length == REGISTERS_PER_CORE
    }

    constructor ()
      ensures Valid() && fresh(memPool)
      ensures forall k :: 0 <= k < memPool.Length ==> !memPool[k]
    {
      memPool := new bool[REGISTERS_PER_CORE](_ => false);
    }

    /** CoreAllocator::allocate: first fit, skipping past a busy bit as soon
     *  as one is found. Returns OUT_OF_REGISTERS and changes nothing when no
     *  run fits. Sizes above REGISTER_FILE_SIZE make the source's unsigned
     *  loop bound wrap and are excluded. */
    method Allocate(size: nat) returns (reg: nat)
      requires Valid() && size <= REGISTER_FILE_SIZE
      modifies memPool
      ensures Valid()
      ensures FirstFit(old(memPool[..]), size, 0).None? ==>
                reg == OUT_OF_REGISTERS && memPool[..] == old(memPool[..])
      ensures FirstFit(old(memPool[..]), size, 0).Some? ==>
                var i := FirstFit(old(memPool[..]), size, 0).value;
                reg == REGISTER_FILE_START_ADDRESS + i
                && memPool[..] == Mark(old(memPool[..]), i, size, true)
    {
      ghost var pool := memPool[..];
      var i := 0;
      while i <= REGISTER_FILE_SIZE - size
        invariant memPool[..] == pool
        invariant forall s :: 0 <= s < i && s + size <= REGISTER_FILE_SIZE ==> !RunFree(pool, s, size)
      {
        var j := i;
        while j < i + size
          invariant i <= j <= i + size
          invariant forall k :: i <= k < j ==> !pool[k]
        {
          if memPool[j] {
            break;
          }
          j := j + 1;
        }
        if j == i + size {
          assert RunFree(pool, i, size);
          for k := i to j
            invariant forall t :: 0 <= t < memPool.Length ==>
                        memPool[t] == if i <= t < k then true else pool[t]
          {
            memPool[k] := true;
          }
          assert memPool[..] == Mark(pool, i, size, true);
          FirstFitFrom(pool, size, i);
          return REGISTER_FILE_START_ADDRESS + i;
        } else {
          assert pool[j];
          forall s | i <= s <= j && s + size <= REGISTER_FILE_SIZE
            ensures !RunFree(pool, s, size)
          {
            assert s <= j < s + size;
          }
          i := j;
        }
        i := i + 1;
      }
      FirstFitNone(pool, size);
      return OUT_OF_REGISTERS;
    }

    /** CoreAllocator::free: every register in the range must be allocated;
     *  they all become free. */
    method Free(reg: nat, size: nat)
      requires Valid()
      requires REGISTER_FILE_START_ADDRESS <= reg
      requires reg - REGISTER_FILE_START_ADDRESS + size <= REGISTER_FILE_SIZE
      requires RunBusy(memPool[..], reg - REGISTER_FILE_START_ADDRESS, size)
      modifies memPool
      ensures Valid()
      ensures memPool[..] == Mark(old(memPool[..]), reg - REGISTER_FILE_START_ADDRESS, size, false)
    {
      var pos := reg - REGISTER_FILE_START_ADDRESS;
      for i := pos to pos + size
        invariant forall t :: 0 <= t < memPool.Length ==>
                    memPool[t] == if pos <= t < i then false else old(memPool[t])
      {
        memPool[i] := false;
      }
      assert memPool[..] == Mark(old(memPool[..]), pos, size, false);
    }
  }

  /** A clear run at `i` with no clear run before it is the first fit. */
  lemma FirstFitFrom(pool: seq<bool>, size: nat, i: nat)
    requires size <= REGISTER_FILE_SIZE <= |pool| && i + size <= REGISTER_FILE_SIZE
    requires RunFree(pool, i, size)
    requires forall s :: 0 <= s < i && s + size <= REGISTER_FILE_SIZE ==> !RunFree(pool, s, size)
    ensures FirstFit(pool, size, 0) == Some(i)
  {
  }

  lemma FirstFitNone(pool: seq<bool>, size: nat)
    requires size <= REGISTER_FILE_SIZE <= |pool|
    requires forall s :: 0 <= s && s + size <= REGISTER_FILE_SIZE ==> !RunFree(pool, s, size)
    ensures FirstFit(pool, size, 0).None?
  {
  }

  // ---------------------------------------------------------------------
  // SpillTracker
  // ---------------------------------------------------------------------

  /** SpillTracker: the store that spilled each producer, and the live
   *  reload of each spilled producer together with its inverse. */
  class SpillTracker {
    var producer2spill: map<nat, nat>
    var producer2reload: map<nat, nat>
    var reload2producer: map<nat, nat>

    /** producer2reload and reload2producer are inverse maps. */
    ghost predicate Valid()
      reads this
    {
      && (forall p :: p in producer2reload ==>
            producer2reload[p] in reload2producer && reload2producer[producer2reload[p]] == p)
      && (forall l :: l in reload2producer ==>
            reload2producer[l] in producer2reload && producer2reload[reload2producer[l]] == l)
    }

    constructor ()
      ensures Valid()
      ensures producer2spill == map[] && producer2reload == map[] && reload2producer == map[]
    {
      producer2spill, producer2reload, reload2producer := map[], map[], map[];
    }

    /** getOriginalProducer: the producer whose live reload is `load`. */
    function GetOriginalProducer(load: nat): (producer: nat)
      reads this
      requires Valid() && load in reload2producer
      ensures producer in producer2reload && producer2reload[producer] == load
    {
      reload2producer[load]
    }

    /** getLiveNowReload: the live reload of a producer. */
    function GetLiveNowReload(producer: nat): (load: nat)
      reads this
      requires Valid() && producer in producer2reload
      ensures load in reload2producer && reload2producer[load] == producer
    {
      producer2reload[producer]
    }

    /** setSpillOperation: a producer is spilled at most once. */
    method SetSpillOperation(producer: nat, store: nat) returns (ok: bool)
      requires Valid()
      modifies this`producer2spill
      ensures Valid()
      ensures ok <==> producer !in old(producer2spill)
      ensures producer2spill == if ok then old(producer2spill)[producer := store]
                                else old(producer2spill)
    {
      if producer in producer2spill {
        return false;
      }
      producer2spill := producer2spill[producer := store];
      return true;
    }

    /** setLiveNowReload: a producer has at most one live reload. The load
     *  is always a newly created operation, so it is not yet recorded. */
    method SetLiveNowReload(producer: nat, load: nat) returns (ok: bool)
      requires Valid() && load !in reload2producer
      modifies this`producer2reload, this`reload2producer
      ensures Valid()
      ensures ok <==> producer !in old(producer2reload)
      ensures ok ==> producer2reload == old(producer2reload)[producer := load]
                     && reload2producer == old(reload2producer)[load := producer]
      ensures !ok ==> producer2reload == old(producer2reload)
                      && reload2producer == old(reload2producer)
    {
      if producer in producer2reload {
        return false;
      }
      producer2reload := producer2reload[producer := load];
      reload2producer := reload2producer[load := producer];
      return true;
    }

    /** killLiveNowReload: drops a live reload from both maps. */
    method KillLiveNowReload(load: nat) returns (ok: bool)
      requires Valid()
      modifies this`producer2reload, this`reload2producer
      ensures Valid()
      ensures ok <==> load in old(reload2producer)
      ensures ok ==> producer2reload == old(producer2reload) - {old(reload2producer)[load]}
                     && reload2producer == old(reload2producer) - {load}
      ensures !ok ==> producer2reload == old(producer2reload)
                      && reload2producer == old(reload2producer)
    {
      if load !in reload2producer {
        return false;
      }
      var producer := reload2producer[load];
      producer2reload := producer2reload - {producer};
      reload2producer := reload2producer - {load};
      return true;
    }
  }

  // ---------------------------------------------------------------------
  // Operation-to-register table
  // ---------------------------------------------------------------------

  /** op2reg_: one entry per operation id (twice the operation count, for
   *  operations created during allocation); -1 marks an unassigned entry. */
  class RegisterTable {
    var op2reg: array<int>

    ghost predicate Valid()
      reads this, op2reg
    {
      forall i :: 0 <= i < op2reg.Length ==> op2reg[i] >= -1
    }

    constructor (opCount: nat)
      ensures Valid() && fresh(op2reg) && op2reg.Length == opCount * 2
      ensures forall i :: 0 <= i < op2reg.Length ==> op2reg[i] == -1
    {
      op2reg := new int[opCount * 2](_ => -1);
    }

    /** isRegisterAssigned: the id must lie inside the table. */
    method IsRegisterAssigned(id: nat) returns (present: bool)
      requires id < op2reg.Length
      ensures present <==> op2reg[id] != -1
    {
      return op2reg[id] != -1;
    }

    /** assignRegister: refuses to reassign an operation's register. */
    method AssignRegister(id: nat, reg: nat) returns (ok: bool)
      requires Valid() && id < op2reg.Length
      modifies op2reg
      ensures Valid()
      ensures ok <==> old(op2reg[id]) == -1
      ensures op2reg[..] == if ok then old(op2reg[..])[id := reg] else old(op2reg[..])
    {
      if op2reg[id] != -1 {
        return false;
      }
      op2reg[id] := reg;
      return true;
    }

    /** getRegister: only for an operation that has been assigned one. */
    method GetRegister(id: nat) returns (reg: nat)
      requires Valid() && id < op2reg.Length && op2reg[id] != -1
      ensures reg == op2reg[id]
    {
      return op2reg[id];
    }
  }
}

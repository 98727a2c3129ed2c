/** Tile-memory allocation (memalloc.cpp): a bump allocator per virtual
 *  tile whose blocks are rounded up to whole MVMU_DIM-sized vectors, and the
 *  map from tile-memory writes to their addresses. */
module MemAlloc {
  import opened Common

  /** The allocation size rounded up to a multiple of MVMU_DIM. */
  function AlignedSize(size: nat): (r: nat)
    requires size >= 1
    ensures r % MVMU_DIM == 0
    ensures size <= r < size + MVMU_DIM
  {
    CeilDivIdiom(size, MVMU_DIM);
    ((size - 1) / MVMU_DIM + 1) * MVMU_DIM
  }

  /** A block handed out by memalloc: its tile, address and requested size. */
  datatype Block = Block(vTile: nat, address: nat, size: nat)

  /** Two blocks of the same tile do not overlap. */
  predicate Disjoint(a: Block, b: Block)
  {
    a.vTile != b.vTile || a.address + a.size <= b.address || b.address + b.size <= a.address
  }

  /** A tile-memory write to be placed: its operation id, its virtual tile and
   *  its vector length. */
  datatype Write = Write(id: nat, vTile: nat, length: nat)

  class MemoryAllocator {
    /** vTileAvailableMemory_: the next free address of each virtual tile. */
    var vTileAvailableMemory: seq<nat>
    /** op2mem_: the address assigned to each tile-memory write. */
    var op2mem: map<nat, nat>
    /** Every block handed out so far. */
    ghost var blocks: seq<Block>

    /** Every tile pointer is aligned; every block lies below its tile's
     *  pointer; blocks never overlap. */
    ghost predicate Valid()
      reads this
    {
      && (forall t :: 0 <= t < |vTileAvailableMemory| ==> vTileAvailableMemory[t] % MVMU_DIM == 0)
      && (forall k :: 0 <= k < |blocks| ==>
            blocks[k].vTile < |vTileAvailableMemory|
            && blocks[k].address % MVMU_DIM == 0
            && blocks[k].address + blocks[k].size <= vTileAvailableMemory[blocks[k].vTile])
      && (forall k, l :: 0 <= k < l < |blocks| ==> Disjoint(blocks[k], blocks[l]))
    }

    /** The allocator starts with every tile's pointer at address 0. */
    constructor (nVTiles: nat)
      ensures Valid()
      ensures vTileAvailableMemory == seq(nVTiles, _ => 0)
      ensures op2mem == map[] && blocks == []
    {
      vTileAvailableMemory := seq(nVTiles, _ => 0);
      op2mem := map[];
      blocks := [];
    }

    /** memalloc: returns the tile's current pointer and advances it by the
     *  aligned size. A zero size makes the source's unsigned `size - 1`
     *  wrap and is excluded. */
    method Memalloc(vTile: nat, size: nat) returns (address: nat)
      requires Valid() && vTile < |vTileAvailableMemory| && size >= 1
      modifies this`vTileAvailableMemory, this`blocks
      ensures Valid()
      ensures address == old(vTileAvailableMemory[vTile])
      ensures address % MVMU_DIM == 0
      ensures vTileAvailableMemory
              == old(vTileAvailableMemory)[vTile := address + AlignedSize(size)]
      ensures blocks == old(blocks) + [Block(vTile, address, size)]
      ensures forall k :: 0 <= k < |old(blocks)| ==> Disjoint(old(blocks)[k], Block(vTile, address, size))
    {
      var alignedSize := ((size - 1) / MVMU_DIM + 1) * MVMU_DIM;
      assert alignedSize == AlignedSize(size);
      address := vTileAvailableMemory[vTile];
      vTileAvailableMemory := vTileAvailableMemory[vTile := address + alignedSize];
      blocks := blocks + [Block(vTile, address, size)];
    }

    /** assignTileMemoryAddress: refuses to reassign a write's address. */
    method AssignTileMemoryAddress(op: nat, address: nat) returns (ok: bool)
      modifies this`op2mem
      ensures ok <==> op !in old(op2mem)
      ensures op2mem == if ok then old(op2mem)[op := address] else old(op2mem)
    {
      if op in op2mem {
        return false;
      }
      op2mem := op2mem[op := address];
      return true;
    }

    /** getTileMemoryAddress: only for a write that has an address. */
    method GetTileMemoryAddress(op: nat) returns (address: nat)
      requires op in op2mem
      ensures (op, address) in op2mem.Items
    {
      return op2mem[op];
    }

    /** The allocation loop of memoryAllocation: every write gets an aligned
     *  address in its tile, and no two writes of a tile overlap. */
    method MemoryAllocation(writes: seq<Write>)
      requires Valid() && op2mem == map[] && blocks == []
      requires forall k :: 0 <= k < |writes| ==>
                 writes[k].vTile < |vTileAvailableMemory| && writes[k].length >= 1
      requires forall k, l :: 0 <= k < l < |writes| ==> writes[k].id != writes[l].id
      modifies this
      ensures Valid()
      ensures forall k :: 0 <= k < |writes| ==>
                writes[k].id in op2mem && op2mem[writes[k].id] % MVMU_DIM == 0
      ensures forall k, l :: 0 <= k < l < |writes| ==>
                Disjoint(Block(writes[k].vTile, op2mem[writes[k].id], writes[k].length),
                         Block(writes[l].vTile, op2mem[writes[l].id], writes[l].length))
    {
      for i := 0 to |writes|
        invariant Valid() && |blocks| == i
        invariant |vTileAvailableMemory| == old(|vTileAvailableMemory|)
        invariant forall k :: 0 <= k < i ==>
                    writes[k].id in op2mem
                    && blocks[k] == Block(writes[k].vTile, op2mem[writes[k].id], writes[k].length)
        invariant forall id :: id in op2mem ==> exists k :: 0 <= k < i && writes[k].id == id
      {
        var w := writes[i];
        var address := Memalloc(w.vTile, w.length);
        var ok := AssignTileMemoryAddress(w.id, address);
        assert ok;
      }
    }
  }
}

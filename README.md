# 3D-FPIM integer bookkeeping, modelled in Dafny

3D-FPIM is a processing-in-memory accelerator built on 3D NAND flash. Its
software stack has four parts:

- a compiler that maps neural-network layers onto stacked crossbar
  arrays (MVMUs);
- quantization-aware training code that chooses power-of-two ranges
  for weights, biases and activations;
- a graph folder that fuses Conv/BatchNorm/ReLU sequences;
- a circuit simulator for the flash periphery.

This project models the integer bookkeeping of those parts and proves
what each piece promises. It covers:

- **Compiler tiling (`Tensors`).** Splits vectors, image pixel streams
  and weight matrices into 128-wide tiles and 64-deep stacks. The tile
  counts are ceilings, every tile fits one MVMU, and the tile sizes add
  back to the original dimension. It also covers a layer's stack count,
  its MVMU count, its load, and the duplicate factors.
- **Compiler graph containers (`Operations`).** Operand and user links
  of the operation graph, operand replacement, and the length rule of
  ALU operations (RESIZE concatenates). It also covers:
  - merged, coalesced and sliding MVM sets: fixed slots with
    back-pointers, the set leader, completeness;
  - max-pool output sizes;
  - the split of an output image among duplicated layers.
- **Allocators and placement (`RegAlloc`, `MemAlloc`, `Partitioner`).**
  - the first-fit register allocator over a bitset;
  - the spill tracker, whose two reload maps stay mutually inverse;
  - the operation-to-register table;
  - the per-tile aligned bump allocator of tile memory;
  - the mapping from virtual MVMU to virtual core to virtual tile.
- **Code generation helpers (`CodeGen`).** The transfer-width search, the
  MVM mask strings with leader-only emission for coalesced sets, and the
  consumer counter of store and receive.
- **Quantization range tuner (`QuantConfig`).** Rounding of log2
  thresholds (round half to even), the effective range of a PIM unit, the
  adjustment that brings it into the ADC's range, and bias clipping.
- **Graph folder (`Fold`).**
  - the scan that rewrites Conv,BN,ReLU into CBR+Identity+Identity and
    Conv,BN into CB+Identity;
  - the rewrite of the predecessor map;
  - the assignment of PIM units.
- **Crossbar channel partition (`ConvPartition`).** The phase dispatch of
  the quantized convolution, and the inference-time split of input
  channels into row-budget groups.
- **Predecoder sizing (`Predecode`).** How the flash simulator's
  predecoder splits an address of up to 27 bits into 1→2, 2→4 and 3→8
  basic decoders. It also covers how those decoders are grouped into
  first stages feeding a second stage.

Imperative source code is modelled as imperative Dafny:

- classes whose methods update fields, with `modifies` frames;
- loops with invariants;
- `array`s where the source uses a fixed buffer.

Each method is proved against a specification function. The properties
of that function are proved as lemmas. Pure expressions become functions
with named results. Operations are identified by their numeric id where
the source uses pointers only as keys, and by object references where the
source follows links (operands, users, set back-pointers).

## Model

| member | source | states |
|---|---|---|
| Common.CeilDivIdiom | 3DFPIM-Compiler/src/tensors.h:51 | the `(a - 1) / b + 1` idiom the compiler uses everywhere equals the ceiling of a/b for every a ≥ 1 |
| Common.LastTile | 3DFPIM-Compiler/src/tensors.cpp:220-225 | all tiles but the last are full and the last holds the remainder, or a full unit when there is none, so together they give back the total |
| Tensors.VectorNTiles | 3DFPIM-Compiler/src/tensors.h:51 | a vector needs ceil(length/128) tiles: at least one, and the fewest whose 128 entries each cover the length |
| Tensors.MatrixNHeightTiles | 3DFPIM-Compiler/src/tensors.h:422 | a matrix needs ceil(height/128) tiles along its height |
| Tensors.MatrixNWidthTiles | 3DFPIM-Compiler/src/tensors.h:423 | the width tiles are ceil(width/(128·64)), which is also the number of 64-deep stacks of the width's 128-wide slices |
| Tensors.WidthBlocks | 3DFPIM-Compiler/src/tensors.h:423 | the nested-division form of nWidthTiles is that same ceiling |
| Tensors.MatrixNWidthRest | 3DFPIM-Compiler/src/tensors.h:424-427 | the depth of the last width tile lies in [1, 64], and the full stacks plus that rest account for every 128-wide slice of the width |
| Tensors.MaxConcat | 3DFPIM-Compiler/src/tensors.h:106 | maxConcat is the largest number of partial channel slices (channels mod 128) that fit together in one 128-wide tile |
| Tensors.ConcatTiles | 3DFPIM-Compiler/src/tensors.h:104-110 | no concatenated tiles when the channels fill whole tiles, otherwise ceil(kw·kh / maxConcat) |
| Tensors.StreamNTiles | 3DFPIM-Compiler/src/tensors.h:101-113 | a stream with channels has at least one tile, and when the channel count is a multiple of 128 the tiles hold exactly channels·kw·kh entries |
| Tensors.StreamNTilesPositive | 3DFPIM-Compiler/src/tensors.h:101-113 | complete plus concatenated tiles are at least one for a nonempty stream, and the complete tiles alone hold every entry when channels are a multiple of 128 |
| Tensors.NInTiles | 3DFPIM-Compiler/src/tensors.h:479-493 | the input-side 3D MVMUs of a layer are ceil(stream tiles / 64), at least one |
| Tensors.NInRestDPT | 3DFPIM-Compiler/src/tensors.h:497-510 | the depth used in the last input MVMU lies in [1, 64], and full MVMUs plus that rest account for every stream tile |
| Tensors.NOutTiles | 3DFPIM-Compiler/src/tensors.h:512 | output channels are tiled as the weight matrix height: the least number of 128-wide tiles that holds them, at least one |
| Tensors.LayerNStack | 3DFPIM-Compiler/src/tensors.cpp:34-45 | a layer stacks min(stream tiles, 64) crossbar layers: never more than either bound, and equal to one of them |
| Tensors.PixelLatency | 3DFPIM-Compiler/src/tensors.cpp:47-50 | a pixel costs at least one precharge, one stack reuse and one ADC conversion, and exactly that when one layer is stacked |
| Tensors.PixelLatencyStep | 3DFPIM-Compiler/src/tensors.cpp:47-50 | each further stacked layer adds one stack shift and one precharge |
| Tensors.PixelLatencyMonotone | 3DFPIM-Compiler/src/tensors.cpp:47-50 | a deeper stack never lowers the pixel latency; each extra layer costs at least one shift |
| Tensors.Layer.constructor | 3DFPIM-Compiler/src/tensors.cpp:17-53 | the layer keeps its dimensions, its stack count lies in [1, 64], and its load is its output pixels times the per-pixel latency |
| Tensors.Layer.GetNMVMU | 3DFPIM-Compiler/src/tensors.cpp:55-61 | the MVMU count is ceil(nStack/64)·ceil(nOut/128), which is the output tile count because a layer never stacks more than 64 |
| Tensors.Layer.SetDuplicate | 3DFPIM-Compiler/src/tensors.cpp:63-81 | fully connected layers are forced to 1×1; the result is 0 exactly when a duplicate factor exceeds the output image dimension and 1 otherwise |
| Tensors.TileSizes | 3DFPIM-Compiler/src/tensors.cpp:217-229 | ceil(length/unit) tiles, all full except the last, which holds the remainder when there is one; every tile in [1, unit]; the sizes sum to the length |
| Tensors.MatrixTileShape | 3DFPIM-Compiler/src/tensors.cpp:355-379 | tile heights (each ≤ 128) sum to the matrix height and tile widths (each ≤ 128·64) to its width, with nHeightTiles and nWidthTiles of them |
| Tensors.StreamTileSizes | 3DFPIM-Compiler/src/tensors.cpp:263-283 | nTiles tiles whose first nCompleteTile are full, every tile in [1, 128], together holding channels·kw·kh entries |
| Tensors.ConcatStep | 3DFPIM-Compiler/src/tensors.cpp:268-276 | every concatenated tile fits one MVMU, and the concatenated tiles add up to kw·kh partial slices |
| Tensors.VectorSlots.constructor | 3DFPIM-Compiler/src/tensors.cpp:469-473 | a vector starts with ceil(length/128) empty tile slots |
| Tensors.VectorSlots.SetTile | 3DFPIM-Compiler/src/tensors.cpp:599-602 | a producer is recorded only in an empty slot; reassigning a filled slot is refused and changes nothing |
| Operations.Operation.constructor | 3DFPIM-Compiler/src/operations.cpp:888-899 | operands are none, op1, or op1 then op2, with a second operand only when there is a first; each operand gains the new consumer as a user |
| Operations.Operation.Uses | 3DFPIM-Compiler/src/operations.cpp:1072-1079 | true exactly when the producer is among the operands |
| Operations.Operation.ReplaceOperand | 3DFPIM-Compiler/src/operations.cpp:1081-1089 | every occurrence of the old producer is replaced and no other operand changes; the consumer moves from the old producer's users to the replacement's; the operand/user links stay consistent |
| Operations.AluLength | 3DFPIM-Compiler/src/operations.cpp:944-988 | an ALU operation is valid exactly when it is built with an immediate if and only if its opcode is MULI (the source's isImmediate test), a binary one has two operands of the same length, and a RESIZE's concatenated length fits 128; RESIZE yields the sum, others the first length; each failure names its cause, an immediate/opcode mismatch first |
| Operations.ResizeFitsOneTile | 3DFPIM-Compiler/src/operations.cpp:972-974 | a valid RESIZE result occupies exactly one vector tile |
| Operations.FirstUsed | 3DFPIM-Compiler/src/operations.cpp:1163-1171 | the leader slot is an occupied slot with only empty slots before it |
| Operations.MvmOp.constructor | 3DFPIM-Compiler/src/operations.cpp:921-934 | a new MVM belongs to no merged and no coalesced set |
| Operations.MergedMvmSet.constructor | 3DFPIM-compiler/src/operations.h:221-226 | a new merged set is empty and belongs to no coalesced or sliding set |
| Operations.MergedMvmSet.Add | 3DFPIM-Compiler/src/operations.cpp:1103-1115 | the MVM joins the set and points back to it; an MVM already in a merged set is refused and nothing changes |
| Operations.MergedMvmSet.Remove | 3DFPIM-Compiler/src/operations.cpp:1136-1139 | the MVM leaves the set and its back-pointer is cleared |
| Operations.CoalescedMvmSet.constructor | 3DFPIM-compiler/src/operations.h:263 | one empty slot per MVMU of a core |
| Operations.CoalescedMvmSet.Add | 3DFPIM-Compiler/src/operations.cpp:1147-1151 | an MVM goes into an empty slot and points back to the set; an occupied slot or an MVM already coalesced is refused and nothing changes |
| Operations.CoalescedMvmSet.IsSetLeader | 3DFPIM-Compiler/src/operations.cpp:1163-1171 | true exactly when the MVM sits in the first occupied slot |
| Operations.CoalescedMergedMvmSet.constructor | 3DFPIM-compiler/src/operations.h:290 | one empty slot per MVMU of a core |
| Operations.CoalescedMergedMvmSet.Add | 3DFPIM-Compiler/src/operations.cpp:1141-1145 | a merged set goes into an empty slot and points back; an occupied slot or an already coalesced merged set is refused and nothing changes |
| Operations.CoalescedMergedMvmSet.RemoveAll | 3DFPIM-Compiler/src/operations.cpp:1153-1161 | every slot becomes empty and every former member's back-pointer is cleared, their other fields untouched |
| Operations.CoalescedMergedMvmSet.IsSetLeader | 3DFPIM-Compiler/src/operations.cpp:1173-1181 | true exactly when the merged set sits in the first occupied slot |
| Operations.CoalescedMergedMvmSet.IsComplete | 3DFPIM-Compiler/src/operations.cpp:1183-1190 | true exactly when no slot is empty |
| Operations.SlidingMergedMvmSet.constructor | 3DFPIM-compiler/src/operations.h:314 | one empty slot per slide position |
| Operations.SlidingMergedMvmSet.Add | 3DFPIM-Compiler/src/operations.cpp:1192-1196 | a merged set goes into an empty slide slot and points back; an occupied slot or a set already sliding is refused and nothing changes |
| Operations.PoolOutDim | 3DFPIM-Compiler/src/operations.cpp:481-484 | the pooled dimension is ceil(in/span), so every input position falls in a window below it |
| Operations.DuplicateSplit | 3DFPIM-Compiler/src/operations.cpp:666-687 | one share per duplicate and offsets that are their prefix sums. Without pooling the shares differ by at most one and sum to the output dimension. With pooling they are even and sum to the dimension rounded up to even. Shares never grow from one duplicate to the next |
| Operations.PlainSplit | 3DFPIM-Compiler/src/operations.cpp:670 | the non-pooling share formula deals the output rows out evenly: sum exactly the dimension, each within one of dimension/dup, nonincreasing |
| Operations.PoolSplit | 3DFPIM-Compiler/src/operations.cpp:668 | the pooling share formula deals out row pairs: even shares, summing to the dimension rounded up to even, nonincreasing |
| RegAlloc.FirstFit | 3DFPIM-compiler/src/regalloc.cpp:90-108 | the lowest position of a free run of the requested size, no free run starting before it; none exactly when no run fits the register file |
| RegAlloc.FirstFitFrom | 3DFPIM-compiler/src/regalloc.cpp:91-102 | a free run with no free run before it is the one first fit finds |
| RegAlloc.FirstFitNone | 3DFPIM-compiler/src/regalloc.cpp:107 | when no run is free, first fit finds nothing |
| RegAlloc.Mark | 3DFPIM-compiler/src/regalloc.cpp:99-101 | setting a range changes exactly the bits of the range |
| RegAlloc.FreeUndoesAllocate | 3DFPIM-compiler/src/regalloc.cpp:90-116 | an allocated run is busy, so freeing it passes the check, and freeing it restores the pool exactly |
| RegAlloc.CoreAllocator.constructor | 3DFPIM-compiler/src/regalloc.cpp:41 | every register of the file starts free |
| RegAlloc.CoreAllocator.Allocate | 3DFPIM-compiler/src/regalloc.cpp:90-108 | returns the start address of the first free run and marks exactly that run busy; when none fits, returns OUT_OF_REGISTERS and changes nothing |
| RegAlloc.CoreAllocator.Free | 3DFPIM-compiler/src/regalloc.cpp:110-116 | on a fully allocated range, clears exactly that range |
| RegAlloc.SpillTracker.constructor | 3DFPIM-compiler/src/regalloc.cpp:56-58 | the three maps start empty, so the reload maps are mutual inverses |
| RegAlloc.SpillTracker.GetOriginalProducer | 3DFPIM-compiler/src/regalloc.cpp:128-131 | the producer of a live reload is the one whose live reload is that load |
| RegAlloc.SpillTracker.GetLiveNowReload | 3DFPIM-compiler/src/regalloc.cpp:123-126 | the live reload of a producer is the load whose original producer it is |
| RegAlloc.SpillTracker.SetSpillOperation | 3DFPIM-compiler/src/regalloc.cpp:133-138 | records the spill store of an unspilled producer; spilling twice is refused and changes nothing |
| RegAlloc.SpillTracker.SetLiveNowReload | 3DFPIM-compiler/src/regalloc.cpp:140-146 | records the pair in both maps, keeping them mutual inverses; a producer already reloaded is refused and nothing changes |
| RegAlloc.SpillTracker.KillLiveNowReload | 3DFPIM-compiler/src/regalloc.cpp:148-154 | removes a live reload and its producer from both maps, keeping them mutual inverses; an unknown load is refused and nothing changes |
| RegAlloc.RegisterTable.constructor | 3DFPIM-compiler/src/regalloc.cpp:163-166 | room for twice the operation count, every entry unassigned |
| RegAlloc.RegisterTable.IsRegisterAssigned | 3DFPIM-compiler/src/regalloc.cpp:175-178 | true exactly when the entry holds a register |
| RegAlloc.RegisterTable.AssignRegister | 3DFPIM-compiler/src/regalloc.cpp:180-183 | records a register for an unassigned operation; reassignment is refused and changes nothing |
| RegAlloc.RegisterTable.GetRegister | 3DFPIM-compiler/src/regalloc.cpp:253-256 | on an assigned operation, returns its register |
| MemAlloc.AlignedSize | 3DFPIM-compiler/src/memalloc.cpp:79 | the allocation size rounded up to a multiple of 128: at least the size and less than 128 more |
| MemAlloc.MemoryAllocator.constructor | 3DFPIM-compiler/src/memalloc.cpp:29 | every virtual tile's free pointer starts at 0 and no address is assigned |
| MemAlloc.MemoryAllocator.Memalloc | 3DFPIM-compiler/src/memalloc.cpp:76-83 | returns the tile's current pointer, a multiple of 128, and advances only that tile's pointer by the aligned size; the new block overlaps no earlier block |
| MemAlloc.MemoryAllocator.AssignTileMemoryAddress | 3DFPIM-compiler/src/memalloc.cpp:62-67 | records an address for an unassigned write; reassignment is refused and changes nothing |
| MemAlloc.MemoryAllocator.GetTileMemoryAddress | 3DFPIM-compiler/src/memalloc.cpp:69-74 | on an assigned write, returns its address |
| MemAlloc.MemoryAllocator.MemoryAllocation | 3DFPIM-compiler/src/memalloc.cpp:26-56 | every tile-memory write gets an address that is a multiple of 128, and no two writes' blocks overlap |
| Partitioner.GroupCount | 3DFPIM-Compiler/src/partitioner.cpp:361-366 | two reserved groups plus the fewest groups of the given size that cover the remaining members |
| Partitioner.GroupCountAsWritten | 3DFPIM-Compiler/src/partitioner.cpp:366 | the count as the 32-bit unsigned expression computes it |
| Partitioner.GroupCountAsWrittenExact | 3DFPIM-Compiler/src/partitioner.cpp:366 | with at least one member beyond the reserved two, the unsigned expression gives the intended count |
| Partitioner.VCoreCountAsWrittenExact | 3DFPIM-Compiler/src/partitioner.cpp:347 | with one MVMU per core the unsigned expression for the core count is exact for every MVMU count |
| Partitioner.VTileCountAsWrittenWraps | 3DFPIM-Compiler/src/partitioner.cpp:361-369 | with only the two reserved cores, the unsigned expression yields 178956973 tiles instead of 2 |
| Partitioner.GroupOf | 3DFPIM-Compiler/src/partitioner.cpp:351 | members 0 and 1 keep their own groups; member v ≥ 2 falls in group g ≥ 2 whose range of N members holds v |
| Partitioner.FirstOfGroup | 3DFPIM-Compiler/src/partitioner.cpp:350-352 | every group has a member that maps to it |
| Partitioner.GroupBelowCount | 3DFPIM-Compiler/src/partitioner.cpp:347-352 | every mapped member's group is below the group count |
| Partitioner.FirstOfGroupInRange | 3DFPIM-Compiler/src/partitioner.cpp:347-352 | every group below the count has a member in range, so no group is empty |
| Partitioner.GroupInOrder | 3DFPIM-Compiler/src/partitioner.cpp:366-369 | the loop maps every member to its group, all below the count, and every group receives a member |
| Partitioner.Partitioner.constructor | 3DFPIM-Compiler/src/partitioner.h:24-32 | no assignment, no counts and empty mappings |
| Partitioner.Partitioner.ReassignVMVMU | 3DFPIM-Compiler/src/partitioner.cpp:53-56 | only RESIZE operations are reassigned; anything else is refused and changes nothing |
| Partitioner.Partitioner.AssignVMVMU | 3DFPIM-Compiler/src/partitioner.cpp:62-68 | assigns an unassigned operation, and the last MVM of a merged set also tags that set; reassignment is refused and changes nothing |
| Partitioner.Partitioner.CloneAssignment | 3DFPIM-Compiler/src/partitioner.cpp:62-74 | copies the source's vMVMU only when the source is assigned, refusing when the target already has one; the new map is the old one with the target, and the merged set of a last MVM target, mapped to the source's vMVMU, and nothing else changed |
| Partitioner.Partitioner.AssignMatrixTiles | 3DFPIM-Compiler/src/partitioner.cpp:221-237 | vMVMUs 0 and 1 are reserved; in INFERENCE the tiles get consecutive vMVMUs from 2 and the count is 2 plus the number of tiles, otherwise the count is 2 and the tile map is unchanged; tiles not in the list keep their vMVMU |
| Partitioner.Partitioner.AssignVCoresInVMVMUOrder | 3DFPIM-Compiler/src/partitioner.cpp:336-354 | the written core count equals the MVMU count (one MVMU per core) and MVMU v maps to core v |
| Partitioner.Partitioner.AssignVTilesInVMVMUOrder | 3DFPIM-Compiler/src/partitioner.cpp:356-371 | cores 0 and 1 keep their own tiles, later cores fill tiles of 24 in order, every tile gets a core, and the tile count is the intended one |
| Partitioner.Partitioner.GetVTile | 3DFPIM-Compiler/src/partitioner.cpp:98-100 | an assigned operation's tile is the tile of its core, below the tile count |
| CodeGen.TransferShape | 3DFPIM-Compiler/src/codegen.cpp:242-247 | the widest width up to the maximum that divides the length, and the number of transfers, which times the width gives the length |
| CodeGen.Mask | 3DFPIM-Compiler/src/codegen.cpp:104-116 | one character per MVMU, '1' exactly for the used ones and '0' otherwise |
| CodeGen.UsedOf | 3DFPIM-Compiler/src/codegen.cpp:104-116 | reading a mask gives one flag per character |
| CodeGen.MaskRoundTrip | 3DFPIM-Compiler/src/codegen.cpp:104-116 | reading a mask back gives the MVMUs it was built from |
| CodeGen.UsedOfRoundTrip | 3DFPIM-Compiler/src/codegen.cpp:104-116 | a string of '0' and '1' is rebuilt from the MVMUs it names |
| CodeGen.OnesOfMask | 3DFPIM-Compiler/src/codegen.cpp:104-116 | a mask has one '1' per used MVMU |
| CodeGen.OneHot | 3DFPIM-Compiler/src/codegen.cpp:141-147 | one flag per MVMU of the core |
| CodeGen.CountOneHot | 3DFPIM-Compiler/src/codegen.cpp:141-147 | a one-hot selection uses one MVMU when the position is on the core and none otherwise |
| CodeGen.SingleMask | 3DFPIM-Compiler/src/codegen.cpp:139-148 | the mask of a lone MVM has N_CONSTANT_MVMUS_PER_CORE characters with a single '1' at its physical MVMU |
| CodeGen.SlotsUsed | 3DFPIM-Compiler/src/codegen.cpp:104-106 | a slot counts as used exactly when it holds an MVM |
| CodeGen.MvmMask | 3DFPIM-Compiler/src/codegen.cpp:129-160 | a lone MVM emits its one-hot mask; in a coalesced set only the leader emits, with one '1' per occupied slot and at least one, and the others emit nothing |
| CodeGen.ConsumerCount | 3DFPIM-Compiler/src/codegen.cpp:258-266 | the counter is the number of users that are not MVM guards |
| QuantConfig.Round | 3DFPIM-Quant/qa_conv/config.py:233 | the nearest integer, ties going to the even one |
| QuantConfig.RoundShift | 3DFPIM-Quant/qa_conv/config.py:191 | shifting by an integer shifts the rounding by the same amount, except at a tie with an odd shift |
| QuantConfig.SetSpec | 3DFPIM-Quant/qa_conv/config.py:154-160 | a range spec is accepted exactly when max ≥ precision + min, and is then stored unchanged |
| QuantConfig.EffectivePlusActiWgt | 3DFPIM-Quant/qa_conv/config.py:185-186 | the effective range and the activation-weight sum add back to the rounded current threshold |
| QuantConfig.GetEffective | 3DFPIM-Quant/qa_conv/config.py:221-261 | thresholds exist exactly for the listed node/predecessor kinds; effective = round(cur) − round(prev) − round(weight), acti_wgt = round(prev) + round(weight), and the bias is rounded |
| QuantConfig.Adjustment | 3DFPIM-Quant/qa_conv/config.py:188-201 | zero exactly when the range fits; below the minimum the shift lands on the minimum, above the maximum it lands effective + acti width on the maximum; with a consistent spec the result always fits |
| QuantConfig.TunedHaveThresholds | 3DFPIM-Quant/qa_conv/config.py:179-201 | every node/predecessor pair the tuner adjusts has thresholds to adjust |
| QuantConfig.ShiftActiAsWritten | 3DFPIM-Quant/qa_conv/config.py:191 | the threshold update as written subtracts the adjustment from the unrounded threshold |
| QuantConfig.ShiftActiAsWrittenAwayFromTies | 3DFPIM-Quant/qa_conv/config.py:191-193 | away from a tie, or with an even adjustment, that update moves the rounded threshold by the adjustment |
| QuantConfig.ShiftActiAsWrittenMissesOnTie | 3DFPIM-Quant/qa_conv/config.py:213-215 | a threshold of 6.5 adjusted by 1 still rounds to 6, so the effective range stays out of the ADC range and the exit check fails |
| QuantConfig.ShiftActi | 3DFPIM-Quant/qa_conv/config.py:191 | the corrected update moves the rounded threshold by exactly the adjustment |
| QuantConfig.ClipBias | 3DFPIM-Quant/qa_conv/config.py:170-176 | the rounded bias clamped into [aw + b − a − w, aw + b − w]: kept inside, raised to the low end below, lowered to the high end above |
| QuantConfig.ClipBiasIdempotent | 3DFPIM-Quant/qa_conv/config.py:170-176 | clipping a clipped bias changes nothing |
| QuantConfig.PimUnit.constructor | retraining/qa_conv/hardware/pim.py:40-64 | a unit holds the given activation, weight and bias thresholds |
| QuantConfig.Tune | 3DFPIM-Quant/qa_conv/config.py:164-218 | only CBR, ReLU and ShareQuant nodes with a predecessor are touched; only tunable pairs move the activation threshold, and only CBR clips the bias; the exit check passes exactly when the new effective range fits; for a tunable pair the new activation threshold is the old one moved by the adjustment computed from the effective range with the corrected update (Findings row 2), or unchanged when that is 0, so under a consistent spec the check always passes for the corrected tuner |
| Fold.WithoutMembers | retraining/qa_conv/fold/fold_op.py:20-22 | removing the absorbed keys keeps exactly the other keys |
| Fold.LastIn | retraining/qa_conv/fold/fold_op.py:16-22 | the last absorbed key in map order, or none when no key is absorbed |
| Fold.Redirected | retraining/qa_conv/fold/fold_op.py:17-19 | a predecessor that was absorbed becomes the folded node; any other is kept |
| Fold.PrevList.constructor | retraining/models/resnet_q.py:171 | the predecessor map starts empty |
| Fold.PrevList.Redirect | retraining/qa_conv/fold/fold_op.py:15-22 | one pass of the loop over the keys in insertion order, with the map kept consistent with its key order |
| Fold.RedirectFacts | retraining/qa_conv/fold/fold_op.py:15-22 | after the pass every value naming an absorbed node names the folded node, absorbed keys are gone, the folded node is a key exactly when an absorbed one was, with the last absorbed key's (redirected) value, and nothing else changes |
| Fold.RedirectDone | retraining/qa_conv/fold/fold_op.py:15-22 | the loop's invariant at the end gives the same facts about the rewritten map |
| Fold.FoldedKinds | retraining/qa_conv/fold/fold_op.py:54-82 | the folded sibling kinds, one per sibling |
| Fold.NoFusablePairLeft | retraining/qa_conv/fold/fold_op.py:58-81 | after folding, no Conv is directly followed by a BN |
| Fold.OthersKept | retraining/qa_conv/fold/fold_op.py:58-82 | siblings that are not Conv, BN or ReLU keep their kind |
| Fold.FoldedKindAt | retraining/qa_conv/fold/fold_op.py:58-82 | each position either keeps its kind or becomes CBR, CB or Identity, and only Conv, BN and ReLU positions can change |
| Fold.FoldedKindsAt | retraining/qa_conv/fold/fold_op.py:54-82 | the left-to-right scan and the position-wise description give the same kinds |
| Fold.FoldedAt | retraining/qa_conv/fold/fold_op.py:58-82 | a folded sibling is either the original module or a fresh module at that position, and keeps the original when its kind is unchanged |
| Fold.Folded | retraining/qa_conv/fold/fold_op.py:54-82 | folding keeps the number of siblings |
| Fold.FoldedRow | retraining/qa_conv/fold/fold_op.py:54-82 | the folded modules have the folded kinds and every module is kept or replaced at its own position |
| Fold.Net.constructor | retraining/qa_conv/fold/fold_op.py:50-51 | a container holds its siblings in order |
| Fold.FoldTheConvnet | retraining/qa_conv/fold/fold_op.py:49-82 | the while loop turns the siblings into their folded sequence; prev_list becomes the run-by-run rewrite: its keys are old keys or folded modules, no absorbed module is a key or a value, and every other old key maps to its old value with each absorbed module replaced by the module that absorbed it |
| Fold.ScanAt | retraining/qa_conv/fold/fold_op.py:58-82 | one step fuses the run at the flag and advances past it, by three, two or one, and rewrites prev_list as fold_CBR or fold_CB does for that run |
| Fold.Absorbed | retraining/qa_conv/fold/fold_op.py:9-47 | the modules whose entries a run folds away are its Conv and, for a Conv, BN, ReLU run, its ReLU; none exactly for a single module |
| Fold.FoldTarget | retraining/qa_conv/fold/fold_op.py:15-19 | a module has a folding target exactly when some run absorbs it, and the target is a module created within the row |
| Fold.RedirectAll | retraining/qa_conv/fold/fold_op.py:17-19 | a predecessor is replaced by its folding target when it is absorbed and is kept otherwise |
| Fold.StepDictFacts | retraining/qa_conv/fold/fold_op.py:15-22 | one run keeps prev_list well formed, removes its absorbed keys, adds only its folded module, redirects the other entries and names no absorbed module |
| Fold.ScanChain | retraining/qa_conv/fold/fold_op.py:58-82 | the scan's prev_list is reached through one such step per run |
| Fold.ChainValid | retraining/qa_conv/fold/fold_op.py:15-22 | each key stays listed exactly once in the key order through the scan |
| Fold.ChainKeys | retraining/qa_conv/fold/fold_op.py:20-22 | a key survives the scan only if no run absorbs it, and the only new keys are folded modules |
| Fold.ChainValues | retraining/qa_conv/fold/fold_op.py:17-19 | no entry left by the scan names an absorbed module, nor a pre-existing module no entry named before |
| Fold.ChainRedirects | retraining/qa_conv/fold/fold_op.py:17-19 | every surviving key's value is its old value redirected through every run |
| Fold.ScanFromStart | retraining/qa_conv/fold/fold_op.py:49-82 | the whole scan's prev_list is well formed, has only old keys or folded modules as keys, names no absorbed module as key or value, and redirects every surviving entry |
| Fold.ScanStateDone | retraining/qa_conv/fold/fold_op.py:49-82 | when the loop ends the row is folded and prev_list is the scan's, with the facts above |
| Fold.TargetRun | retraining/qa_conv/fold/fold_op.py:58-82 | the run that absorbs a module starts where the scan stops |
| Fold.RunFolds | retraining/qa_conv/fold/fold_op.py:62-81 | a run at a scan stop turns its first slot into a CBR or CB module numbered for that slot, absorbing its Conv or ReLU |
| Fold.TargetFolded | retraining/qa_conv/fold/fold_op.py:9-82 | the target of an absorbed module is a CBR or CB module in the folded row, built from the run that held that module as its Conv or ReLU |
| Fold.FoldedTriple | retraining/qa_conv/fold/fold_op.py:62-69 | Conv,BN,ReLU becomes CBR, Identity, Identity and the scan resumes after the three |
| Fold.FoldedPair | retraining/qa_conv/fold/fold_op.py:70-81 | Conv,BN not followed by ReLU becomes CB, Identity and the scan resumes after the two |
| Fold.FoldedSingle | retraining/qa_conv/fold/fold_op.py:58-61 | a module that does not start a Conv,BN pair is left as it is |
| Fold.FoldCBR | retraining/qa_conv/fold/fold_op.py:9-28 | returns CBR, Identity, Identity and redirects every conv or relu entry of the predecessor map to the folded node |
| Fold.FoldCB | retraining/qa_conv/fold/fold_op.py:30-47 | returns CB, Identity and redirects the conv's entries of the predecessor map to the folded node |
| Fold.UnitFor | retraining/qa_conv/fold/fold_op.py:90-119 | only CBR, ReLU and ShareQuant nodes in the map get a unit. A CBR's unit has all three roles. A ReLU or ShareQuant shares weight and bias with a Conv2dBN, Conv2d or Linear predecessor, and otherwise its unit has only the activation role |
| Fold.AssignStep | retraining/qa_conv/fold/fold_op.py:90-119 | a node without a unit changes nothing; a node with one records it |
| Fold.AssignCovers | retraining/qa_conv/fold/fold_op.py:86-122 | every node that gets a unit has one afterwards, and earlier units stay recorded |
| Fold.AssignFits | retraining/qa_conv/fold/fold_op.py:86-122 | every recorded unit is either an earlier one or fits its node and predecessor |
| Fold.PimAssignment.constructor | retraining/qa_conv/fold/fold_op.py:86-88 | no node has a unit yet |
| Fold.PimAssignment.InitPimUnits | retraining/qa_conv/fold/fold_op.py:86-122 | the units after the walk are the step-by-step assignment over the nodes |
| ConvPartition.Granularity | 3DFPIM-Quant/qa_conv/function/conv.py:78 | the most channels whose k·k rows fit the crossbar's rows, at least one when one channel fits |
| ConvPartition.ChannelGroups | 3DFPIM-Quant/qa_conv/function/conv.py:80-95 | no groups exactly when no channels remain |
| ConvPartition.ChannelGroupsShape | 3DFPIM-Quant/qa_conv/function/conv.py:80-95 | each group has between 1 and granularity channels, each starts where the previous ends, and only the group at channel 0 carries the bias |
| ConvPartition.ChannelGroupsCover | 3DFPIM-Quant/qa_conv/function/conv.py:80-95 | the groups cover the remaining channels exactly |
| ConvPartition.ChannelGroupsEnds | 3DFPIM-Quant/qa_conv/function/conv.py:80-95 | the first group starts at the start and the last ends at the channel count |
| ConvPartition.ChannelGroupsCount | 3DFPIM-Quant/qa_conv/function/conv.py:80-95 | there are ceil(channels/granularity) groups |
| ConvPartition.OnlyFirstHasBias | 3DFPIM-Quant/qa_conv/function/conv.py:83-94 | exactly the first group carries the bias |
| ConvPartition.PartitionChannels | 3DFPIM-Quant/qa_conv/function/conv.py:77-97 | the loop yields exactly the channel groups; no input channels yield no groups; a missing bias is an error |
| ConvPartition.Forward | 3DFPIM-Quant/qa_conv/function/conv.py:99-104 | FLOAT runs one unquantized convolution; other non-inference phases one quantized convolution over the whole input; INFERENCE the channel groups |
| ConvPartition.InferenceMatchesWhole | 3DFPIM-Quant/qa_conv/function/conv.py:74-95 | the inference groups cover the same channels as the whole convolution, with the bias once, and each group fits the crossbar's rows |
| Predecode.CountsOf | nand_flash_sim/PredecodeBlock.cpp:68-84 | one 1→2 decoder exactly for n = 1, otherwise 0, 2 or 1 2→4 decoders for n mod 3 = 0, 1, 2, with 2·d24 + 3·d38 = n |
| Predecode.FewestDecoders | nand_flash_sim/PredecodeBlock.cpp:77-83 | no other mix of 2→4 and 3→8 decoders covering n bits uses fewer decoders, and the counts are the only mix with at most two 2→4 |
| Predecode.BasicTotal | nand_flash_sim/PredecodeBlock.cpp:85 | the number of basic decoders is ceil(n/3), between 1 and 9 for valid widths |
| Predecode.SplitOf | nand_flash_sim/PredecodeBlock.cpp:103-154 | the basic decoders are split among stages 1A ≥ 1B ≥ 1C of at most three each, 1B used from four decoders, 1C from seven, as evenly as possible |
| Predecode.SplitUnique | nand_flash_sim/PredecodeBlock.cpp:103-154 | that split is the only one with those properties |
| Predecode.StageBits | nand_flash_sim/PredecodeBlock.cpp:106-156 | the address bits of stages 1A, 1B and 1C add up to n, 1B and 1C taking three per 3→8 decoder |
| Predecode.TwoLevelFanOut | nand_flash_sim/PredecodeBlock.cpp:112-162 | the first-stage rows multiply to the second stage's rows, and each first-stage output drives one NAND input per second-stage row it selects, so outputs times fan-out is the second stage's rows |
| Predecode.RowsShape | nand_flash_sim/PredecodeBlock.cpp:86-173 | no row decoder for one basic decoder, stage 1A alone driving the load for two or three, a second stage from four, stage 1C from seven; the top decoder has 2^n rows |
| Predecode.RowsDecodeAddress | nand_flash_sim/PredecodeBlock.cpp:100-172 | with a second stage, the first-stage rows multiply to 2^n and every first-stage output fans out to the right number of NAND inputs |
| Predecode.ThreeStageRows | nand_flash_sim/PredecodeBlock.cpp:125-154 | for seven, eight and nine basic decoders stages 1B/1C have 64/64, 512/64 and 512/512 rows, as the source asserts |
| Predecode.BasicFor | nand_flash_sim/PredecodeBlock.cpp:174-196 | a 1B or 1C group is a 3→8 decoder whose outputs drive the rows of its stage |
| Predecode.StageAFanOut | nand_flash_sim/PredecodeBlock.cpp:197-240 | the 1A group's decoders number as many as its NAND inputs, include the 2→4 decoders, decode 3·inputs − d24 bits, and drive exactly the stage's rows |
| Predecode.BasicsShape | nand_flash_sim/PredecodeBlock.cpp:174-252 | groups exist exactly for the stages built, and without a first stage there is a single decoder of n inputs on the load |
| Predecode.BasicsCoverAddress | nand_flash_sim/PredecodeBlock.cpp:174-240 | the basic decoders of all groups decode exactly n address bits |
| Predecode.StageARows | nand_flash_sim/PredecodeBlock.cpp:100-172 | stage 1A decodes 2^(3·inputs − d24) rows |
| Predecode.StageAWiring | nand_flash_sim/PredecodeBlock.cpp:197-240 | the outputs of each 1A basic decoder times its fan-out equal stage 1A's rows |
| Predecode.GroupWiring | nand_flash_sim/PredecodeBlock.cpp:174-196 | the outputs of the 1B and 1C basic decoders times their fan-out equal their stage's rows |
| Predecode.StageARowsAsWritten | nand_flash_sim/PredecodeBlock.cpp:155-156 | the seven-to-nine branch shifts the field's previous value rather than 1 |
| Predecode.StageARowsStale | nand_flash_sim/PredecodeBlock.cpp:155-156 | that shift gives stage 1A's rows exactly when the field held 1 before |
| Predecode.ReinitializedBlockOversizesStageA | nand_flash_sim/PredecodeBlock.cpp:108-156 | after sizing for 12 bits the field holds 64, and sizing again for 21 bits gives stage 1A 32768 rows instead of 512 |
| Predecode.CountDecoders | nand_flash_sim/PredecodeBlock.cpp:68-84 | the counting steps give the decoder counts |
| Predecode.SizeRowDecoders | nand_flash_sim/PredecodeBlock.cpp:86-173 | the row-decoder steps give the stage split, the corrected stage rows and the row decoders, leaving unbuilt stages' fields as they were |
| Predecode.SizeBasicDecoders | nand_flash_sim/PredecodeBlock.cpp:174-252 | the basic-decoder steps give the decoders of every group |
| Predecode.SizeGroupDecoders | nand_flash_sim/PredecodeBlock.cpp:174-196 | the 1B and 1C steps give those groups' decoders |
| Predecode.SizeStageADecoders | nand_flash_sim/PredecodeBlock.cpp:197-252 | the 1A steps, or the single decoder without a first stage, give that group's decoders |
| Predecode.PredecodeBlock.constructor | nand_flash_sim/PredecodeBlock.cpp:16-27 | a block starts uninitialised with no row or basic decoders |
| Predecode.PredecodeBlock.Initialize | nand_flash_sim/PredecodeBlock.cpp:49-255 | more than 27 bits is an error that changes no sizing; 0 bits zeroes the costs; otherwise the block holds the sizing for n bits; the block is initialised unless the width was rejected |
| Predecode.PredecodeBlock.Size | nand_flash_sim/PredecodeBlock.cpp:64-253 | the fields after sizing are the sizing for the stored width on top of the old fields |

## Left out

- Floating point, physics and I/O:
  - the analog and RC physics of the flash simulator: capacitances,
    resistances, latency, energy and area;
  - the predecoder's `capLoad` and `resLoad`;
  - the "already initialized" warning and the error message;
  - all instruction text emitted by code generation except the MVM mask
    strings;
  - per-file emission;
  - PyTorch tensors and `F.conv2d` themselves. A convolution is
    represented by the channel slice and bias it is given.
- Predecode.PredecodeBlock.Initialize: `exit(-1)` on more than 27
  address bits becomes an `Err` result. A negative width, undefined for
  the shifts in the source, is excluded by using `nat`.
- Predecode.SizeRowDecoders: models the intended reset of the stage-1A
  field to 1 in the seven-to-nine branch, as in the four-to-six branch.
  See Findings.
- `nand_flash_sim/PredecodeBlock.h` is not part of this model. The
  block's fields are taken from their uses in `PredecodeBlock.cpp`.
- Operations: `TileMemoryReadOperation::replaceSrc` and the
  operation-specific constructors beyond their operand links are not
  modelled.
- RegAlloc.CoreAllocator.Allocate: requires size ≤ REGISTER_FILE_SIZE.
  A larger size wraps the unsigned loop bound in the source.
- RegAlloc.CoreAllocator.Free: requires the whole range to be allocated.
  The source asserts bit by bit and would already have cleared the bits
  before a failing one.
- RegAlloc.SpillTracker.SetLiveNowReload: requires the load to be
  unrecorded. The source does not check this; it holds because every
  reload is a newly created load.
- MemAlloc.MemoryAllocator.Memalloc: requires size ≥ 1. For size 0 the
  alignment at `memalloc.cpp:79` computes 2^25 · 128 = 2^32 in signed
  `int`, which overflows (undefined behaviour; in practice the aligned
  size becomes 0).
- MemAlloc.MemoryAllocator.MemoryAllocation: computes the addresses only.
  The SetImmediate operations it creates for stores and loads are not
  modelled.
- Partitioner.Partitioner.AssignMatrixTiles: the per-user `assignVMVMU`
  and the affinity spreading (`partitioner.cpp:229-234`) are not modelled,
  because the walk over the operation graph is outside the model. The
  random shuffle (`partitioner.cpp:213-215`) is randomness; its result is
  the order of `tiles`.
- Partitioner.Partitioner.AssignVCoresInVMVMUOrder: requires fewer than
  2^32 vMVMUs, the range of the source's `unsigned int`.
- Compiler tiling arithmetic is unbounded. Layer dimensions stay far
  below 2^32; only the partitioner's wrap-around is written out.
- QuantConfig: thresholds are single real numbers. The tensor-shape
  handling of `get_effective_log2_t` and its `hasattr` assertions are
  left out.
- QuantConfig.Tune: uses the corrected threshold update `Round(acti) − d`
  of `ShiftActi` instead of `acti −= d` at `config.py:191-193` and
  `:199-201`. The stored threshold is therefore a whole number (5.0 where
  the source stores 5.3 from 6.3), and the failure of the exit assertion
  at `config.py:215` on a tie (6.5 − 1 = 5.5 still rounds to 6) is not
  reproduced by Tune; `ShiftActiAsWrittenMissesOnTie` exhibits it.
- QuantConfig.Tune and Fold.PimAssignment.InitPimUnits: the recursion
  into child modules is left out. Each covers the nodes given to it.
- Fold.FoldTheConvnet: does not recurse into child containers
  (`fold_op.py:55-56`). Such a sibling is kept as a single module that
  matches no pattern.
- Fold: the case `prev_list = None` is left out; `fold_the_network`
  always passes a map.
- ConvPartition.PartitionChannels: requires k·k ≤ num_rows whenever
  there are channels. With a granularity of 0 the source's loop never
  ends.
- ConvPartition: a missing bias in the INFERENCE phase is the error
  `MissingBias`, where the source fails in `bias.reshape`.

## Findings

| source | as written | input that shows it | evidently intended | confidence | as-written member | corrected member |
|---|---|---|---|---|---|---|
| 3DFPIM-Compiler/src/partitioner.cpp:361-369 | `nVTiles_ += (nVCores_ - 2 - 1)/N_CORES_PER_TILE + 1` in 32-bit unsigned arithmetic | nVCores = 2 (only the reserved input and output cores): 0 − 1 wraps to 4294967295, giving 178956973 tiles | 2 + ceil((nVCores − 2)/24), i.e. 2 tiles | high, by proof; not executed | Partitioner.VTileCountAsWrittenWraps | Partitioner.Partitioner.AssignVTilesInVMVMUOrder |
| 3DFPIM-Quant/qa_conv/config.py:191-193 | the adjustment is subtracted from the unrounded threshold, which is rounded half to even afterwards | activation threshold 6.5, previous 0, weight 1, spec (10, −1, 9), activation width 5: the effective range 5 is 1 too high, and 6.5 − 1 = 5.5 still rounds to 6, so the exit assertion at line 215 fails | the rounded threshold moves by exactly the adjustment | high, by proof; not executed | QuantConfig.ShiftActiAsWrittenMissesOnTie | QuantConfig.ShiftActi, QuantConfig.Tune |
| nand_flash_sim/PredecodeBlock.cpp:155-156 | the seven-to-nine branch shifts `numAddressBitStage1A` without resetting it to 1 first | Initialize(12) then Initialize(21) on the same block: stage 1A gets 64 · 2^9 = 32768 rows instead of 512 | reset to 1 before the shift, as the four-to-six branch does at line 108 | medium, by proof; not executed | Predecode.ReinitializedBlockOversizesStageA | Predecode.SizeRowDecoders |

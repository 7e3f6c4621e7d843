/** The x86-64 linker's bookkeeping: the addresses of functions and blocks,
    keyed by id, and the patches recorded while encoding that refer to them.
    The bytes `ApplyPatches` writes are kept abstract: resolving a patch
    yields the patch location paired with the address it refers to. */
module Linker {
  import opened Wrappers

  /** A machine address (`uint8_t*`). */
  type Addr = int

  /** `common::data`: a view on the code buffer, here the patch location. */
  datatype DataView = DataView(start: Addr, size: nat)

  /** A recorded reference to a function (`FuncRef`) or a block (`BlockRef`) and where to patch it. */
  datatype FuncPatch = FuncPatch(funcId: int, patchData: DataView)
  datatype BlockPatch = BlockPatch(blockId: int, patchData: DataView)

  /** A patch whose target is known: write (an encoding of) `target` into `patchData`. */
  datatype Resolved = Resolved(patchData: DataView, target: Addr)

  /** The resolved function patches and the resolved block patches, each in recording order. */
  datatype Resolution = Resolution(funcWrites: seq<Resolved>, blockWrites: seq<Resolved>)

  datatype LinkError = UnresolvedFunc(funcId: int) | UnresolvedBlock(blockId: int)

  class Linker {
    var funcAddrs: map<int, Addr>
    var blockAddrs: map<int, Addr>
    var funcPatches: seq<FuncPatch>
    var blockPatches: seq<BlockPatch>

    constructor ()
      ensures funcAddrs == map[] && blockAddrs == map[]
      ensures funcPatches == [] && blockPatches == []
    {
      funcAddrs := map[];
      blockAddrs := map[];
      funcPatches := [];
      blockPatches := [];
    }

    method AddFuncAddr(funcId: int, funcAddr: Addr)
      modifies this
      ensures funcAddrs == old(funcAddrs)[funcId := funcAddr]
      ensures blockAddrs == old(blockAddrs)
      ensures funcPatches == old(funcPatches) && blockPatches == old(blockPatches)
    {
      funcAddrs := funcAddrs[funcId := funcAddr];
    }

    method AddBlockAddr(blockId: int, blockAddr: Addr)
      modifies this
      ensures blockAddrs == old(blockAddrs)[blockId := blockAddr]
      ensures funcAddrs == old(funcAddrs)
      ensures funcPatches == old(funcPatches) && blockPatches == old(blockPatches)
    {
      blockAddrs := blockAddrs[blockId := blockAddr];
    }

    method AddFuncRef(funcId: int, patchData: DataView)
      modifies this
      ensures funcPatches == old(funcPatches) + [FuncPatch(funcId, patchData)]
      ensures blockPatches == old(blockPatches)
      ensures funcAddrs == old(funcAddrs) && blockAddrs == old(blockAddrs)
    {
      funcPatches := funcPatches + [FuncPatch(funcId, patchData)];
    }

    method AddBlockRef(blockId: int, patchData: DataView)
      modifies this
      ensures blockPatches == old(blockPatches) + [BlockPatch(blockId, patchData)]
      ensures funcPatches == old(funcPatches)
      ensures funcAddrs == old(funcAddrs) && blockAddrs == old(blockAddrs)
    {
      blockPatches := blockPatches + [BlockPatch(blockId, patchData)];
    }

    /** Every recorded patch refers to a registered function or block. */
    ghost predicate AllResolvable()
      reads this
    {
      && (forall p :: p in funcPatches ==> p.funcId in funcAddrs)
      && (forall p :: p in blockPatches ==> p.blockId in blockAddrs)
    }

    /** `ApplyPatches() const`: pairs every patch with its target's address, or
      reports a patch whose function or block was never registered. It
      changes none of the four tables. */
    method ApplyPatches() returns (r: Result<Resolution, LinkError>)
      ensures r.Success? <==> AllResolvable()
      ensures r.Failure? && r.error.UnresolvedFunc? ==>
        exists p :: p in funcPatches && p.funcId == r.error.funcId && p.funcId !in funcAddrs
      ensures r.Failure? && r.error.UnresolvedBlock? ==>
        exists p :: p in blockPatches && p.blockId == r.error.blockId && p.blockId !in blockAddrs
      ensures r.Success? ==>
        && |r.value.funcWrites| == |funcPatches|
        && (forall i :: 0 <= i < |funcPatches| ==>
              r.value.funcWrites[i] == Resolved(funcPatches[i].patchData, funcAddrs[funcPatches[i].funcId]))
        && |r.value.blockWrites| == |blockPatches|
        && (forall i :: 0 <= i < |blockPatches| ==>
              r.value.blockWrites[i] == Resolved(blockPatches[i].patchData, blockAddrs[blockPatches[i].blockId]))
    {
      var funcWrites: seq<Resolved> := [];
      var i := 0;
      while i < |funcPatches|
        invariant 0 <= i <= |funcPatches| && |funcWrites| == i
        invariant forall j :: 0 <= j < i ==> funcPatches[j].funcId in funcAddrs
        invariant forall j :: 0 <= j < i ==>
          funcWrites[j] == Resolved(funcPatches[j].patchData, funcAddrs[funcPatches[j].funcId])
      {
        var patch := funcPatches[i];
        if patch.funcId !in funcAddrs {
          return Failure(UnresolvedFunc(patch.funcId));
        }
        funcWrites := funcWrites + [Resolved(patch.patchData, funcAddrs[patch.funcId])];
        i := i + 1;
      }
      var blockWrites: seq<Resolved> := [];
      var k := 0;
      while k < |blockPatches|
        invariant 0 <= k <= |blockPatches| && |blockWrites| == k
        invariant forall j :: 0 <= j < k ==> blockPatches[j].blockId in blockAddrs
        invariant forall j :: 0 <= j < k ==>
          blockWrites[j] == Resolved(blockPatches[j].patchData, blockAddrs[blockPatches[j].blockId])
      {
        var patch := blockPatches[k];
        if patch.blockId !in blockAddrs {
          return Failure(UnresolvedBlock(patch.blockId));
        }
        blockWrites := blockWrites + [Resolved(patch.patchData, blockAddrs[patch.blockId])];
        k := k + 1;
      }
      r := Success(Resolution(funcWrites, blockWrites));
    }
  }

  /** The callees of the five `Call` instructions of the x86-64 test program,
      in program order: PrintInt (1235) twice, AddInts (1234), PrintInt twice. */
  const TestCallees: seq<int> := [1235, 1235, 1234, 1235, 1235]

  /** The x86-64 test program's use of the linker: AddInts (1234) and PrintInt
      (1235) are registered first; encoding then registers the loop block's
      address, records the five calls and the conditional jump back to the
      loop block; `ApplyPatches` runs once. Every call site is resolved to its
      callee's address and the jump to the loop block's address. Where the
      encoder places each of these calls among the others is not part of this
      model; the outcome does not depend on it once all addresses are known. */
  method LinkTestProgram(addIntsAddr: Addr, printIntAddr: Addr, callSites: seq<DataView>,
                         loopBlockId: int, loopAddr: Addr, jumpSite: DataView)
    returns (r: Result<Resolution, LinkError>)
    requires |callSites| == |TestCallees|
    ensures r.Success?
    ensures |r.value.funcWrites| == |callSites|
    ensures forall i :: 0 <= i < |callSites| ==>
      r.value.funcWrites[i] == Resolved(callSites[i], if TestCallees[i] == 1234 then addIntsAddr else printIntAddr)
    ensures r.value.blockWrites == [Resolved(jumpSite, loopAddr)]
  {
    var linker := new Linker();
    linker.AddFuncAddr(1234, addIntsAddr);
    linker.AddFuncAddr(1235, printIntAddr);
    linker.AddBlockAddr(loopBlockId, loopAddr);
    var i := 0;
    while i < |callSites|
      invariant 0 <= i <= |callSites|
      invariant linker.funcAddrs == map[1234 := addIntsAddr, 1235 := printIntAddr]
      invariant linker.blockAddrs == map[loopBlockId := loopAddr] && linker.blockPatches == []
      invariant |linker.funcPatches| == i
      invariant forall j :: 0 <= j < i ==> linker.funcPatches[j] == FuncPatch(TestCallees[j], callSites[j])
    {
      linker.AddFuncRef(TestCallees[i], callSites[i]);
      i := i + 1;
    }
    linker.AddBlockRef(loopBlockId, jumpSite);
    r := linker.ApplyPatches();
  }
}

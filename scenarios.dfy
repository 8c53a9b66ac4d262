/** Callers of the builders: the IR builder creating a series of
    instructions through a redirecting builder, and the full life of a
    scratch-block builder, harvested or abandoned. */
module Scenarios {
  import opened IR
  import opened IRBuilders

  /** The IR builder creates the instructions of `cs` one after another
      through `b`. The destination ends with its old contents followed by
      the created instructions in creation order; each created instruction
      carries the name of its last creation (its only one, when no
      instruction is created twice); none is put into a block. */
  method CaptureAll(b: RedirectingBuilder, cs: seq<Creation>)
    requires b.inserter.dest != null
    modifies b.inserter.dest`instructions, set k | 0 <= k < |cs| :: cs[k].inst`name
    ensures b.inserter.dest.instructions == old(b.inserter.dest.instructions) + Created(cs)
    ensures forall k :: 0 <= k < |cs| ==> cs[k].inst.name == LastName(cs, cs[k].inst, old(cs[k].inst.name))
    ensures forall k :: 0 <= k < |cs| ==> cs[k].inst.parent == old(cs[k].inst.parent)
    ensures Distinct(Created(cs)) ==> forall k :: 0 <= k < |cs| ==> cs[k].inst.name == cs[k].name
  {
    var n := 0;
    while n < |cs|
      invariant n <= |cs|
      invariant b.inserter.dest.instructions == old(b.inserter.dest.instructions) + Created(cs[..n])
      invariant forall k :: 0 <= k < |cs| ==> cs[k].inst.name == LastName(cs[..n], cs[k].inst, old(cs[k].inst.name))
    {
      var c := cs[n];
      b.Insert(c.inst, c.name);
      assert cs[..n + 1][..n] == cs[..n];
      assert Created(cs[..n + 1]) == Created(cs[..n]) + [c.inst];
      n := n + 1;
    }
    assert cs[..n] == cs;
    if Distinct(Created(cs)) {
      forall k | 0 <= k < |cs|
        ensures cs[k].inst.name == cs[k].name
      {
        LastNameOfDistinct(cs, k, old(cs[k].inst.name));
      }
    }
  }

  /** The IR builder creates the floating, distinct instructions of `cs`
      through the scratch builder; they land in its dummy block, in order. */
  method EmitAll(bb: BlockBuilder, cs: seq<Creation>)
    requires bb.Valid() && Distinct(Created(cs))
    requires forall k :: 0 <= k < |cs| ==> cs[k].inst.parent == null
    modifies bb.dummyBlock`insts, set k | 0 <= k < |cs| :: cs[k].inst`parent, set k | 0 <= k < |cs| :: cs[k].inst`name
    ensures bb.Valid() && bb.harvested == old(bb.harvested)
    ensures bb.dummyBlock.insts == old(bb.dummyBlock.insts) + Created(cs)
    ensures forall k :: 0 <= k < |cs| ==> cs[k].inst.parent == bb.dummyBlock
  {
    var n := 0;
    while n < |cs|
      invariant n <= |cs| && bb.Valid() && bb.harvested == old(bb.harvested)
      invariant bb.dummyBlock.insts == old(bb.dummyBlock.insts) + Created(cs[..n])
      invariant forall k :: 0 <= k < n ==> cs[k].inst.parent == bb.dummyBlock
      invariant forall k :: n <= k < |cs| ==> cs[k].inst.parent == null
    {
      assert cs[..n + 1][..n] == cs[..n];
      assert Created(cs)[n] == cs[n].inst;
      assert forall k :: n < k < |cs| ==> Created(cs)[k] == cs[k].inst && Created(cs)[k] != Created(cs)[n];
      bb.Emit(cs[n].inst, cs[n].name);
      n := n + 1;
    }
    assert cs[..n] == cs;
  }

  /** Arm a scratch builder on `fcn`, create the instructions of `cs`,
      harvest, destroy: the harvest yields exactly the created instructions
      in order, all detached, and `fcn` is left with the blocks it had before. */
  method HarvestRound(fcn: Function, cs: seq<Creation>) returns (r: seq<Instruction>)
    requires Distinct(Created(cs))
    requires forall k :: 0 <= k < |cs| ==> cs[k].inst.parent == null
    modifies fcn`blocks, set k | 0 <= k < |cs| :: cs[k].inst`parent, set k | 0 <= k < |cs| :: cs[k].inst`name
    ensures r == Created(cs)
    ensures forall k :: 0 <= k < |r| ==> r[k].parent == null
    ensures fcn.blocks == old(fcn.blocks)
  {
    var bb := new BlockBuilder(fcn);
    EmitAll(bb, cs);
    r := bb.Instructions();
    bb.Release();
    WithoutAppended(old(fcn.blocks), bb.dummyBlock);
  }

  /** Arm a scratch builder on `fcn`, create the instructions of `cs`,
      destroy it without harvesting: `fcn` is left with the blocks it had
      before, and the instructions stay behind in the discarded block. */
  method AbandonRound(fcn: Function, cs: seq<Creation>)
    requires Distinct(Created(cs))
    requires forall k :: 0 <= k < |cs| ==> cs[k].inst.parent == null
    modifies fcn`blocks, set k | 0 <= k < |cs| :: cs[k].inst`parent, set k | 0 <= k < |cs| :: cs[k].inst`name
    ensures fcn.blocks == old(fcn.blocks)
    ensures forall k :: 0 <= k < |cs| ==> cs[k].inst.parent != null && cs[k].inst.parent !in fcn.blocks
  {
    var bb := new BlockBuilder(fcn);
    EmitAll(bb, cs);
    ghost var block := bb.dummyBlock;
    bb.Release();
    WithoutAppended(old(fcn.blocks), block);
    assert block !in fcn.blocks;
  }
}

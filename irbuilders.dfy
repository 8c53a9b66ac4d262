/** The instruction-capture builders: an inserter that redirects every
    instruction the IR builder creates into an instruction-list owner
    instead of a basic block, the builder facade that installs it, and the
    scratch-block builder that collects instructions in a dummy block of a
    dummy function and hands them back detached. */
module IRBuilders {
  import opened IR

  /** BexprInserter / BinstructionsInserter: the IR builder's insertion
      hook, redirected to a destination owner that is set once. */
  class Inserter {
    var dest: InstructionOwner?

    /** A fresh inserter has no destination. */
    constructor ()
      ensures dest == null
    {
      dest := null;
    }

    /** setDest: only legal while no destination is set; afterwards the
        destination is exactly the argument (which may itself be null). */
    method SetDest(d: InstructionOwner?)
      requires dest == null
      modifies this`dest
      ensures dest == d
    {
      dest := d;
    }

    /** InsertHelper: appends `i` to the destination's list and names it
        `name`. The block `bb` and position `insertPt` the IR builder
        proposes are ignored: no block changes, `i` stays where it was, and
        the destination itself is not changed. */
    method InsertHelper(i: Instruction, name: string, bb: BasicBlock?, insertPt: nat)
      requires dest != null
      modifies dest`instructions, i`name
      ensures dest == old(dest)
      ensures dest.instructions == old(dest.instructions) + [i]
      ensures i.name == name
      ensures i.parent == old(i.parent)
      ensures bb != null ==> unchanged(bb)
    {
      dest.AppendInstruction(i);
      i.name := name;
    }
  }

  /** BexprLIRBuilder / BinstructionsLIRBuilder: an IR builder whose
      inserter targets a given owner. It is constructed without an
      insertion block, so the block it hands to the inserter is null. */
  class RedirectingBuilder {
    const inserter: Inserter

    /** BexprLIRBuilder(context, expr): the inserter's destination is `expr`. */
    constructor ForBexpression(expr: InstructionOwner?)
      requires expr != null ==> expr.kind == Expression
      ensures fresh(inserter)
      ensures inserter.dest == expr
    {
      var ins := new Inserter();
      ins.SetDest(expr);
      inserter := ins;
    }

    /** BinstructionsLIRBuilder(context, insns): the inserter's destination is `insns`. */
    constructor ForBinstructions(insns: InstructionOwner?)
      requires insns != null ==> insns.kind == Container
      ensures fresh(inserter)
      ensures inserter.dest == insns
    {
      var ins := new Inserter();
      ins.SetDest(insns);
      inserter := ins;
    }

    /** The IR builder's step for a newly created, non-folded instruction:
        hand it to the inserter, with the builder's (absent) insertion block. */
    method Insert(i: Instruction, name: string)
      requires inserter.dest != null
      modifies inserter.dest`instructions, i`name
      ensures inserter.dest.instructions == old(inserter.dest.instructions) + [i]
      ensures i.name == name
      ensures i.parent == old(i.parent)
    {
      inserter.InsertHelper(i, name, null, 0);
    }
  }

  /** One instruction-creation event: the instruction and the name the
      IR builder proposes for it. */
  datatype Creation = Creation(inst: Instruction, name: string)

  /** The instructions of a series of creation events, collected one event
      at a time: each one created, and only those, in creation order. */
  function Created(cs: seq<Creation>): (r: seq<Instruction>)
    ensures |r| == |cs|
    ensures forall k :: 0 <= k < |cs| ==> r[k] == cs[k].inst
  {
    if cs == [] then [] else Created(cs[..|cs| - 1]) + [cs[|cs| - 1].inst]
  }

  /** The name instruction `i` carries after the events `cs` were inserted,
      starting from name `initial`: the name of its last creation event. */
  function LastName(cs: seq<Creation>, i: Instruction, initial: string): (r: string)
  {
    if cs == [] then initial
    else if cs[|cs| - 1].inst == i then cs[|cs| - 1].name
    else LastName(cs[..|cs| - 1], i, initial)
  }

  /** An instruction ends up with its initial name or with a name that was
      proposed for that very instruction, never with another's name. */
  lemma {:induction false} LastNameIsProposed(cs: seq<Creation>, i: Instruction, initial: string)
    ensures LastName(cs, i, initial) == initial
         || exists k :: 0 <= k < |cs| && cs[k].inst == i && cs[k].name == LastName(cs, i, initial)
  {
    if cs != [] && cs[|cs| - 1].inst != i {
      var front := cs[..|cs| - 1];
      LastNameIsProposed(front, i, initial);
      if LastName(front, i, initial) != initial {
        var k :| 0 <= k < |front| && front[k].inst == i && front[k].name == LastName(front, i, initial);
        assert cs[k] == front[k];
      }
    }
  }

  /** An instruction no event mentions keeps its name: the naming function
      agrees with the frame of the inserter, which touches only the names
      of the instructions it is handed. */
  lemma {:induction false} LastNameUntouched(cs: seq<Creation>, i: Instruction, initial: string)
    requires forall k :: 0 <= k < |cs| ==> cs[k].inst != i
    ensures LastName(cs, i, initial) == initial
  {
    if cs != [] {
      LastNameUntouched(cs[..|cs| - 1], i, initial);
    }
  }

  /** When every instruction is created once, each ends up with exactly the
      name proposed at its creation. */
  lemma {:induction false} LastNameOfDistinct(cs: seq<Creation>, k: nat, initial: string)
    requires Distinct(Created(cs))
    requires k < |cs|
    ensures LastName(cs, cs[k].inst, initial) == cs[k].name
  {
    var n := |cs| - 1;
    if k < n {
      assert Created(cs)[k] != Created(cs)[n];
      var front := cs[..n];
      assert Created(front) == Created(cs)[..n];
      LastNameOfDistinct(front, k, initial);
    }
  }

  /** BlockLIRBuilder: a default-inserting IR builder aimed at a dummy block
      that it appends to a dummy function at construction. `harvested`
      records the one-shot instructions() call; `destroyed` the destructor. */
  class BlockBuilder {
    const dummyFcn: Function
    const dummyBlock: BasicBlock
    var harvested: bool
    ghost var destroyed: bool

    /** The dummy block sits in the dummy function, and every instruction in
        it is there once and knows the block as its parent. */
    ghost predicate Valid()
      reads this, dummyFcn, dummyBlock, dummyBlock.insts
    {
      && !destroyed
      && dummyBlock.parent == dummyFcn
      && dummyBlock in dummyFcn.blocks
      && Distinct(dummyBlock.insts)
      && forall k :: 0 <= k < |dummyBlock.insts| ==> dummyBlock.insts[k].parent == dummyBlock
    }

    /** BlockLIRBuilder(dummyFcn, namegen): a new empty block is appended to
        the dummy function, which is otherwise unchanged. */
    constructor (fcn: Function)
      modifies fcn`blocks
      ensures Valid() && !harvested
      ensures dummyFcn == fcn && fresh(dummyBlock)
      ensures dummyBlock.insts == []
      ensures fcn.blocks == old(fcn.blocks) + [dummyBlock]
    {
      var bb := new BasicBlock();
      dummyFcn := fcn;
      dummyBlock := bb;
      harvested := false;
      destroyed := false;
      new;
      bb.parent := fcn;
      fcn.blocks := fcn.blocks + [bb];
    }

    /** The IR builder's default insertion of a new, floating instruction at
        the end of the dummy block, naming it after the proposed `name`. The
        name it ends up with is left unstated: inside a function LLVM may
        make it unique. */
    method Emit(i: Instruction, name: string)
      requires Valid()
      requires i.parent == null
      modifies dummyBlock`insts, i`parent, i`name
      ensures Valid() && harvested == old(harvested)
      ensures dummyBlock.insts == old(dummyBlock.insts) + [i]
      ensures i.parent == dummyBlock
    {
      dummyBlock.insts := dummyBlock.insts + [i];
      i.parent := dummyBlock;
      i.name := name;
    }

    /** instructions(): may be called once. Returns the instructions of the
        dummy block in order and detaches each from it, leaving the block
        empty. Instruction names are not touched. */
    method Instructions() returns (r: seq<Instruction>)
      requires Valid() && !harvested
      modifies this`harvested, dummyBlock`insts, set k | 0 <= k < |dummyBlock.insts| :: dummyBlock.insts[k]`parent
      ensures Valid() && harvested
      ensures r == old(dummyBlock.insts)
      ensures dummyBlock.insts == []
      ensures forall k :: 0 <= k < |r| ==> r[k].parent == null && r[k].name == old(r[k].name)
    {
      ghost var orig := dummyBlock.insts;
      r := [];
      while dummyBlock.insts != []
        invariant Distinct(orig) && |r| <= |orig|
        invariant r == orig[..|r|] && dummyBlock.insts == orig[|r|..]
        invariant forall k :: 0 <= k < |r| ==> orig[k].parent == null && orig[k].name == old(orig[k].name)
        invariant forall k :: |r| <= k < |orig| ==> orig[k].parent == dummyBlock
        decreases |dummyBlock.insts|
      {
        var i := dummyBlock.insts[0];
        assert i == orig[|r|];
        dummyBlock.insts := dummyBlock.insts[1..];
        i.parent := null;
        r := r + [i];
      }
      harvested := true;
    }

    /** ~BlockLIRBuilder: the dummy block is unlinked from the dummy
        function. Instructions never harvested stay in the discarded block. */
    method Release()
      requires Valid()
      modifies this`destroyed, dummyFcn`blocks, dummyBlock`parent
      ensures destroyed
      ensures dummyFcn.blocks == Without(old(dummyFcn.blocks), dummyBlock)
      ensures dummyBlock.parent == null
      ensures dummyBlock.insts == old(dummyBlock.insts)
    {
      dummyFcn.blocks := Without(dummyFcn.blocks, dummyBlock);
      dummyBlock.parent := null;
      destroyed := true;
    }
  }
}

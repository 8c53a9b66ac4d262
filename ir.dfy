/** The slice of the IR object model that the builders touch: instructions,
    basic blocks, functions and the two kinds of instruction-list owner
    (a Bexpression and a bare Binstructions container). Only identity,
    name, parent block and list membership are modelled; what an
    instruction computes is never inspected. */
module IR {

  /** An IR instruction. `parent` is the basic block holding it, or null
      while the instruction is floating. */
  class Instruction {
    var name: string
    var parent: BasicBlock?

    constructor ()
      ensures name == "" && parent == null
    {
      name := "";
      parent := null;
    }
  }

  /** A basic block: an ordered instruction list, normally inside a function. */
  class BasicBlock {
    var insts: seq<Instruction>
    var parent: Function?

    constructor ()
      ensures insts == [] && parent == null
    {
      insts := [];
      parent := null;
    }
  }

  /** A function, seen only as the ordered list of its blocks. */
  class Function {
    var blocks: seq<BasicBlock>

    constructor ()
      ensures blocks == []
    {
      blocks := [];
    }
  }

  /** Which of the two owner types an InstructionOwner stands for. */
  datatype OwnerKind = Expression | Container

  /** Anything that owns an ordered instruction list and accepts appends:
      a Bexpression (kind Expression) or a Binstructions (kind Container). */
  class InstructionOwner {
    const kind: OwnerKind
    var instructions: seq<Instruction>

    constructor (kind: OwnerKind)
      ensures this.kind == kind && instructions == []
    {
      this.kind := kind;
      instructions := [];
    }

    /** appendInstruction: adds `i` at the end of the list. */
    method AppendInstruction(i: Instruction)
      modifies this`instructions
      ensures instructions == old(instructions) + [i]
    {
      instructions := instructions + [i];
    }
  }

  /** No instruction occurs twice in `s`. */
  ghost predicate Distinct(s: seq<Instruction>)
  {
    forall j, k :: 0 <= j < k < |s| ==> s[j] != s[k]
  }

  /** `s` with every occurrence of block `b` removed, order kept: the block
      list of a function after `b` is unlinked from it. */
  function Without(s: seq<BasicBlock>, b: BasicBlock): (r: seq<BasicBlock>)
    ensures b !in r
    ensures forall k :: 0 <= k < |r| ==> r[k] in s
    ensures forall k :: 0 <= k < |s| && s[k] != b ==> s[k] in r
    ensures |r| <= |s|
    ensures b !in s ==> r == s
  {
    if s == [] then []
    else if s[0] == b then Without(s[1..], b)
    else [s[0]] + Without(s[1..], b)
  }

  /** Appending a block that was not there and then unlinking it gives back
      the original block list. */
  lemma {:induction false} WithoutAppended(s: seq<BasicBlock>, b: BasicBlock)
    requires b !in s
    ensures Without(s + [b], b) == s
  {
    if s == [] {
      assert s + [b] == [b];
    } else {
      assert (s + [b])[1..] == s[1..] + [b];
      WithoutAppended(s[1..], b);
    }
  }
}

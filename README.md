# Instruction-capture builders of the gollvm bridge, in Dafny

This project models the helper IR builders of gollvm's bridge
(`bridge/go-llvm-irbuilders.h`). They let the Go frontend build LLVM
instructions without a live insertion point:

- `BexprInserter` / `BinstructionsInserter` replace the IR builder's
  insertion hook. Their destination is set once. Every instruction the
  builder creates is appended to the destination's instruction list
  (a `Bexpression` or a `Binstructions`) and given its name. It is never
  put into a basic block.
- `BexprLIRBuilder` / `BinstructionsLIRBuilder` are IR builders whose
  constructor installs such an inserter and sets its destination.
- `BlockLIRBuilder` is an ordinary IR builder aimed at a dummy basic
  block. The block is hosted in a dummy function. `instructions()` hands
  back the block's instructions in order, detached from it, and may be
  called only once. The destructor unlinks the dummy block from the function.

Files:

- `ir.dfy` (module `IR`): the parts of the IR object model the builders
  touch. `Instruction` has a name and a parent block. `BasicBlock` holds an
  instruction list and a parent function. `Function` holds a block list.
  `InstructionOwner` is the one class that stands for both owner types,
  with a `kind` telling them apart. The module also has sequence helpers
  (`Distinct`, `Without`).
- `irbuilders.dfy` (module `IRBuilders`): the generic `Inserter`, the
  `RedirectingBuilder` with one named constructor per C++ builder class,
  and `BlockBuilder`. It also defines `LastName`, the name an instruction
  ends up with after a series of creations.
- `scenarios.dfy` (module `Scenarios`): callers. These are the IR builder
  creating many instructions through a redirecting builder, and the life
  of a scratch builder that is either harvested or abandoned.

The C++ assertions (`assert(!expr_)`, `assert(expr_)`) and the "call
once" comment are precondition violations. They are modelled as
`requires`, since they are programming errors and not recoverable
results. The two inserter classes are identical except for the owner
type, so one `Inserter` class models both. Each row below cites the
`Bexpression` variant's lines. The `Binstructions` variant's lines are
given in the text.

## Model

| member | source | states |
|---|---|---|
| `IR.InstructionOwner.AppendInstruction` | bridge/go-llvm-irbuilders.h:37 | The owner's list becomes its old contents followed by the one instruction (`appendInstruction`, also line 68); only the list changes |
| `IRBuilders.Inserter.constructor` | bridge/go-llvm-irbuilders.h:30 | A fresh inserter has no destination (also line 61) |
| `IRBuilders.Inserter.SetDest` | bridge/go-llvm-irbuilders.h:31 | Legal only while no destination is set; afterwards the destination is exactly the argument, so a second set after a non-null one violates the precondition (also line 62) |
| `IRBuilders.Inserter.InsertHelper` | bridge/go-llvm-irbuilders.h:33-39 | Requires a destination. The destination's list grows by exactly the given instruction at its end; the instruction's name becomes the given name; only that instruction's name and the destination's list change; the proposed block is unchanged, the instruction's parent block is unchanged and the destination pointer is unchanged (also lines 64-70) |
| `IRBuilders.RedirectingBuilder.ForBexpression` | bridge/go-llvm-irbuilders.h:51-54 | After construction the builder's own fresh inserter has destination `expr` |
| `IRBuilders.RedirectingBuilder.ForBinstructions` | bridge/go-llvm-irbuilders.h:83-86 | After construction the builder's own fresh inserter has destination `insns` |
| `IRBuilders.RedirectingBuilder.Insert` | bridge/go-llvm-irbuilders.h:47-53 | A builder made without an insertion block appends a created instruction to its destination and names it, and leaves its parent block as it was |
| `IRBuilders.LastNameIsProposed` | bridge/go-llvm-irbuilders.h:38 | After any series of creations an instruction's name is its initial name or one that was proposed for that same instruction, never a name meant for another |
| `IRBuilders.LastNameUntouched` | bridge/go-llvm-irbuilders.h:38 | An instruction that no creation event mentions keeps its earlier name |
| `IRBuilders.LastNameOfDistinct` | bridge/go-llvm-irbuilders.h:38 | When no instruction is created twice, each instruction's final name is the name proposed when it was created |
| `Scenarios.CaptureAll` | bridge/go-llvm-irbuilders.h:33-39 | After any series of insertions through a redirecting builder, the destination's list is its old contents followed by the created instructions in creation order. Each instruction carries the name of its last creation, which is its only one when none repeats. No instruction's parent block changes |
| `IRBuilders.BlockBuilder.constructor` | bridge/go-llvm-irbuilders.h:97-106 | The builder owns a fresh, empty dummy block whose parent is the dummy function. That block is appended to the function's block list, which is otherwise unchanged |
| `IRBuilders.BlockBuilder.Emit` | bridge/go-llvm-irbuilders.h:97-99 | A floating instruction created by the builder is appended to the dummy block and gets the block as parent; the builder's invariant is kept. Its name may change, and the resulting name is left unstated |
| `Scenarios.EmitAll` | bridge/go-llvm-irbuilders.h:97-99 | The instructions of a series of creations, distinct and floating, end up in the dummy block after its old contents, in creation order, each with the dummy block as parent |
| `IRBuilders.BlockBuilder.Instructions` | bridge/go-llvm-irbuilders.h:109-112 | Callable only once (requires not yet harvested, ensures harvested). Returns exactly the dummy block's instructions in order. Every returned instruction has no parent block and keeps its name, and the block is left empty |
| `IRBuilders.BlockBuilder.Release` | bridge/go-llvm-irbuilders.h:100-102 | The destructor unlinks the dummy block from the dummy function, leaving that function's other blocks in order. The block has no parent afterwards and any unharvested instructions stay with it |
| `IR.WithoutAppended` | bridge/go-llvm-irbuilders.h:100-102 | Unlinking a block that was appended to a block list it was not in gives back the original list |
| `Scenarios.HarvestRound` | bridge/go-llvm-irbuilders.h:97-112 | Construct, create distinct floating instructions, harvest, destroy. The harvest returns exactly the created instructions in order, all detached, and the dummy function ends with the blocks it had before |
| `Scenarios.AbandonRound` | bridge/go-llvm-irbuilders.h:97-102 | Construct, emit, destroy without harvesting. The dummy function ends with the blocks it had before, and the emitted instructions stay in the discarded block, which is no block of that function |

## Left out

- `llvm::IRBuilder` and its whole instruction-creation API, and `llvm::ConstantFolder`. Both are library code outside this header. Which instructions are created, and which operations fold to constants without creating one, is decided there. The model starts from the instruction the builder hands to its inserter.
- `llvm::LLVMContext`, `llvm::Twine` and `llvm::BasicBlock::iterator`. The context is not a parameter, names are plain strings, and the insertion position is an unused `nat`.
- LLVM's name handling in `setName` (discarded value names, uniquing against a symbol table). `InsertHelper` is modelled as storing the name exactly. The redirected instructions have no parent function, so no symbol table is involved.
- IRBuilders.BlockBuilder.Emit: does not state the name the instruction gets. The default insertion names it after the proposed name, but the instruction sits in a block of a function, where LLVM may make the name unique, and that code is not part of this model. The frame lets the name change.
- The `const`/`mutable` arrangement that lets `InsertHelper` be `const`. The model's `InsertHelper` simply modifies the destination.
- The implementation of `BlockLIRBuilder` (its constructor, destructor and `instructions()` bodies) is not part of this model. The three are modelled from the header's comments: a fresh block appended to the dummy function, a one-shot in-order harvest that detaches the instructions, and unlinking of the block in the destructor. Any renaming that the implementation may do while harvesting is not modelled. The `NameGen` argument is therefore dropped.
- Ownership and deletion (`std::unique_ptr` of the dummy block, freeing of instructions left in an abandoned block). The model has no deallocation; `Release` only unlinks the block and marks the builder destroyed.
- `Bexpression::appendInstruction` and `Binstructions::appendInstruction` are declared in `go-llvm-bexpression.h`, which is not part of this model. Both are modelled as a plain append.
- The owners' other contents (a `Bexpression`'s value, type and so on) are not modelled. Only their instruction lists are.
- The model detaches only the instructions in `instructions()`. The dummy block stays in the dummy function until the destructor, as the header comment at lines 100-102 says.
- `setDest` is modelled with a nullable argument, as in the C++. Its assertion only forbids a second set after a non-null destination, so setting to null leaves the inserter settable again.
- IRBuilders.BlockBuilder.Release: does not detach the instructions from the dummy block. The header comment at lines 97-100 says the destructor detaches them so that they can be returned in a list, but the comment on `instructions()` at lines 109-111 says that call detaches them. A destructor cannot return a list, so the model takes the `instructions()` reading: harvesting detaches and empties the block, and instructions never harvested stay in the block the destructor unlinks.

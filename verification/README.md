# WAHE verification

A Dafny model of the parts of WAHE where a mistake is hardest to see, with proofs about every input, run or
interleaving of the model. `dafny verify dfyconfig.toml` checks all of it.

**The wasm2c compiler.** `Wasm` gives the source language: structured code, validation and execution, as sections 3.3
and 4.4 of the WebAssembly Core Specification 1.0 define them. `CLang` gives the target: a flat list of C statements
run by a machine with a program counter, call frames, C integer arithmetic and the lifetime of block-scoped variables
(a jump forgets every variable whose declaration it leaves or skips). `Numerics`, `Typing` and `CRules` say what the
functions of these two mean, those that both languages share above all: bits, bytes, division, typing rules, conversions. `Translator` is the one pass over the opcodes on
values, and `FuncGenerator` and `MainLoop` are the same pass as the program runs it, updating growable arrays in place;
they are proved equal. `OnePass` shows that the flat pass with its counter of unreachable depth is the structured
translation, and `Flat` that the flat form stands for one structured form; `Allocator`, `CodeSound` and `Reachable` prove the temporary-reuse allocator sound in every state the loop
passes through; `Layout`, `Labels`, `Scoping`, `Braces` and `Functions` prove names, braces and labels right; `Paths`
and `Assignment` prove that no path reads an unassigned variable; `Emitted` and `Statements` prove the emitted
arithmetic and memory accesses right; `Sim` to `Correct` put these together into the correctness of the whole compiler,
traps included, and `Endless` adds runs without end and the converse; `Limits` states exactly where the code departs
from the specification.

**Message relocation.** `Numerals` and `Descriptors` are the scanner and printer of location descriptors, `Grammar`
their form stated on the text, with the proof that scanning finds all of them and nothing else, `Transfer` the
resolution of addresses, the choice of delivery, the checked size arithmetic and the layout, `Relocation` what a transfer and any chain of
transfers preserves, and `Courier` the loops of the transfer, proved equal to `Transfer`.

**Worker threads.** `Threads` is a state machine of atomic steps, each a locked region or one piece of unlocked work;
`ThreadProofs` proves its invariant, `ThreadRuns` what follows for every interleaving, `ThreadLives` what the steps get
done from any state that an interleaving reaches, and `ThreadTable` has the locked regions as loops over the slots.

**Command routing and ownership.** `Routes` and `CommandTable` are the registry, its lookups and its runtime
overrides; `Commands` and `CommandRunner` are the execution of commands and chains, as far as message ownership goes,
with callbacks that run further commands to any depth; `Replies` tells from a command alone what it answers and whom it
calls, and proves every call's input alive.

**Codecs.** `Leb128` and `ByteStream` are the number writers and readers, `Sections` and `SectionParser` the section
parser, `Utf` and `UtfBuffers` the text conversions.

Where the program changes things step by step, a class or a method with loops does so here, and its contract equates it
with a function on values; the properties are proved about that function. Calls into code outside the model are
parameters: what an allocator answers, what a callback does, which step of which thread comes next.

## Model

| member | source | states |
|---|---|---|
| Correct.CompilerCorrect | wasm2c/wasm2c.c:996-1525 | For every valid module and every call with well-typed arguments, every function translates, and whatever a source run comes to, the emitted goto program comes to: the same result, globals and memory, the same abort, or undefined behaviour where the source traps or takes the remainder of the most negative number by -1; the one exception is a trap of an access whose address wraps around modulo 2^32. The source run is never ill-typed |
| Endless.EndlessRuns | wasm2c/wasm2c.c:996-1525 | If the source run of a call never ends, neither does the run of the emitted program |
| Endless.EndMeans | wasm2c/wasm2c.c:996-1525 | The converse of correctness: if the emitted program finishes, aborts or reaches undefined behaviour, the source run ends and did the same, or it ended in a trap of an access whose address wraps around |
| Correct.SimFunc | wasm2c/wasm2c.c:1398-1460 | An emitted function answers a call from any caller frame as the source function does, at any call depth |
| Correct.SimCode | wasm2c/wasm2c.c:1026-1525 | Simulation step by step: from related states the emitted statements of any code reach a state related to the source outcome, through every kind of branch, also over inline declarations and from a then-arm into the end of its else-arm |
| Functions.FuncEmits | wasm2c/wasm2c.c:1012-1025 | Translating a function of a valid module never faults, and the output is zeroed locals, result declarations, body and return in that order |
| Functions.FuncScoped | wasm2c/FuncGen.h:84-122 | Every variable is used inside the braces of its declaration and behind it, and none is declared twice in one scope |
| Functions.FuncLayout | wasm2c/FuncGen.h:142-217 | Braces balance, every label is defined once and has the number of no variable, every goto has its label in the function, and following the structure of the source, the label of a loop stands at the loop's head and that of any other block at its end |
| Labels.CodeLaid | wasm2c/FuncGen.h:142-217 | The same label positions in the statements of any code, for every block in it |
| Assignment.DefinitelyAssigned | wasm2c/FuncGen.h:84-122 | On every path through an emitted function, with either arm of each condition, any target of each switch and any number of rounds, every statement reads only variables assigned on that path whose scope was not left since |
| Assignment.NeverReadsUnassigned | wasm2c/wasm2c.c:996-1525 | However far a call has run, also if it never ends or comes to a trap, the statement that the C machine is at reads assigned variables only |
| Assignment.SafeCode | wasm2c/wasm2c.c:1288-1302 | For any code and any number of steps: if the operands and locals are assigned and every open label is safe with what branches bring there, so is the code |
| Paths.StepDepends | wasm2c/wasm2c.c:996-1525 | What a statement does depends on the values of the variables that the model says it reads, and on no others |
| Braces.CodeScoped | wasm2c/FuncGen.h:165-217 | Scoping for any code from any sound generator state whose names are in view |
| CodeSound.CodeIsSound | wasm2c/FuncGen.h:90-140 | Translating checked code keeps the generator sound: live stack entries and windows hold pairwise distinct temporaries of the right types, none a parameter, local, result or label, and the stack ends with the types that validation computes |
| CodeSound.PackRoundTrip | wasm2c/FuncGen.h:165-193 | The kind and type of a block, packed into a label's type byte and the block record, are read back exactly |
| CodeSound.EndRestores | wasm2c/FuncGen.h:199-217 | When a block ends, outer windows and the stack below the block are as they were at its start, also when dead arms left junk behind |
| CodeSound.EndSound | wasm2c/wasm2c.c:1272-1305 | The state after `end` is the block's recorded state with the result pushed, and it is sound |
| CodeSound.ElseSound | wasm2c/wasm2c.c:1288-1292 | The state after `else` is sound and starts the arm with an empty operand stack |
| CodeSound.BeginSound | wasm2c/wasm2c.c:1248-1270 | Opening a block keeps the generator sound and pushes a label with the block's results |
| CodeSound.BrSound | wasm2c/wasm2c.c:1306-1356 | A `br` of checked code finds its operands and leaves the generator sound |
| Allocator.PushOk | wasm2c/FuncGen.h:98-122 | A push takes a temporary of the requested type, from the top window or a new one, that nothing live uses |
| Allocator.PopNOk | wasm2c/FuncGen.h:128-140 | Popping keeps the generator sound and gives the popped temporaries to the top window |
| Allocator.PushReuses | wasm2c/FuncGen.h:98-122 | A push declares a new variable exactly when the top window has no free one of the type, and otherwise takes just that one out |
| Allocator.PopNFrees | wasm2c/FuncGen.h:128-140 | All popped variables are free in the top window afterwards, in the order of the pops |
| Reachable.EveryStateSound | wasm2c/wasm2c.c:1026-1525 | The allocator invariant holds in every state of the loop, after every prefix of a valid function's opcodes |
| OnePass.DeadCode | wasm2c/wasm2c.c:1234-1305 | `unreachable_depth` returns to its value at exactly the matching bracket of arbitrarily nested dead code, which emits nothing |
| OnePass.OnePassCode | wasm2c/wasm2c.c:1026-1525 | The single pass over flat opcodes emits the structured translation |
| OnePass.DeadCodeInvisible | wasm2c/wasm2c.c:1356-1395 | Deleting everything between an unconditional transfer and its matching `else` or `end` leaves the emitted statements identical |
| OnePass.FunctionPrune | wasm2c/wasm2c.c:1381-1395 | The same for whole functions |
| Flat.FlatOnce | wasm2c/wasm2c.c:1026-1027 | Flattened code parses back to itself, whatever closes it |
| Flat.FlatDetermines | wasm2c/wasm2c.c:1026-1027 | Two pieces of code with the same opcodes are the same |
| Emitted.BinaryCorrect | wasm2c/wasm2c.c:2065-2287 | The C expression of every integer operation has the value that the specification gives, or is undefined where the instruction traps or the remainder overflows |
| Emitted.CompareCorrect | wasm2c/wasm2c.c:1878-2064 | Emitted comparisons, signed and unsigned, have the specified truth value |
| Emitted.LoadCorrect | wasm2c/wasm2c.c:1533-1697 | Emitted loads of every width read and extend the bytes that the instruction reads |
| Emitted.StoreCorrect | wasm2c/wasm2c.c:1698-1818 | Emitted stores of every width write the bytes that the instruction writes |
| Emitted.SignExtendCorrect | wasm2c/wasm2c.c:2490-2527 | A cast through a narrower signed type sign-extends |
| Numerics.LittleBytes | wasm2c/wasm2c.c:470-510 | A number read from memory has byte k of the memory as its byte k, lowest first, and nothing above its width, for all memories, addresses and widths |
| Numerics.BytesAt | wasm2c/wasm2c.c:1698-1818 | A stored number is written lowest byte first |
| Numerics.StoredIsLoaded | wasm2c/wasm2c.c:1698-1818 | Loading what was stored gives the number modulo the width of the access |
| Numerics.OthersStay | wasm2c/wasm2c.c:1698-1818 | A store changes no load of bytes that it does not write |
| Numerics.AndBits | wasm2c/wasm2c.c:2065-2287 | Conjunction works on each binary digit |
| Numerics.OrBits | wasm2c/wasm2c.c:2065-2287 | So does disjunction |
| Numerics.XorBits | wasm2c/wasm2c.c:2065-2287 | And exclusive disjunction |
| Numerics.TruncMeans | wasm2c/wasm2c.c:2111-2178 | Signed quotient times divisor plus remainder is the dividend, and the remainder is smaller than the divisor and has the dividend's sign |
| Numerics.TruncOnly | wasm2c/wasm2c.c:2111-2178 | No other quotient and remainder do that |
| Numerics.LocalsStartZero | wasm2c/wasm2c.c:1005-1018 | A declared local that a function returns at once is 0 |
| Numerics.PagesCount | wasm2c/wasm2c.c:1819-1826 | The memory size is the number of pages of 65536 bytes that make up the memory |
| Typing.StraightTyped | wasm2c/wasm2c.c:1462-1525 | The checker accepts a straight-line instruction on exactly the operands that a typing rule of the specification allows, and leaves what the rule says |
| Typing.CodeOnto | wasm2c/wasm2c.c:1026-1525 | Code that checks on some operands checks on more operands below and leaves those alone |
| Typing.BlocksTyped | wasm2c/wasm2c.c:1248-1305 | Every kind of block is accepted exactly when its bodies check behind its label |
| Typing.TransfersTyped | wasm2c/wasm2c.c:1306-1395 | Branches, branch tables and returns take what their target takes from any operand stack |
| Typing.CallTyped | wasm2c/wasm2c.c:1398-1460 | A call takes the parameters and leaves the results |
| Typing.EncodedTypes | wasm2c/wasm2c.c:1248-1270 | The encodings of block types |
| CRules.ConvMeans | wasm2c/wasm2c.c:2065-2287 | Conversion to a C integer type gives the one number of the type that is congruent modulo its size, so it is the identity exactly on the type's numbers |
| CRules.ArithMeans | wasm2c/wasm2c.c:2065-2287 | A result outside a signed C type is undefined, and any other is converted |
| CRules.CommonMeans | wasm2c/wasm2c.c:2065-2287 | Operands meet in the type that the usual arithmetic conversions give |
| CRules.JumpForgets | wasm2c/FuncGen.h:142-217 | A jump keeps the values of exactly those variables that are in scope where it lands |
| CRules.StepForgets | wasm2c/FuncGen.h:142-217 | Every jump of the C machine leaves values only to variables that are in scope where it lands |
| CRules.DeclareForgets | wasm2c/FuncGen.h:84-88 | A declaration leaves its variable without a value |
| Statements.StmtCorrect | wasm2c/wasm2c.c:1462-1525 | One emitted statement does what one straight-line instruction does to operands, locals, globals and memory |
| Limits.BranchAgreesWithEnd | wasm2c/wasm2c.c:1281-1349 | A branch to a block and falling off its end store the same results exactly when the block has at most one |
| Limits.TwoResultsSwapped | wasm2c/wasm2c.c:1335-1349 | With two results the two store in opposite orders |
| Limits.TableAgreesWithBranch | wasm2c/wasm2c.c:1360-1384 | A branch table moves what `br` would move exactly when its target takes no value |
| Limits.RemainderDefined | wasm2c/wasm2c.c:2141-2178 | The emitted signed remainder is defined exactly when the divisor is nonzero and the quotient does not overflow |
| Limits.AccessDefined | wasm2c/wasm2c.c:1533-1818 | An emitted load or store of any width is defined exactly when its address modulo 2^32 is inside the memory, so it is defined where the instruction traps exactly when the address wraps around into the memory |
| Limits.TrapsHidden | wasm2c/wasm2c.c:1533-1818 | A load or store traps exactly when it leaves the memory, and what the model calls a hidden trap is one where the emitted access is defined all the same |
| Limits.WrappedLoad | wasm2c/wasm2c.c:1533-1697 | A load at 2^32 - 1 with offset 1 traps, and the emitted expression reads address 0 |
| FuncGenerator.FuncGen.LocalAlloc | wasm2c/FuncGen.h:67-78 | Numbers a local in the growable array, as the function on values does |
| FuncGenerator.FuncGen.ReuseReset | wasm2c/FuncGen.h:94-96 | Cuts the reuse array back to the top block's base |
| FuncGenerator.FuncGen.ReuseLocal | wasm2c/FuncGen.h:98-109 | Search of the top window with swap-removal, or a new declaration |
| FuncGenerator.FuncGen.Push | wasm2c/FuncGen.h:111-122 | Stack push in place |
| FuncGenerator.FuncGen.Pop | wasm2c/FuncGen.h:128-140 | Stack pop in place, giving the local back to the window |
| FuncGenerator.FuncGen.Begin | wasm2c/FuncGen.h:149-183 | Block begin in place, with the window copy as written |
| FuncGenerator.FuncGen.CopyWindow | wasm2c/FuncGen.h:173-182 | The copy of the window after the block was pushed copies nothing |
| FuncGenerator.FuncGen.End | wasm2c/FuncGen.h:199-217 | Block end in place |
| MainLoop.Step | wasm2c/wasm2c.c:1026-1525 | One opcode, in place, emits and changes what the functions say |
| MainLoop.ReadBody | wasm2c/wasm2c.c:1026-1027 | The loop stops exactly at the function's final `end`, whatever follows, with the translation of the body |
| MainLoop.TranslateFunction | wasm2c/wasm2c.c:996-1026 | A whole function is emitted as translated, whatever opcodes follow it |
| Numerals.DigitsValue | wahelib/wahe/wahe_core.c:2520-2530 | Printed digits have the printed value, without leading zeros |
| Numerals.PrintLength | wahelib/wahe/wahe_core.c:2306 | A rewritten address has at most 20 characters, below the reserved 26 |
| Numerals.PrintedReadsBack | wahelib/wahe/wahe_core.c:2384-2400 | A printed address, hexadecimal or negative decimal, reads back from any place in a text, ending behind itself |
| Grammar.ValueMeans | wahelib/wahe/wahe_core.c:2349-2378 | Digits have positional values in their base |
| Grammar.DigitMeans | wahelib/wahe/wahe_core.c:2349-2378 | The digits of a base and what they stand for |
| Grammar.ReadNumberMeans | wahelib/wahe/wahe_core.c:2384-2400 | A number is read exactly where a hexadecimal, octal or decimal constant stands, with its value, up to its end |
| Grammar.ReadAddressMeans | wahelib/wahe/wahe_core.c:2384-2400 | An address is read exactly where a 64-bit constant stands, or a negated one up to 2^63, as its two's complement |
| Grammar.DescribeMeans | wahelib/wahe/wahe_core.c:2349-2400 | A descriptor is read exactly where a byte count, ` bytes at ` and an address follow one another |
| Grammar.NextMeans | wahelib/wahe/wahe_core.c:2339-2348 | The search stops behind the first prefix that stands before a digit, and misses none |
| Grammar.ScanMeans | wahelib/wahe/wahe_core.c:2339-2447 | Scanning lists all descriptors of the text and nothing else, and fails exactly when the prefix stands somewhere before a digit that begins no descriptor |
| Grammar.RewriteMeans | wahelib/wahe/wahe_core.c:2514-2551 | Rewriting puts the printed addresses in the places of the old ones and keeps all other text |
| Descriptors.Rescan | wahelib/wahe/wahe_core.c:2339-2447 | Scanning rewritten text finds the same descriptors in order, with the same byte counts and exactly the new addresses, and nothing else |
| Descriptors.RescanExactly | wahelib/wahe/wahe_core.c:2339-2447 | Rewriting a text with any addresses scans back to exactly the moved descriptors if and only if every address ends the text or is followed by neither a hexadecimal digit nor an `x` or `X` that one follows |
| Descriptors.GluedAddressChanges | wahelib/wahe/wahe_core.c:2514-2534 | An address followed directly by a letter reads as another address after rewriting |
| Transfer.AlignMeans | wahelib/wahe/wahe_core.c:2128-2137 | Alignment gives the least aligned size, and fails exactly when there is none |
| Transfer.ResolveMeans | wahelib/wahe/wahe_core.c:2186-2249 | A range resolves exactly when each of its bytes is in the module's address space, and its bytes stand in the host one after another |
| Transfer.ResolveEmpty | wahelib/wahe/wahe_core.c:2186-2249 | An empty range resolves wherever an address may point to, the end of the memory included |
| Transfer.PrepareMeans | wahelib/wahe/wahe_core.c:2251-2299 | A descriptor is refused exactly when it denotes nothing, or bytes in the half of the host's memory that 64-bit translated code cannot name; it is copied exactly when the destination neither shares nor reaches its bytes |
| Transfer.MeasureInside | wahelib/wahe/wahe_core.c:2139-2166 | A message that starts in linear memory is measured exactly when its terminator is there, too |
| Transfer.MeasureOutside | wahelib/wahe/wahe_core.c:2168-2184 | One that starts elsewhere is measured exactly when the module may hold host pointers, or is 32-bit translated code whose reservation and reach the message is outside of |
| Transfer.IdealTight | wahelib/wahe/wahe_core.c:2449-2470 | Beside its bytes a payload takes at most 15 bytes of the allocation |
| Transfer.ReserveMeans | wahelib/wahe/wahe_core.c:2306-2447 | The text reserves room for 26 characters for each address, or for the address if it is longer |
| Transfer.CollectMeans | wahelib/wahe/wahe_core.c:2338-2447 | The scanning loop succeeds exactly when the text scans, every descriptor can be delivered and the capacity fits; it collects exactly those descriptors |
| Transfer.PackMeans | wahelib/wahe/wahe_core.c:2449-2470 | The checked layout fails exactly when the unbounded one does not fit; payloads are aligned, disjoint, behind the text and inside the allocation |
| Relocation.TextFits | wahelib/wahe/wahe_core.c:2514-2551 | No write of the text leaves its reservation, so both late failure branches are unreachable |
| Relocation.DeliveredAddress | wahelib/wahe/wahe_core.c:2251-2299 | Each of the three deliveries gives an address that the destination resolves to the intended bytes |
| Relocation.CopyInside | wahelib/wahe/wahe_core.c:2553-2556 | Every packed payload ends at its offset, whatever the other copies do |
| Relocation.CopyOutside | wahelib/wahe/wahe_core.c:2553-2556 | Payload copies leave all other memory alone |
| Relocation.PlanSound | wahelib/wahe/wahe_core.c:2308-2470 | Any plan, for any number of descriptors, delivers the text's descriptors with a sound layout |
| Relocation.PlanRefused | wahelib/wahe/wahe_core.c:2308-2470 | A scanned message is refused only when a descriptor is undeliverable as PrepareMeans says, or the sizes overflow |
| Relocation.FinishMeans | wahelib/wahe/wahe_core.c:2472-2560 | Behind a plan, a transfer fails exactly when the destination allocates nothing or something outside its memory, or a payload's address fits no pointer |
| Relocation.TransferPreserves | wahelib/wahe/wahe_core.c:2472-2560 | After a transfer the text is in place, and every rewritten address, resolved in the destination, denotes the bytes that the original denoted in the source |
| Relocation.DeliveredReadable | wahelib/wahe/wahe_core.c:2139-2184 | The destination can measure the message that it received |
| Relocation.HopPreserves | wahelib/wahe/wahe_core.c:2301-2560 | A hop keeps text, byte counts and payloads, and the next hop may start from its result |
| Relocation.HopsPreserve | wahelib/wahe/wahe_core.c:2301-2560 | Any number of hops delivers the original text, byte counts and payloads |
| Courier.ScanMessage | wahelib/wahe/wahe_core.c:2338-2447 | The loop with the `search` cursor and the growing list |
| Courier.LayoutPayloads | wahelib/wahe/wahe_core.c:2456-2470 | The layout loop |
| Courier.WriteText | wahelib/wahe/wahe_core.c:2514-2551 | The writing loop with read and write positions leaves exactly the text and its terminator |
| Courier.CopyBehind | wahelib/wahe/wahe_core.c:2553-2556 | The payload loop |
| Courier.CopyMessage | wahelib/wahe/wahe_core.c:2301-2560 | A whole transfer ends with the prescribed result, memory and release of the block |
| ThreadProofs.StepInv | wahelib/wahe/wahe_threads.c:555-799 | Every step of every task keeps the registry invariant |
| ThreadRuns.RunInv | wahelib/wahe/wahe_threads.c:555-799 | The invariant holds in every interleaving |
| ThreadRuns.IdsNeverReissued | wahelib/wahe/wahe_threads.c:609-638 | No two creations in a run get the same ID, also when the counter wraps |
| ThreadRuns.SlotBelongsToOneId | wahelib/wahe/wahe_threads.c:555-576 | After any run, a step leaves a slot in use with its ID unless it releases it, and it is released only after its worker was joined or if it never started |
| ThreadRuns.JoinedOnce | wahelib/wahe/wahe_threads.c:700-754 | At most one join of an ID succeeds, and it returns the reply of that worker |
| ThreadRuns.WaitsAreSound | wahelib/wahe/wahe_threads.c:711-746 | In every interleaving, a waiting join has a handle, waits for a started worker, and never for its own |
| ThreadRuns.RunningWorkerKeepsResources | wahelib/wahe/wahe_threads.c:640-690 | In every interleaving, the instance, stack and input of a running worker are live |
| ThreadRuns.ReleasedExactlyOnce | wahelib/wahe/wahe_threads.c:555-576 | Once a slot is released, each resource its thread ever acquired has been released exactly once |
| ThreadRuns.ShutdownIsFinal | wahelib/wahe/wahe_threads.c:772-799 | After a shutdown returned, no slot is in use and nothing is live, whatever tasks began before or begin later |
| ThreadLives.ThreadLifecycle | wahelib/wahe/wahe_threads.c:555-754 | From any reachable state, creating a thread, its return and a join leave registry, tasks and live resources as they were but for the ID; the join hands out the reply, and each resource is released once |
| ThreadLives.FailureUndone | wahelib/wahe/wahe_threads.c:555-699 | A creation that fails after any number of acquisitions leaves everything as it was but for the ID, and releases what it had acquired once |
| ThreadLives.FailedWaitUndone | wahelib/wahe/wahe_threads.c:700-754 | A join whose wait fails leaves everything as it was |
| ThreadLives.CreateAllowed | wahelib/wahe/wahe_threads.c:609-638 | A creation is refused exactly during a shutdown, without a free slot, without IDs left, or for a caller that may not call |
| ThreadLives.JoinAllowed | wahelib/wahe/wahe_threads.c:700-728 | In every interleaving a join is refused exactly when no thread with the ID can be joined but the caller's own |
| ThreadLives.PollMeans | wahelib/wahe/wahe_threads.c:784-797 | The drain loop's look counts the slots in use and picks the ID of the last one that nobody creates or joins, 0 exactly if there is none |
| ThreadLives.DrainSelects | wahelib/wahe/wahe_threads.c:782-799 | In every interleaving a look with an unclaimed slot selects an ID that can be joined, and the loop then claims such a slot and waits |
| ThreadLives.DrainWaits | wahelib/wahe/wahe_threads.c:782-799 | A look that finds slots in use, all of them claimed, changes nothing |
| ThreadLives.ShutdownCompletes | wahelib/wahe/wahe_threads.c:772-799 | From any reachable state in which the drain loop is alone with workers that have returned, it can go on until the shutdown is over, and joins every one of them |
| Threads.DoPollSlots | wahelib/wahe/wahe_threads.c:782-799 | The drain loop returns exactly when it finds no slot in use |
| ThreadTable.Table.ClaimSlot | wahelib/wahe/wahe_threads.c:609-638 | The locked claim of a slot |
| ThreadTable.Table.ClaimJoin | wahelib/wahe/wahe_threads.c:707-728 | The locked claim of a thread to join |
| ThreadTable.Table.PollTable | wahelib/wahe/wahe_threads.c:784-797 | One locked look of the drain loop |
| ThreadTable.Table.BeginShutdown | wahelib/wahe/wahe_threads.c:772-779 | The locked start of a shutdown |
| Routes.HitMeans | wahelib/wahe/wahe_core.c:1371-1389 | The prefix loop finds a command exactly when the line is the command or continues it with a space |
| Routes.FindMeans | wahelib/wahe/wahe_core.c:1391-1407 | A lookup gives the newest answering registration below the bound, and fails exactly when there is none |
| Routes.AddValid | wahelib/wahe/wahe_core.c:1303-1314 | Additions keep the registry strictly sorted by sequence |
| Routes.RemoveValid | wahelib/wahe/wahe_core.c:1353-1368 | Removals keep it sorted and every other registration present |
| Routes.LookMeans | wahelib/wahe/wahe_core.c:2698-2747 | A look visits the newest answering registration below the bound, and ends the traversal exactly when there is none |
| Routes.TraversalComplete | wahelib/wahe/wahe_core.c:2698-2747 | With any changes between its lookups, a line's traversal goes strictly downwards, makes at most as many visits as the first visited registration's sequence number, never visits the caller's own, and misses nothing that answers and stays present |
| Routes.RegistryIsStacks | wahelib/wahe/wahe_core.c:1339-1369 | Over any history by any modules, the registry is the startup routes overlaid with one LIFO stack per module and command |
| Routes.PairRestores | wahelib/wahe/wahe_host_commands.c:402-437 | Registering and unregistering leaves every route as it was |
| Routes.PairRestoresLookups | wahelib/wahe/wahe_host_commands.c:402-437 | So every lookup answers as before |
| CommandTable.Table.Append | wahelib/wahe/wahe_core.c:1303-1314 | Appends a registration to the growable array in place |
| CommandTable.Table.CloseGap | wahelib/wahe/wahe_core.c:1362-1363 | Moves the end of the array down over one registration |
| CommandTable.Table.ChangeRuntime | wahelib/wahe/wahe_core.c:1339-1369 | Pushes or deletes an override in place |
| CommandTable.Table.Hash | wahelib/wahe/wahe_core.c:1376-1389 | The loop that fills the table of sixteen prefixes |
| CommandTable.Table.Lookup | wahelib/wahe/wahe_core.c:1391-1407 | The backward search |
| Commands.RunAccount | wahelib/wahe/wahe_core.c:2635-2764 | A command of any nesting takes no live block away, and adds its reply and the forgotten inputs, counted exactly |
| Commands.LineAccount | wahelib/wahe/wahe_core.c:2698-2747 | Superseded replies are released once, reservations never |
| Commands.OrdersAccount | wahelib/wahe/wahe_execution.c:20-126 | A chain releases each input once, and forgets exactly those whose order was run again meanwhile |
| Commands.Conserves | wahelib/README.adoc:3-12 | No borrowed result, reservation or dead block is ever released, and no borrowed result becomes a reply; the caller ends with exactly its text reply as its one new block and nobody else's blocks change, if and only if no order with an input is run again while it is being served |
| Commands.ReleaseMeans | wahelib/wahe/wahe_core.c:2735-2742 | A release faults exactly when there is something to release and it is no live block |
| Replies.ReplyMeans | wahelib/wahe/wahe_core.c:2635-2764 | What a command answers, from the command alone: a processor's reply if sent, made and copied, or what the last reached line with something to say says, an owned text, a reservation or nothing |
| Replies.LineReply | wahelib/wahe/wahe_core.c:2698-2747 | A line's first attempt that is not declined decides the reply and whether the command returns |
| Replies.ChainReturns | wahelib/wahe/wahe_execution.c:20-126 | A chain returns what its last order returned, and nothing when that order's input failed |
| Replies.CallsAreSafe | wahelib/wahe/wahe_execution.c:100-126 | Every function that a command or its callbacks call gets no input or a block of its own module that has not been released, and the calls are those that the command prescribes, in order |
| Commands.ReentryForgetsInput | wahelib/wahe/wahe_execution.c:116-124 | A callback that runs its own chain makes the outer run forget the input it sent |
| CommandRunner.Memory.RunCommand | wahelib/wahe/wahe_core.c:2635-2764 | The loop over the lines of a message |
| CommandRunner.Memory.RunOneLine | wahelib/wahe/wahe_core.c:2698-2747 | The loop over the registrations that answer a line |
| CommandRunner.Memory.ExecuteChain | wahelib/wahe/wahe_execution.c:20-126 | The loop over the orders of a chain |
| Leb128.StreamUnsignedReads | wasm2c/InputStream.h:76-118 | The stream's unsigned readers accept any encoding, padded or not, exactly when it is not too long for the width, and return its number exactly when that fits the width |
| Leb128.StreamSignedReads | wasm2c/InputStream.h:89-134 | The signed readers accept the same lengths and return the two's complement pattern of the number |
| Leb128.FileUnsignedReads | wahelib/rl_utils/endian.c:10-30 | The file reader accepts any encoding exactly up to ten bytes, and returns its number exactly when that is below 2^64 |
| Leb128.FileSignedReads | wahelib/rl_utils/endian.c:10-30 | Its signed mode is defined exactly up to nine bytes of a negative number and ten of any other, and then returns the pattern |
| Leb128.StreamUnsignedRoundTrip | wasm2c/InputStream.h:76-118 | The stream's unsigned readers return every number of 32 or 64 bits that was written, consuming exactly its bytes |
| Leb128.StreamSignedRoundTrip | wasm2c/InputStream.h:89-134 | So do the signed readers, for every two's complement number of their width |
| Leb128.FileUnsignedRoundTrip | wahelib/rl_utils/endian.c:10-30 | The file reader returns every unsigned 64-bit number |
| Leb128.FileSignedRoundTrip | wahelib/rl_utils/endian.c:10-30 | Its signed mode is defined, and right, exactly for written numbers from -2^62 up |
| Leb128.FileAgrees | wahelib/rl_utils/endian.c:10-30 | On any input that the stream accepts, the file reader agrees or shifts by 64 or more |
| Leb128.UnsignedReadsBack | wahelib/rl_utils/endian.c:38-51 | The unsigned writer's bytes are well-formed and stand for the number |
| Leb128.SignedReadsBack | wahelib/rl_utils/endian.c:53-68 | So are the signed writer's |
| Leb128.UnsignedShortest | wahelib/rl_utils/endian.c:38-51 | No encoding of a number is shorter than the written one |
| Leb128.SignedShortest | wahelib/rl_utils/endian.c:53-68 | The same for signed numbers |
| ByteStream.Stream.WriteUnsigned | wahelib/rl_utils/endian.c:38-51 | The unsigned writing loop |
| ByteStream.Stream.WriteSigned | wahelib/rl_utils/endian.c:53-68 | The signed writing loop with its stop condition |
| ByteStream.Stream.ReadNumber | wasm2c/InputStream.h:76-134 | The stream's reading loops |
| ByteStream.Stream.ReadFileNumber | wahelib/rl_utils/endian.c:10-30 | The file reading loop |
| ByteStream.Stream.Skip | wahelib/rl_utils/io_override.c:73-91 | A relative seek moves forwards, or fails and goes back to the start |
| Sections.JumpFinds | wahelib/wasm/wasm_binary_parser.c:20-43 | In any module with a section, whatever encoding its sizes have, the search stops before the content of the first section with the number, or reports none |
| Sections.PaddedSize | wahelib/rl_utils/endian.c:10-30 | The module format covers a size padded to two bytes, which no writer of shortest encodings gives |
| Sections.ImportsRead | wahelib/wasm/wasm_binary_parser.c:106-145 | The import loop finds the first memory among imports of every kind, whatever encoding their numbers have |
| Sections.MemoryInfoReads | wahelib/wasm/wasm_binary_parser.c:95-156 | For every well-formed module with a section, whatever encoding its numbers have, the info is the first memory's limits and flags, imported before defined, with page counts modulo 2^32 and so right exactly when they are below; it fails exactly when there is no memory |
| Sections.OnlyPassiveReads | wahelib/wasm/wasm_binary_parser.c:174-189 | For every such module the passive-data test is true exactly when every segment is passive |
| Sections.NoSections | wahelib/wasm/wasm_binary_parser.c:20-43 | A module without sections is read past its end |
| Sections.SearchesAgree | wasm2c/InputStream.h:149-160 | The compiler's section search agrees with the parser's on all sections whose sizes, in whatever encoding, are below 4 GiB and at most five bytes long |
| SectionParser.JumpToSection | wahelib/wasm/wasm_binary_parser.c:20-43 | The section loop on a file cursor |
| SectionParser.SkipToSection | wasm2c/InputStream.h:149-160 | The compiler's section loop |
| SectionParser.ReadMemoryInfo | wahelib/wasm/wasm_binary_parser.c:95-156 | The memory query on a file cursor |
| SectionParser.HasOnlyPassiveData | wahelib/wasm/wasm_binary_parser.c:174-189 | The passive-data query on a file cursor |
| Utf.RoundTrip8 | wahelib/rl_utils/fopen_utf8.c:134-153 | Every valid UTF-8 text becomes valid UTF-16 and comes back unchanged |
| Utf.RoundTrip16 | wahelib/rl_utils/misc.c:133-152 | Every valid UTF-16 text becomes valid UTF-8 and comes back unchanged |
| Utf.Print8Reads | wahelib/rl_utils/misc.c:24-67 | A printed character reads back with its size |
| Utf.SyntaxPrints | wahelib/rl_utils/fopen_utf8.c:3-77 | A character that the grammar of RFC 3629 allows is the one that would be printed for it |
| Utf.Form8 | wahelib/rl_utils/misc.c:24-67 | The bytes printed for a character carry its bits as RFC 3629 lays them out |
| Utf.Form16 | wahelib/rl_utils/fopen_utf8.c:87-112 | The units printed for a character carry its bits as RFC 2781 lays them out |
| Utf.Size8Means | wahelib/rl_utils/fopen_utf8.c:3-40 | The size tells whole characters of each length, continuation bytes and broken leads apart |
| Utf.CountsMean | wahelib/rl_utils/fopen_utf8.c:79-85 | The counts of the measuring passes are those of what is printed, and 0 for a number that is no character |
| Utf.To16Text | wahelib/rl_utils/fopen_utf8.c:134-153 | The UTF-8 text of any list of characters is converted to the UTF-16 text of the same characters |
| Utf.To8Text | wahelib/rl_utils/misc.c:133-152 | And back |
| UtfBuffers.Length16 | wahelib/rl_utils/fopen_utf8.c:118-131 | The measuring pass counts exactly the units |
| UtfBuffers.Utf8ToUtf16 | wahelib/rl_utils/fopen_utf8.c:134-153 | Every write, with its intermediate terminator, fits the measured buffer, which ends up as the converted text |
| UtfBuffers.Length8 | wahelib/rl_utils/misc.c:116-129 | The measuring pass counts exactly the bytes |
| UtfBuffers.Utf16ToUtf8 | wahelib/rl_utils/misc.c:133-152 | The same in the other direction |

## Left out

Compiler:

- Floating point, SIMD, reference types, tables, `memory.grow`, bulk-memory and other prefixed opcodes, `clz`, `ctz` and `popcnt`.
- `call_indirect` and imported functions: the first pops its operand also in dead code, the second calls code outside the model.
- Block parameters, whose push prints a malformed assignment, and blocks or functions with more than one result; `Limits` gives the exact conditions for results and branch tables.
- Correct.CompilerCorrect: says nothing about what the C program does where the source traps at an access whose address wraps around modulo 2^32 into the memory (`Limits.AccessDefined` has the exact condition, and Assignment.NeverReadsUnassigned still holds there). The remainder of the most negative number by -1 is 0 in the specification and undefined in the emitted C (`Limits.RemainderDefined`).
- Decoding of opcodes and their immediates: the passes take decoded opcodes, and `Leb128` has the number readers.
- Text formatting of the emitted C, unused-parameter casts, and the wrap of the 32-bit counters of locals; labels and variables share one counter that is unbounded here.
- Failure of `realloc` inside the generator, which ends the compiler.

Relocation:

- Relocation.TransferPreserves: the destination's memory may grow in place while it allocates, but not move, and memory sizes stay below 2^63.
- Failure to allocate the host's own list of descriptors, and message text as bytes in host memory while it is being scanned: the text is a value here.
- A linear memory and the reservation of a native module are never the same object (`Relocation.Apart`, a part of what a hop assumes).
- Bit masks of the alignment and of the tagged address are written as arithmetic.

Threads:

- Deadlock freedom: two workers may join each other, which the code does not prevent.
- The checks before the first locked region of a creation, stack filling, and the copies of the registry for the Wasmtime and WAMR runtimes.
- Fairness: ThreadLives.ShutdownCompletes shows that a drain loop can always finish, not that a scheduler lets it, and workers may run forever.

Routing and ownership:

- Hash collisions: a hash is the text it was computed from. Sequence numbers are unbounded; a lookup starts below the largest 64-bit one.
- The parsing of individual host commands, and of the trimming before a runtime registration; `Load raw file` data, whose buffer outlives its reply.
- Commands.Conserves: blocks have identities that are never reused, and one thread runs the commands.

Codecs:

- Malformed sections: the buffer's seek goes back to the start of the file and may then be read again without end; the model stops there. A name or section whose length does not fit a signed offset is malformed here.
- The sections that the two queries do not look into, custom-section names, and `wasmbin_read_stack_pointer`.
- Utf.RoundTrip8: text that is not valid UTF-8 or UTF-16 is not part of this model; a lead byte without its continuation moves the program's index backwards.
- Little-endian reads and the plain byte readers of the input stream.

# A verified model of the lalrpop_test toolchain

The repository is a small compiler toolchain. It has:

- a reference Ackermann script;
- a bytecode stack machine (`Vm`) with a work guard;
- an assembler that lowers assembly statements to bytecode in two passes;
- a code generator that lowers the syntax tree to assembly while tracking the operand-stack depth at compile time;
- a tree-walking evaluator;
- the syntax tree's `Debug` printers and the identifier-interning helper `get_dedup`.

This project models each of these pieces in Dafny, one module per source file:

| module | file | source |
|---|---|---|
| `Ackermann` | ackermann.dfy | data/test_ack.py |
| `RustInt` | rustint.dfy | Rust's truncating division and `as i16` / `as u16` casts, shared by the Rust modules |
| `Bytecode` | bytecode.dfy | src/bytecode.rs |
| `Asm` | asm.dfy | src/asm.rs |
| `Compiler` | compiler.dfy | src/bin/compiler.rs |
| `Eval` | eval.dfy | src/eval.rs |
| `Ast` | ast.dfy | src/ast.rs |
| `Wrappers` | wrappers.dfy | `Option` and `Result` |

Code that works by changing state is modelled as classes with `modifies` clauses:

- the `Vm` and its `exec` loop;
- `ScopeStack` and `CodeGen`;
- the `Evaluator`;
- the `HandleMap` behind `get_dedup`.

Each state-changing method is proved equal to a specification function on values:

- `Step` and `Run` for the machine;
- `FramePushed`, `LocalsPopped`, `Bound`, `Resolved`, `GenExpr` and `GenStmt` for the code generator;
- `Exec` for the evaluator;
- `Intern` for `get_dedup`.

The properties are lemmas about those functions. The assembler's loops (`label_locations`, `extract_constants` and the emit loop) are methods proved equal to the recursive functions `Locate`, `Extracted` and `EmitFrom`.

The files are older and newer versions of each other, and each module keeps the shapes its own file uses:

- the assembler emits `PushConst`/`PushStack` without an operand, unlike the machine's;
- the compiler's jumps carry an optional label and it has a `Call` statement;
- the evaluator handles 4 of the 12 opcodes; the others are outside its precondition.

Every panic of the source becomes an error value: an `Err`, an `Option` error, or a `Panic` of the machine. The panic ends the computation that raised it. The in-place methods report it, and they promise nothing about the object they leave behind, which Rust's unwinding abandons as well. Integers are unbounded. Where the source casts, the casts are written out (`AsI16`, `AsU16`), and so is Rust's division, which truncates toward zero.

## Model

| member | source | states |
|---|---|---|
| Ackermann.Ack | data/test_ack.py:1-7 | the script's `ack`, case for case; it terminates on the lexicographic pair (n, m), and its three equations are the lemmas below |
| Ackermann.AckZero | data/test_ack.py:2-3 | ack(0, m) = m + 1 |
| Ackermann.AckSucc | data/test_ack.py:4-5 | for n > 0, ack(n, 0) = ack(n - 1, 1) |
| Ackermann.AckNested | data/test_ack.py:6-7 | for n, m > 0, ack(n, m) = ack(n - 1, ack(n, m - 1)); the definition terminates on the lexicographic pair (n, m) |
| Ackermann.AckOne | data/test_ack.py:1-7 | closed form ack(1, m) = m + 2 |
| Ackermann.AckTwo | data/test_ack.py:1-7 | closed form ack(2, m) = 2m + 3 |
| Ackermann.AckThree | data/test_ack.py:1-7 | closed form ack(3, m) = 2^(m+3) - 3 |
| Ackermann.AckThreeEight | data/test_ack.py:9-11 | Ack(3, 8) = 2045, the value the script's call ack(3, 8) prints when the host allows about 2047 nested calls |
| Ackermann.AckGreater | data/test_ack.py:1-7 | ack(n, m) > m for all naturals |
| Ackermann.AckMonotoneM | data/test_ack.py:1-7 | ack is strictly increasing in its second argument |
| Ackermann.AckStepM | data/test_ack.py:1-7 | one step in the second argument raises ack: ack(n, m) < ack(n, m + 1) |
| Ackermann.AckMonotoneN | data/test_ack.py:1-7 | ack is strictly increasing in its first argument |
| Ackermann.AckIncreasingN | data/test_ack.py:1-7 | Ack(n1, m) < Ack(n2, m) for every n1 < n2 |
| Ackermann.AckDiagonal | data/test_ack.py:1-7 | ack(n + 1, m) >= ack(n, m + 1), the step used for monotonicity in the first argument |
| Ackermann.Evaluate | data/test_ack.py:1-7 | an explicit-stack evaluation with a bound on frame resolutions returns exactly ack(n, m) when the bound suffices, and reports exhaustion exactly when it does not |
| Ackermann.SpotValues | data/test_ack.py:1-7 | ack(0, 0) = 1, ack(2, 2) = 7, ack(4, 0) = 13 |
| RustInt.TruncDiv | src/bytecode.rs:52 | Rust's `/`: the remainder a - q*b is smaller than b in magnitude and has the sign of a (or is zero) |
| RustInt.AsI16 | src/asm.rs:101 | `as i16` keeps the value modulo 2^16 and is the identity on the i16 range |
| RustInt.AsU16 | src/asm.rs:136 | `as u16` keeps the value modulo 2^16 and is the identity on the u16 range |
| Bytecode.FromU32 | src/bytecode.rs:8-16 | `From<u32>`: bytes 2, 1 and 0 of the value, most significant first; its inverse on values below 2^24 is `IntoU32` |
| Bytecode.IntoU32 | src/bytecode.rs:18-22 | a decoded Uint24 is below 2^24, and encoding it again gives back the same three bytes (big-endian) |
| Bytecode.Uint24RoundTrip | src/bytecode.rs:8-22 | into(from(v)) = v mod 2^24, hence = v for v <= 0xFFFFFF |
| Bytecode.Uint24TestValues | src/bytecode.rs:476-497 | 10, 0xAABBCC, 0xFF, 0xFF00, 0xFF0000 and 0xFFFFFF survive the round trip, as `int24` checks |
| Bytecode.BoolToI64 | src/bytecode.rs:38-44 | the result is 0 or 1, and 1 exactly for true |
| Bytecode.ArithOp.Eval | src/bytecode.rs:46-60 | the comparison and logical operators return only 0 or 1 |
| Bytecode.BooleanOperators | src/bytecode.rs:46-60 | Or/And treat any nonzero operand as true; each comparison returns 1 exactly when it holds; Equal/NotEqual and LessThan/reversed LessEqual are complementary |
| Bytecode.DivisionTruncates | src/bytecode.rs:52 | Div rounds toward zero for every sign combination (7/2, -7/2, 7/-2, -7/-2) |
| Bytecode.Slot | src/bytecode.rs:159-174 | `peek_at`/`peek_at_mut` address a slot exactly when 0 <= offs < len, and that slot is len - 1 - offs |
| Bytecode.Step | src/bytecode.rs:186-248 | one dispatch keeps code, constants and counters; it halts exactly on Break, and a halt leaves the machine as it was |
| Bytecode.Fetch | src/bytecode.rs:176-185 | one loop turn counts the fetch and goes on only within max_ops; it returns only when ip left the code, the guard tripped or ip is on a Break |
| Bytecode.Run | src/bytecode.rs:175-250 | the `exec` loop with a work guard: `Fetch` turns repeated until one returns or panics; it terminates because every turn that goes on uses up one op of max_ops |
| Bytecode.RunStops | src/bytecode.rs:175-250 | when `exec` returns, ip is past the code, num_ops exceeds max_ops, or ip rests on a Break; code, constants and the guard are unchanged and num_ops lies between its start value and max_ops + 1 |
| Bytecode.ArithStep | src/bytecode.rs:191-195 | Arith pops b then a and pushes a `op` b: the stack shrinks by one, deeper elements are unchanged, ip advances by one |
| Bytecode.JmpStep | src/bytecode.rs:201-221 | Jmp pops dst (and a condition for Zero/NonZero); taken, ip becomes ip + dst or the machine panics when that lies outside the code; not taken, ip advances by one |
| Bytecode.MoveStep | src/bytecode.rs:238-242 | Move pops an offset, then a value, and overwrites the slot offs below the new top, or panics when there is none |
| Bytecode.PopTopStep | src/bytecode.rs:232-237 | Pop(Top) pops a count k and then exactly k more values (none when k <= 0), or panics when fewer remain |
| Bytecode.RunThrough | src/bytecode.rs:175-250 | a fetch within the guard that neither stops nor faults continues the loop from the stepped machine |
| Bytecode.RunAtEnd | src/bytecode.rs:176 | once ip has left the code, `exec` returns at once |
| Bytecode.ArithBlock | src/bytecode.rs:191-196 | `push a; push b; arith op` leaves a `op` b on the stack, three instructions and three counts later |
| Bytecode.BlockCode | src/bytecode.rs:310-451 | a program of k push-push-arith blocks has 3k instructions |
| Bytecode.BlockAt | src/bytecode.rs:310-451 | block k occupies instructions 3k, 3k + 1 and 3k + 2 |
| Bytecode.Results | src/bytecode.rs:310-451 | the values the blocks leave are exactly each block's a `op` b, in order |
| Bytecode.RunBlocks | src/bytecode.rs:310-451 | running the blocks from block k onward ends with every block's result on the stack, ip at the end and 3k counts |
| Bytecode.RunNextBlock | src/bytecode.rs:310-451 | running block k adds its result to the stack |
| Bytecode.BlockProgram | src/bytecode.rs:310-451 | a freshly loaded block program stops with exactly the blocks' results on the stack and ip at the end; the op count ends at exactly the guard, so the guard never trips and the run is the one `exec(None)` makes |
| Bytecode.ArithOpsTest | src/bytecode.rs:310-336 | `arith_ops` leaves 3, 1, 12, 2 bottom to top; the guard, set to the program length, is never passed |
| Bytecode.ArithOpsResults | src/bytecode.rs:310-336 | the values of the `arith_ops` blocks are 3, 1, 12, 2 |
| Bytecode.ArithEqTest | src/bytecode.rs:337-364 | `arith_eq` leaves 0, 1, 1, 0; the guard, set to the program length, is never passed |
| Bytecode.ArithEqResults | src/bytecode.rs:337-364 | the values of the `arith_eq` blocks are 0, 1, 1, 0 |
| Bytecode.ArithRelTest | src/bytecode.rs:365-402 | `arith_rel` leaves 1, 0, 0, 1, 1, 0; the guard, set to the program length, is never passed |
| Bytecode.ArithRelResults | src/bytecode.rs:365-402 | the values of the `arith_rel` blocks are 1, 0, 0, 1, 1, 0 |
| Bytecode.ArithBoolTest | src/bytecode.rs:403-451 | `arith_bool` leaves the truth tables of And then Or: 0, 0, 0, 1, 0, 1, 1, 1; the guard, set to the program length, is never passed |
| Bytecode.ArithBoolResults | src/bytecode.rs:403-451 | the values of the `arith_bool` blocks are 0, 0, 0, 1, 0, 1, 1, 1 |
| Bytecode.WorkGuardTest | src/bytecode.rs:178-184 | with max_ops = 2, the loop stops at the third fetch: num_ops = 3, ip = 2, stack [1, 2], the Arith not executed |
| Bytecode.Vm.constructor | src/bytecode.rs:130-139 | `Vm::new`: empty constants, stack and code, ip and num_ops zero, no guard |
| Bytecode.Vm.FromProgram | src/bytecode.rs:140-149 | `from_program` takes the program's constants and code; `Program::new` (src/bytecode.rs:103-108) is `Program([], [])` |
| Bytecode.Vm.Push | src/bytecode.rs:150-152 | appends the value to the stack and changes nothing else |
| Bytecode.Vm.Pop | src/bytecode.rs:153-155 | returns and removes the top value, and fails exactly on an empty stack |
| Bytecode.Vm.Peek | src/bytecode.rs:156-158 | returns the top value, and fails exactly on an empty stack |
| Bytecode.Vm.PeekAt | src/bytecode.rs:159-167 | returns stack[len-1-offs] exactly when 0 <= offs < len, fails otherwise |
| Bytecode.Vm.PeekAtMut | src/bytecode.rs:168-174 | the slot returned is the one `peek_at` reads |
| Bytecode.Vm.PopMany | src/bytecode.rs:232-237 | removes k values (none when k <= 0), failing exactly when fewer than k are there |
| Bytecode.Vm.ExecOp | src/bytecode.rs:186-247 | one in-place dispatch does what `Step` says, including each panic |
| Bytecode.Vm.ExecPush | src/bytecode.rs:187-200 | the four push instructions in place agree with `Step` |
| Bytecode.Vm.ExecArith | src/bytecode.rs:191-195 | Arith in place agrees with `Step` |
| Bytecode.Vm.ExecJmp | src/bytecode.rs:201-221 | Jmp in place agrees with `Step` |
| Bytecode.Vm.ExecOutput | src/bytecode.rs:222-228 | Output in place agrees with `Step` |
| Bytecode.Vm.ExecPop | src/bytecode.rs:229-237 | Pop(One) and Pop(Top) in place agree with `Step` |
| Bytecode.Vm.ExecMove | src/bytecode.rs:238-242 | Move in place agrees with `Step` |
| Bytecode.Vm.Exec | src/bytecode.rs:175-250 | the `exec` loop in place ends in the machine `Run` describes, or in the panic it describes |
| Asm.NumOps | src/asm.rs:87-98 | `num_ops`: 0 for a label and for Pop(0); 1 for Arith, Output, Noop, Pop(1) and a PushInline up to 0xFFFFFF; 2 for every other statement; `EmitOps` proves that `emit` appends exactly this many |
| Asm.SizeAppend | src/asm.rs:159-170 | the size of a concatenation is the sum of the sizes |
| Asm.SizeNext | src/asm.rs:159-170 | one more statement adds its `num_ops` to the running address |
| Asm.FirstIndex | src/asm.rs:106-109 | `position`: None exactly when the value is absent, otherwise its first index |
| Asm.WithOperand | src/asm.rs:116-152 | an operand above 0x7FFF is refused; otherwise a PushImmediate of the operand (as i16) then the op |
| Asm.EmitPushInline | src/asm.rs:101-115 | v <= 0x7FFF gives one PushImmediate(v as i16), which is v for v >= -0x8000; 0x7FFF < v <= 0xFFFFFF gives one PushImmediate24 decoding to v; larger v gives PushImmediate(first index of v in the pool) then PushConst, and fails exactly when v is not among the pool's first 0x8000 entries |
| Asm.EmitJmp | src/asm.rs:130-134 | fails exactly on an unknown label; otherwise PushImmediate(labels[l] - p - 1) then Jmp, so that p + 1 + dst = labels[l] when the distance fits 16 bits |
| Asm.EmitPop | src/asm.rs:137-145 | Pop(0) emits nothing and Pop(1) emits Pop(One); other counts up to 0x7FFF emit PushImmediate(n as i16), which is n for n >= -0x8000, then Pop(Top); counts above 0x7FFF are refused |
| Asm.EmitOps | src/asm.rs:87-156 | every statement `emit` accepts appends exactly `num_ops` ops; Label emits nothing, Arith its op, Output an Output on the channel as u16 |
| Asm.Emit | src/asm.rs:99-156 | `emit` in place appends exactly the statement's ops, or panics with nothing appended |
| Asm.Position | src/asm.rs:106-109 | the linear search returns the first index of the value |
| Asm.FirstIndexIsFirst | src/asm.rs:106-109 | an index holding the value with no earlier occurrence is what the search returns |
| Asm.Locate | src/asm.rs:159-170 | the `label_locations` loop from a given map and address: each label is mapped to the running address, a later occurrence overwriting an earlier one, and the address advances by `num_ops` |
| Asm.LabelLocations | src/asm.rs:159-170 | the loop computes `Locate`: each label mapped to the size of the statements before its last occurrence |
| Asm.LocateDomain | src/asm.rs:159-170 | a name is mapped exactly when it labels some statement |
| Asm.LocateLast | src/asm.rs:159-170 | a label's address is the total `num_ops` of the statements before its last occurrence |
| Asm.LocateKeeps | src/asm.rs:159-170 | a label that does not occur in the remaining statements keeps the address already recorded |
| Asm.Extracted | src/asm.rs:172-183 | the `extract_constants` loop: each PushInline value above 0xFFFFFF not yet in the pool is appended, in statement order |
| Asm.ExtractConstants | src/asm.rs:172-183 | the loop computes `Extracted` |
| Asm.ExtractedExtends | src/asm.rs:172-183 | existing entries stay in place; every new entry is a PushInline value above 0xFFFFFF that was not there; no duplicates are introduced |
| Asm.ExtractedComplete | src/asm.rs:172-183 | every PushInline value above 0xFFFFFF ends up in the pool |
| Asm.ExtractedAppend | src/asm.rs:172-183 | statements are processed in order, so entries appear in order of first occurrence |
| Asm.ExtractedConstFound | src/asm.rs:172-183 | after `extract_constants`, the "missing const" lookup of `emit` succeeds, and with at most 0x8000 entries no wide literal is refused |
| Asm.ExtractedLength | src/asm.rs:172-183 | the pool grows by at most one entry per statement |
| Asm.EmitFrom | src/asm.rs:266-268 | the emit loop over the statements, in order; the first statement `emit` refuses ends it with that error |
| Asm.EmitAll | src/asm.rs:266-268 | the loop over the statements computes `EmitFrom`: each statement emitted in order, the first panic ending it |
| Asm.EmitFromSize | src/asm.rs:87-156 | the output only grows, by exactly the total `num_ops` of the statements |
| Asm.EmitFromPlaces | src/asm.rs:87-170 | statement k's ops sit at the address given by the size of the statements before it |
| Asm.LabelAddressesNextStmt | src/asm.rs:159-268 | after the three passes, `bc[labels[l]]` is the first op that the statement after l's last occurrence emits, whenever that statement emits any op |
| Asm.LabelAddressesNextOp | src/asm.rs:259-301 | the case `asm_labels` asserts: when the statement after label l is a PushInline of a value that fits 16 bits, `bc[labels[l]]` is the PushImmediate of that value |
| Asm.JumpReachesLabel | src/asm.rs:130-133 | a Jmp emitted at address p pushes a distance at p and the Jmp op at p + 1, and p + 1 + distance = labels[l], which is where the VM's `ip + dst` lands (src/bytecode.rs:211) |
| Asm.EmitFromOk | src/asm.rs:99-156 | a list of statements each accepted by `emit` is emitted without panic |
| Asm.Hops | src/asm.rs:211-258 | the `asm_labels` program is a sequence of four-statement hops |
| Asm.HopsAccepted | src/asm.rs:259-268 | the hop programs pass all three passes without a panic |
| Asm.HopLands | src/asm.rs:259-301 | each hop's label addresses the PushImmediate of the value after it |
| Asm.LabelsTestWellFormed | src/asm.rs:211-258 | the nine hops of `asm_labels` meet the hop conditions |
| Asm.LabelsTest | src/asm.rs:211-303 | the eight assertions of `asm_labels` hold on the bytecode with its trailing Noop |
| Ast.NatToString | src/ast.rs:56 | a decimal numeral: digits only, no leading zero, a single digit exactly below 10 |
| Ast.NatToStringRoundTrip | src/ast.rs:56 | reading the numeral back gives the number |
| Ast.NatToStringInjective | src/ast.rs:56 | different numbers print differently |
| Ast.IntToString | src/ast.rs:56 | `{:?}` of an i64: a minus sign exactly for negatives, followed by the numeral of the magnitude |
| Ast.OpcodeSymbol | src/ast.rs:64-82 | each opcode prints as a fixed symbol of one to three characters |
| Ast.OpcodeSymbolInjective | src/ast.rs:64-82 | no two opcodes print alike |
| Ast.Show | src/ast.rs:52-62 | only an operation starts with "(" and every operation ends with ")" |
| Ast.ShowItems | src/main.rs:62-72 | the items of `{:?}` of a `Vec<Expr>`: each expression's rendering, separated by ", " |
| Ast.ShowList | src/ast.rs:52-62 | a list prints between "[" and "]" |
| Ast.RenderMissingOperand | src/main.rs:59-62 | Op(Op(22, Mul, Error), Add, 3) in a list renders as "[((22 * error) + 3)]" |
| Ast.RenderTwoExpressions | src/main.rs:64-67 | the two parsed expressions render as "[((22 * 44) + 66), (error * 3)]" |
| Ast.RenderBothMissing | src/main.rs:69-72 | Op(Error, Mul, Error) renders as "[(error * error)]" |
| Ast.FindSlot | src/ast.rs:18 | `find_handle`'s search: None exactly when absent, otherwise the first slot holding the item |
| Ast.Intern | src/ast.rs:16-24 | `get_dedup` on the items: an existing item leaves the table unchanged; a new one is appended in a fresh slot; the handle addresses the item; a table without duplicates stays so |
| Ast.InternIdempotent | src/ast.rs:16-24 | interning an item again returns the same handle and leaves the table unchanged |
| Ast.InternSeparates | src/ast.rs:16-24 | different items get different handles, each addressing its own item |
| Ast.HandleMap.Get | src/ast.rs:93-94 | `get` returns the item of a handle in range and None otherwise |
| Ast.HandleMap.FindHandle | src/ast.rs:18 | finds exactly the first slot holding the item, and None when absent |
| Ast.HandleMap.Insert | src/ast.rs:21 | appends the item and returns its new slot |
| Ast.HandleMap.GetDedup | src/ast.rs:16-24 | in place, does exactly what `Intern` says, and the returned handle reads back the item |
| Ast.HandleMap.constructor | src/ast.rs:86 | `HandleMap::new` starts with no items |
| Ast.HandyTest | src/ast.rs:84-95 | `test_handy`: "hello" twice shares a handle, "blub" gets another, and both read back |
| Eval.Exec | src/eval.rs:18-49 | `execute` on a value state (environment and printed lines): LetBinding binds, Print prints each value, Block runs its statements, IfElse prints the condition and runs the branch; the first panic ends it |
| Eval.ExecAll | src/eval.rs:30-34 | the loop of a Block: each statement starts from the state the previous one left |
| Eval.PrintAll | src/eval.rs:25-29 | the loop of a Print: evaluate, print the line, next |
| Eval.EvalExpr | src/eval.rs:50-65 | EnvLoad returns the bound value and fails exactly on an unbound identifier; a failing left operand is the failure reported |
| Eval.Combine | src/eval.rs:57-62 | + - * / on the operands; division truncates and fails exactly on a zero divisor |
| Eval.EvalReadsOnlyFreeIdents | src/eval.rs:50-65 | `eval` depends only on the bindings of the identifiers it loads |
| Eval.LetBindsOnlyItsIdent | src/eval.rs:20-24 | LetBinding succeeds exactly when its expression evaluates, binds or overwrites only its identifier, and prints nothing |
| Eval.IfElseChoosesBranch | src/eval.rs:35-44 | after the condition's line, the if-branch runs exactly when the value is nonzero, otherwise the else-branch if present, else nothing |
| Eval.ExecAllAppend | src/eval.rs:30-34 | a Block runs its statements in order, each seeing the state the previous left |
| Eval.PrintKeepsEnv | src/eval.rs:25-29 | Print leaves the environment unchanged and prints one line per expression, its value, in order |
| Eval.ExecKeepsBindings | src/eval.rs:18-49 | no statement removes a binding |
| Eval.ExecAllKeepsBindings | src/eval.rs:30-34 | no statement list removes a binding |
| Eval.Evaluator.constructor | src/eval.rs:11-16 | `Evaluator::new` starts with an empty environment |
| Eval.Evaluator.Execute | src/eval.rs:18-49 | `execute` in place ends in the state `Exec` describes, or reports its panic |
| Eval.LetFortyTwo | src/main.rs:30 | "let a = 41 + 1" binds a to 42 |
| Eval.PrintThree | src/main.rs:30 | "print 10 * 10, 123 * 0b101, a" prints 100, 615, 42 |
| Eval.LetThenPrint | src/main.rs:26-39 | the first program of `test1` binds a to 42 and prints 100, 615, 42 |
| Eval.LetThenIfElse | src/main.rs:41-51 | the second program takes the if-branch and prints 100 |
| Eval.MainTest | src/main.rs:21-52 | `test1`, both programs on one evaluator, prints 100, 615, 42, the condition 42 and 100 |
| Compiler.FramePushed | src/bin/compiler.rs:38-41 | `push_frame` adds a frame with no bindings that starts at the enclosing stack top, and fails only with no frame |
| Compiler.FramePopped | src/bin/compiler.rs:42-48 | `pop_frame` removes the innermost frame and returns its growth; it fails exactly when no frame would remain or the frame shrank |
| Compiler.LocalPushed | src/bin/compiler.rs:63-68 | `push_local`: the innermost stack top raised by one; fails only with no frame |
| Compiler.LocalsPopped | src/bin/compiler.rs:69-79 | `pop_local(num)` lowers only the innermost stack top by num, and fails exactly when that would fall below the latest binding |
| Compiler.Bound | src/bin/compiler.rs:49-62 | `add_binding` fails exactly on an empty stack; otherwise it binds the identifier to slot stack_top - 1 and makes it the latest binding, changing nothing else |
| Compiler.Lookup | src/bin/compiler.rs:82-94 | the slot of the innermost frame's binding of the identifier, searching outward; None when no frame binds it |
| Compiler.Resolved | src/bin/compiler.rs:80-96 | `resolve`: None exactly when unbound; otherwise top - pos - 1 for the innermost binding's slot pos, failing when pos >= top |
| Compiler.PushThenPopFrame | src/bin/compiler.rs:38-48 | popping a frame just pushed restores the frames with zero growth |
| Compiler.PushThenPopLocals | src/bin/compiler.rs:63-79 | popping num locals just pushed restores the frames |
| Compiler.LookupInnermost | src/bin/compiler.rs:82-94 | inner frames shadow outer ones |
| Compiler.LookupUnbound | src/bin/compiler.rs:95 | the search finds nothing exactly when no frame binds the identifier |
| Compiler.BindingResolvesToTop | src/bin/compiler.rs:49-96 | right after `add_binding`, the identifier resolves to offset 0 |
| Compiler.Allocated | src/bin/compiler.rs:115-120 | `alloc_label` returns the template followed by the numeral of its counter, and increments that counter only |
| Compiler.LabelSplits | src/bin/compiler.rs:115-120 | a digit-free template followed by a numeral determines both |
| Compiler.LabelsNeverRepeat | src/bin/compiler.rs:115-120 | once a template's counter has moved on, no later allocation from any template repeats its label |
| Compiler.Lowered | src/bin/compiler.rs:235-246 | the opcode map of `emit_expr`: each opcode to its VM operation, with > and >= to < and <= |
| Compiler.GenExpr | src/bin/compiler.rs:210-265 | `emit_expr` on a value generator (frames, code, label counters): the code that leaves the expression's value on the stack, or the panic it meets |
| Compiler.GenExprs | src/bin/compiler.rs:251-262 | the arguments of a call, left to right |
| Compiler.GenPrint | src/bin/compiler.rs:193-199 | the loop of a Print: each value computed, output on channel 0 and popped |
| Compiler.GenStmt | src/bin/compiler.rs:121-209 | `emit` on a value generator: the code of one statement and the new frames and counters, or the panic it meets |
| Compiler.GenStmts | src/bin/compiler.rs:179-192 | the statements of a Block, in order |
| Compiler.GenExprPushesOne | src/bin/compiler.rs:210-265 | `emit_expr` raises the innermost stack top by exactly one, keeps bindings, outer frames and label counters, and appends code |
| Compiler.OperationPushesOne | src/bin/compiler.rs:224-250 | an operation leaves one value: two pushed, two popped, one pushed |
| Compiler.CallPushesOne | src/bin/compiler.rs:251-262 | a call leaves one value: its slot, then the arguments popped |
| Compiler.GenExprsPush | src/bin/compiler.rs:254-256 | the arguments of a call leave one value each |
| Compiler.ComparisonsSwapOperands | src/bin/compiler.rs:224-246 | a > b compiles as b < a and a >= b as b <= a |
| Compiler.PrintKeepsDepth | src/bin/compiler.rs:193-199 | Print leaves the tracked stack and label counters unchanged and only appends code, which neither defines nor jumps to a label |
| Compiler.ExprLabelFree | src/bin/compiler.rs:210-265 | the code `emit_expr` appends neither defines nor jumps to a label |
| Compiler.GenStmtExtends | src/bin/compiler.rs:121-209 | no statement changes the number of frames or any outer frame, or takes back code or label numbers; a Block leaves the frames exactly as it found them |
| Compiler.BlockRestoresFrames | src/bin/compiler.rs:179-192 | a Block's frame is gone when it ends, and the frames are as before |
| Compiler.LetBindingDepth | src/bin/compiler.rs:123-127 | LetBinding leaves the stack one higher, binds the identifier to the new top and makes it the latest binding |
| Compiler.BalancedStatements | src/bin/compiler.rs:128-204 | Assign, Print, Call and Block leave the tracked stack unchanged |
| Compiler.GenStmtFresh | src/bin/compiler.rs:115-209 | every label the code of a statement defines or jumps to was allocated while the statement was generated, never before it, and the label counters only grow |
| Compiler.LaterLabelsDiffer | src/bin/compiler.rs:115-178 | a label allocated before a statement is neither defined nor jumped to by the code generated for the statement, and no allocation after it gives the label again |
| Compiler.BasicProgram | src/bin/compiler.rs:337-385 | the `test_basic` program compiles to exactly the expected assembly, and leaves a bound in slot 0 of the outer frame |
| Compiler.BasicBlocks | src/bin/compiler.rs:359-367 | the two cleanup blocks of `test_basic` compile to their expected pieces |
| Compiler.BasicPrint | src/bin/compiler.rs:368-369 | "print a" with a in slot 0 compiles to PushStack(0), Output(0) |
| Compiler.BasicLoop | src/bin/compiler.rs:370-382 | the loop of `test_basic` compiles to its expected labels, jumps and body |
| Compiler.ScopeStack.constructor | src/bin/compiler.rs:32-36 | `ScopeStack::new`: one empty frame at depth 0 |
| Compiler.ScopeStack.PushFrame | src/bin/compiler.rs:38-41 | in place, does exactly what `FramePushed` says |
| Compiler.ScopeStack.PopFrame | src/bin/compiler.rs:42-48 | in place, does exactly what `FramePopped` says and returns the growth |
| Compiler.ScopeStack.AddBinding | src/bin/compiler.rs:49-62 | in place, does exactly what `Bound` says |
| Compiler.ScopeStack.PushLocal | src/bin/compiler.rs:63-68 | in place, raises the innermost stack top by one |
| Compiler.ScopeStack.PopLocal | src/bin/compiler.rs:69-79 | in place, does exactly what `LocalsPopped` says |
| Compiler.ScopeStack.Resolve | src/bin/compiler.rs:80-96 | the loop from the innermost frame outwards returns exactly `Resolved` |
| Compiler.CodeGen.constructor | src/bin/compiler.rs:107-114 | `CodeGen::new`: a fresh scope stack, no code, no label counters |
| Compiler.CodeGen.AllocLabel | src/bin/compiler.rs:115-120 | in place, does exactly what `Allocated` says |
| Compiler.CodeGen.EmitExpr | src/bin/compiler.rs:210-265 | in place, does exactly what `GenExpr` says, including each panic |
| Compiler.CodeGen.Emit | src/bin/compiler.rs:121-209 | in place, does exactly what `GenStmt` says, including each panic |
| Compiler.CodeGen.EmitIf | src/bin/compiler.rs:139-147 | an if without else in place agrees with `GenStmt` |
| Compiler.CodeGen.EmitIfElse | src/bin/compiler.rs:148-164 | an if with else in place agrees with `GenStmt` |
| Compiler.CodeGen.EmitWhile | src/bin/compiler.rs:165-178 | a while loop in place agrees with `GenStmt` |
| Compiler.CodeGen.EmitBlock | src/bin/compiler.rs:179-192 | a block in place agrees with `GenStmt` |
| Compiler.CodeGen.EmitPrint | src/bin/compiler.rs:193-199 | the Print loop in place agrees with `GenPrint` |
| Compiler.CodeGen.EmitReturn | src/bin/compiler.rs:266-268 | appends a jump through the return address and changes nothing else |

## Left out

- Machine-integer overflow is not modelled. i64 arithmetic in `ArithOp::eval` and `eval`, and the usize counters of the `Vm` and the scope stack, are unbounded integers. Debug-build overflow panics, such as `i64::MIN / -1`, are therefore absent. The explicit casts (`as i16`, `as u16`, `as usize` of a jump target) are modelled.
- Bytecode.Vm.Exec: requires `max_ops` to be set. With `max_ops = None` the Rust loop may run forever, and a method here must terminate.
- Bytecode.Run: is defined only for a machine with `max_ops` set, for the same reason. The `arith_ops`, `arith_eq`, `arith_rel` and `arith_bool` tests call `exec(None)`. Bytecode.BlockProgram, Bytecode.ArithOpsTest, Bytecode.ArithEqTest, Bytecode.ArithRelTest and Bytecode.ArithBoolTest run them with a guard equal to the program length instead. Each of them proves that the op count never passes that guard, so their runs match the unguarded ones.
- Output: the `IoChannels`/`Sender` plumbing is not modelled. Every `Output` op is recorded as a (channel, value) pair in the machine's `output` sequence, whether or not channels were passed. The panic on a channel index out of range is not modelled.
- serde/bincode serialisation, `debug!` logging, and the `size_of`/`transmute_copy` layout checks of the `arith` test are not modelled.
- The `jump` test of src/bytecode.rs asserts nothing; its jump semantics are covered by `Bytecode.JmpStep`.
- The disassembly printers (`Disass::print_lines`, `Section`) are not modelled.
- The `asm_basic` test reads test_basic.xas, which is not part of this model.
- The `main` functions, the LALRPOP parsers (`lang1`, `xas`) and src/bin/cranelift.rs are not modelled. The expressions of the `lang1_errors` and `test1` tests are written out as the trees the parser produces.
- The error count checked by `lang1_errors` depends on the parser and is left out.
- test_compiler_basic.l1 is not part of this model. Compiler.BasicProgram uses a program reconstructed from the expected assembly of `test_basic`.
- Compiler: the function declarations handled only by `main` in src/bin/compiler.rs are not modelled. This includes the "entry" label and the per-function frames.
- The compiler's syntax tree (`Assign`, `While`, `Block` with a cleanup flag, `Call`, `Return`, and `Call` expressions) comes from a version of src/ast.rs that is not part of this model; its shape is inferred from how src/bin/compiler.rs matches on it.
- The `unknown binding` panics read the identifier's name for their message; the model reports only the identifier.
- The handle table of the `handy` crate is not part of this model. Ast.HandleMap models only the operations `get_dedup` and `test_handy` use: linear `find_handle`, appending `insert`, and `get`. Handles are slot numbers, without the crate's generation counters.
- Eval: Print's lines are recorded as values in order; a Print that panics midway keeps in the model none of the lines it had printed before the panic.
- Eval.EvalExpr: requires the expression to use only the four opcodes the source's match handles. The other opcodes are not handled by src/eval.rs.
- Compiler.BasicLoop: stated for a generator whose label counters are still empty, as in `test_basic`.
- Ackermann.Ack: Python's recursion limit is not modelled. With CPython's default limit of 1000, the script's own call ack(3, 8) raises RecursionError before printing: its innermost call ack(2, 1021) alone needs about 2046 nested frames. Negative arguments are not modelled either. The script recurses on them until RecursionError, since they never reach a base case (any negative n, or m < 0 with n > 0). `Ack` takes naturals only.
- Ackermann.Evaluate: an explicit-stack evaluator that the script does not have. It guards only the number of frame resolutions, not the stack depth.

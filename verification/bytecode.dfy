/** The bytecode of src/bytecode.rs: the 3-byte immediate `Uint24`, the
    arithmetic operators, the instruction set, and the stack machine `Vm`
    whose `exec` loop fetches and dispatches instructions under a work guard.

    The machine is described twice: `Step` and `Run` are the specification
    on values (a `Machine` snapshot), and the class `Vm` is the imperative
    implementation, whose methods are proved to follow them. */
module Bytecode {
  import opened Wrappers
  import opened RustInt

  // ----- Uint24 -----

  /** Three bytes, most significant first. */
  datatype Uint24 = Uint24(hi: u8, mid: u8, lo: u8)

  /** `From<u32>`: bytes 2, 1 and 0 of v (shifts and masks on an unsigned
      value, written as division and remainder). */
  function FromU32(v: u32): Uint24
  {
    Uint24((v / 0x1_0000) % 0x100, (v / 0x100) % 0x100, v % 0x100)
  }

  /** `Into<u32>`: the three bytes read back big-endian. Every decoded value
      is below 2^24, and encoding it again gives back the same bytes. */
  function IntoU32(u: Uint24): (v: u32)
    ensures v < 0x100_0000
    ensures FromU32(v) == u
  {
    var v := u.hi * 0x1_0000 + u.mid * 0x100 + u.lo;
    assert v / 0x100 == u.hi * 0x100 + u.mid;
    assert v / 0x1_0000 == u.hi;
    v
  }

  /** Encoding then decoding keeps the low 24 bits of the value. */
  lemma Uint24RoundTrip(v: u32)
    ensures IntoU32(FromU32(v)) == v % 0x100_0000
    ensures v <= 0xFF_FFFF ==> IntoU32(FromU32(v)) == v
  {
    IntoU32Value(FromU32(v));
    LowDigits(v);
    if v <= 0xFF_FFFF {
      Split24(v, 0, v);
    }
  }

  /** The value `into` reads from the three bytes. */
  lemma IntoU32Value(u: Uint24)
    ensures IntoU32(u) == u.hi * 0x1_0000 + u.mid * 0x100 + u.lo
  {
  }

  /** Bytes 2, 1 and 0 of a natural number put back together are the
      number modulo 2^24. */
  lemma LowDigits(v: nat)
    ensures ((v / 0x1_0000) % 0x100) * 0x1_0000 + ((v / 0x100) % 0x100) * 0x100 + v % 0x100 == v % 0x100_0000
  {
    var lo := v % 0x100;
    var w := v / 0x100;
    var mid := w % 0x100;
    var hi := w / 0x100;
    assert v == w * 0x100 + lo;
    assert w == hi * 0x100 + mid;
    var low16 := mid * 0x100 + lo;
    Split16(v, hi, low16);
    var top := hi / 0x100;
    var low24 := (hi % 0x100) * 0x1_0000 + low16;
    assert hi == top * 0x100 + hi % 0x100;
    Split24(v, top, low24);
  }

  /** Quotient and remainder by 2^16 are determined by any split
      v == q * 2^16 + r with 0 <= r < 2^16. */
  lemma Split16(v: int, q: int, r: int)
    requires 0 <= r < 0x1_0000 && v == q * 0x1_0000 + r
    ensures v / 0x1_0000 == q && v % 0x1_0000 == r
  {
  }

  /** The same for 2^24. */
  lemma Split24(v: int, q: int, r: int)
    requires 0 <= r < 0x100_0000 && v == q * 0x100_0000 + r
    ensures v / 0x100_0000 == q && v % 0x100_0000 == r
  {
  }

  /** The values that the `int24` test encodes and decodes come back
      unchanged. */
  lemma Uint24TestValues(v: u32)
    requires v in {10, 0xAABBCC, 0xFF, 0xFF00, 0xFF0000, 0xFFFFFF}
    ensures IntoU32(FromU32(v)) == v
  {
    Uint24RoundTrip(v);
  }

  // ----- Arithmetic -----

  /** `bool_to_i64`: true is 1, false is 0. */
  function BoolToI64(v: bool): (r: int)
    ensures r == 0 || r == 1
    ensures r == 1 <==> v
  {
    if v then 1 else 0
  }

  datatype ArithOp = Add | Sub | Mul | Div | Or | And | Equal | NotEqual | LessThan | LessEqual
  {
    /** The operators whose result is a truth value. */
    predicate IsBoolean()
    {
      !(Add? || Sub? || Mul? || Div?)
    }

    /** `ArithOp::eval` on i64 operands (overflow not modelled). Division
        rounds toward zero; a zero divisor makes Rust panic, which callers
        must rule out. Boolean operators yield 0 or 1. */
    function Eval(a: int, b: int): (r: int)
      requires Div? ==> b != 0
      ensures IsBoolean() ==> r == 0 || r == 1
    {
      match this
      case Add => a + b
      case Sub => a - b
      case Mul => a * b
      case Div => TruncDiv(a, b)
      case Or => BoolToI64(a != 0 || b != 0)
      case And => BoolToI64(a != 0 && b != 0)
      case Equal => BoolToI64(a == b)
      case NotEqual => BoolToI64(a != b)
      case LessThan => BoolToI64(a < b)
      case LessEqual => BoolToI64(a <= b)
    }
  }

  /** The meaning of each boolean operator, as a truth value: Or and And
      read any nonzero operand as true. */
  lemma BooleanOperators(a: int, b: int)
    ensures Or.Eval(a, b) == 1 <==> (a != 0 || b != 0)
    ensures And.Eval(a, b) == 1 <==> (a != 0 && b != 0)
    ensures Equal.Eval(a, b) == 1 <==> a == b
    ensures NotEqual.Eval(a, b) == 1 <==> a != b
    ensures LessThan.Eval(a, b) == 1 <==> a < b
    ensures LessEqual.Eval(a, b) == 1 <==> a <= b
    ensures Equal.Eval(a, b) + NotEqual.Eval(a, b) == 1
    ensures LessThan.Eval(a, b) + LessEqual.Eval(b, a) == 1
  {
  }

  /** Division truncates toward zero, unlike Dafny's Euclidean `/`. */
  lemma DivisionTruncates()
    ensures Div.Eval(7, 2) == 3 && Div.Eval(-7, 2) == -3
    ensures Div.Eval(7, -2) == -3 && Div.Eval(-7, -2) == 3
  {
  }

  // ----- Instructions and programs -----

  datatype PopMode = One | Top

  datatype Cond = Always | Zero | NonZero

  datatype Op =
    | Noop
    | PushConst(constIndex: u16)
    | PushStack(stackOffset: i16)
    | PushImmediate(imm: i16)
    | PushImmediate24(imm24: Uint24)
    | Move
    | Arith(op: ArithOp)
    | Jmp(cond: Cond)
    | Output(channel: u16)
    | Pop(mode: PopMode)
    | Break

  /** `Program`: a constant pool and code; `Program::new` is Program([], []). */
  datatype Program = Program(data: seq<int>, code: seq<Op>)

  /** The reasons the Rust machine panics. */
  datatype Panic = StackUnderflow | ConstOutOfRange | DivisionByZero | InvalidJump

  /** A snapshot of the `Vm` fields. Output sends are recorded in order as
      (channel, value) pairs. */
  datatype Machine = Machine(
    data: seq<int>,
    stack: seq<int>,
    code: seq<Op>,
    ip: nat,
    numOps: nat,
    maxOps: Option<nat>,
    output: seq<(u16, int)>)

  /** The stack index that `peek_at(offs)` reads and `peek_at_mut(offs)`
      writes: the element offs places below the top, when there is one. */
  function Slot(len: nat, offs: int): (r: Option<nat>)
    ensures r.Some? <==> 0 <= offs < len
    ensures r.Some? ==> r.value < len && r.value + offs == len - 1
  {
    if 0 <= offs < len then Some(len - 1 - offs) else None
  }

  datatype StepResult = Next(m: Machine) | Halt(m: Machine) | Fault(panic: Panic)

  /** A taken jump: the new ip is ip + dst and must fall inside the code
      (a negative sum becomes a huge usize in Rust, so it fails too). */
  function Jump(m: Machine, stack: seq<int>, dst: int): StepResult
  {
    var target := m.ip + dst;
    if 0 <= target < |m.code| then Next(m.(stack := stack, ip := target))
    else Fault(InvalidJump)
  }

  /** `Op::Arith`: pops b, then a, and pushes a `op` b. */
  function StepArith(m: Machine, op: ArithOp): StepResult
  {
    var s := m.stack;
    var n := |s|;
    if n < 2 then Fault(StackUnderflow)
    else if op.Div? && s[n - 1] == 0 then Fault(DivisionByZero)
    else Next(m.(stack := s[..n - 2] + [op.Eval(s[n - 2], s[n - 1])], ip := m.ip + 1))
  }

  /** `Op::Jmp`: pops the distance, then (Zero, NonZero) the condition. */
  function StepJmp(m: Machine, c: Cond): StepResult
  {
    var s := m.stack;
    var n := |s|;
    if n < 1 then Fault(StackUnderflow)
    else if c.Always? then Jump(m, s[..n - 1], s[n - 1])
    else if n < 2 then Fault(StackUnderflow)
    else
      var taken := if c.Zero? then s[n - 2] == 0 else s[n - 2] != 0;
      if taken then Jump(m, s[..n - 2], s[n - 1]) else Next(m.(stack := s[..n - 2], ip := m.ip + 1))
  }

  /** `Op::Output`, `Op::Pop` and `Op::Move`, which consume stack values. */
  function StepStack(m: Machine, op: Op): StepResult
    requires op.Output? || op.Pop? || op.Move?
  {
    var s := m.stack;
    var n := |s|;
    var next := m.(ip := m.ip + 1);
    match op
    case Output(ch) =>
      if n < 1 then Fault(StackUnderflow)
      else Next(next.(stack := s[..n - 1], output := m.output + [(ch, s[n - 1])]))
    case Pop(One) =>
      if n < 1 then Fault(StackUnderflow) else Next(next.(stack := s[..n - 1]))
    case Pop(Top) =>
      if n < 1 then Fault(StackUnderflow)
      else
        var k := s[n - 1];
        if k <= 0 then Next(next.(stack := s[..n - 1]))
        else if k <= n - 1 then Next(next.(stack := s[..n - 1 - k]))
        else Fault(StackUnderflow)
    case Move =>
      if n < 2 then Fault(StackUnderflow)
      else
        var rest := s[..n - 2];
        var slot := Slot(n - 2, s[n - 1]);
        if slot.Some? then Next(next.(stack := rest[slot.value := s[n - 2]]))
        else Fault(StackUnderflow)
  }

  /** The four push instructions. */
  function StepPush(m: Machine, op: Op): StepResult
    requires op.PushConst? || op.PushStack? || op.PushImmediate? || op.PushImmediate24?
  {
    var s := m.stack;
    var next := m.(ip := m.ip + 1);
    match op
    case PushConst(i) =>
      if i < |m.data| then Next(next.(stack := s + [m.data[i]])) else Fault(ConstOutOfRange)
    case PushStack(offs) =>
      var slot := Slot(|s|, offs);
      if slot.Some? then Next(next.(stack := s + [s[slot.value]])) else Fault(StackUnderflow)
    case PushImmediate(v) => Next(next.(stack := s + [v]))
    case PushImmediate24(u) => Next(next.(stack := s + [IntoU32(u)]))
  }

  /** One dispatch of the `exec` loop: executes the instruction at ip, after
      the fetch has already been counted in numOps. Every instruction but a
      taken jump and Break advances ip by one; only a fault changes the
      code, the constants or the counters, and Break alone halts, leaving
      the machine as it is. */
  function Step(m: Machine): (r: StepResult)
    requires m.ip < |m.code|
    ensures !r.Fault? ==> r.m.code == m.code && r.m.data == m.data
    ensures !r.Fault? ==> r.m.numOps == m.numOps && r.m.maxOps == m.maxOps
    ensures r.Halt? <==> m.code[m.ip].Break?
    ensures r.Halt? ==> r.m == m
  {
    var op := m.code[m.ip];
    match op
    case Noop => Next(m.(ip := m.ip + 1))
    case Arith(aop) => StepArith(m, aop)
    case Jmp(c) => StepJmp(m, c)
    case Break => Halt(m)
    case Output(_) => StepStack(m, op)
    case Pop(_) => StepStack(m, op)
    case Move => StepStack(m, op)
    case _ => StepPush(m, op)
  }

  datatype RunResult = Stopped(m: Machine) | Panicked(panic: Panic)

  /** Remaining fetches before the work guard trips. */
  function Budget(m: Machine): nat
    requires m.maxOps.Some?
  {
    if m.numOps <= m.maxOps.value then m.maxOps.value + 1 - m.numOps else 0
  }

  /** What one turn of the `exec` loop does: go on with a new machine, return
      with a final one, or panic. */
  datatype Tick = More(m: Machine) | Done(m: Machine) | Crash(panic: Panic)

  /** One turn of the `exec` loop with `max_ops = Some(..)`: return when ip
      is past the code; otherwise count the fetch, return once the count
      exceeds max_ops, and dispatch. Only a panic changes the code, the
      constants or the guard; going on means one more op was counted
      within the limit, and returning means ip left the code, the guard
      tripped, or ip is on a Break. */
  function Fetch(m: Machine): (t: Tick)
    requires m.maxOps.Some?
    ensures !t.Crash? ==> t.m.code == m.code && t.m.data == m.data && t.m.maxOps == m.maxOps
    ensures t.More? ==> t.m.numOps == m.numOps + 1 <= m.maxOps.value
    ensures t.Done? ==> m.numOps <= t.m.numOps <= m.numOps + 1
    ensures t.Done? ==>
      t.m.ip >= |t.m.code| || t.m.numOps > m.maxOps.value || t.m.code[t.m.ip].Break?
  {
    if m.ip >= |m.code| then Done(m)
    else
      var m1 := m.(numOps := m.numOps + 1);
      if m1.numOps > m.maxOps.value then Done(m1)
      else
        match Step(m1)
        case Next(m2) => More(m2)
        case Halt(m2) => Done(m2)
        case Fault(p) => Crash(p)
  }

  /** The whole `exec` loop with a work guard. */
  function Run(m: Machine): RunResult
    requires m.maxOps.Some?
    decreases Budget(m)
  {
    match Fetch(m)
    case More(m2) => Run(m2)
    case Done(f) => Stopped(f)
    case Crash(p) => Panicked(p)
  }

  /** Why `exec` returns: the ip left the code, the work guard tripped, or
      a Break was reached (and ip stays on it). The code, the constants and
      the guard are never changed, and the op count never goes down or
      past max_ops + 1. */
  lemma {:induction false} RunStops(m: Machine)
    requires m.maxOps.Some?
    requires m.numOps <= m.maxOps.value
    ensures Run(m).Stopped? ==>
      var f := Run(m).m;
      && f.code == m.code && f.data == m.data && f.maxOps == m.maxOps
      && m.numOps <= f.numOps <= m.maxOps.value + 1
      && (f.ip >= |f.code| || f.numOps > f.maxOps.value || f.code[f.ip].Break?)
    decreases Budget(m)
  {
    match Fetch(m)
    case More(m2) =>
      RunStops(m2);
    case Done(f) =>
    case Crash(p) =>
  }

  // ----- Single-instruction properties -----

  /** Arith pops b, then a, and pushes a `op` b: the stack shrinks by one
      and everything below the operands is untouched. */
  lemma ArithStep(m: Machine, op: ArithOp)
    requires m.ip < |m.code| && m.code[m.ip] == Arith(op)
    requires |m.stack| >= 2 && (op.Div? ==> m.stack[|m.stack| - 1] != 0)
    ensures Step(m).Next?
    ensures var s, s' := m.stack, Step(m).m.stack;
      && |s'| == |s| - 1
      && s'[..|s| - 2] == s[..|s| - 2]
      && s'[|s| - 2] == op.Eval(s[|s| - 2], s[|s| - 1])
    ensures Step(m).m.ip == m.ip + 1
  {
  }

  /** Jmp pops the distance dst (and, when conditional, then a condition
      value). A taken jump moves ip to ip + dst, which must lie inside the
      code; otherwise ip advances by one. */
  lemma JmpStep(m: Machine, c: Cond)
    requires m.ip < |m.code| && m.code[m.ip] == Jmp(c)
    requires |m.stack| >= (if c.Always? then 1 else 2)
    ensures var s := m.stack;
      var dst := s[|s| - 1];
      var taken := c.Always? || (c.Zero? && s[|s| - 2] == 0) || (c.NonZero? && s[|s| - 2] != 0);
      var popped := if c.Always? then 1 else 2;
      && (taken && 0 <= m.ip + dst < |m.code| ==>
            Step(m) == Next(m.(stack := s[..|s| - popped], ip := m.ip + dst)))
      && (taken && !(0 <= m.ip + dst < |m.code|) ==> Step(m) == Fault(InvalidJump))
      && (!taken ==> Step(m) == Next(m.(stack := s[..|s| - popped], ip := m.ip + 1)))
  {
  }

  /** Move pops an offset, then a value, and overwrites the slot that lies
      offs places below the top of what remains. */
  lemma MoveStep(m: Machine)
    requires m.ip < |m.code| && m.code[m.ip] == Move
    requires |m.stack| >= 2
    ensures var s := m.stack;
      var offs := s[|s| - 1];
      var rest := s[..|s| - 2];
      && (0 <= offs < |rest| ==>
            Step(m) == Next(m.(stack := rest[|rest| - 1 - offs := s[|s| - 2]], ip := m.ip + 1)))
      && (!(0 <= offs < |rest|) ==> Step(m) == Fault(StackUnderflow))
  {
  }

  /** Pop(Top) pops a count k and then exactly k more values (none when k
      is not positive). */
  lemma PopTopStep(m: Machine)
    requires m.ip < |m.code| && m.code[m.ip] == Pop(Top)
    requires |m.stack| >= 1
    ensures var s := m.stack;
      var k := s[|s| - 1];
      && (k <= |s| - 1 ==>
            Step(m) == Next(m.(stack := s[..|s| - 1 - (if k <= 0 then 0 else k)], ip := m.ip + 1)))
      && (k > |s| - 1 ==> Step(m) == Fault(StackUnderflow))
  {
  }

  // ----- The programs of the source's unit tests -----

  /** A machine about to run `code` from ip 0 with the given work limit. */
  function Loaded(data: seq<int>, code: seq<Op>, maxOps: nat): Machine
  {
    Machine(data, [], code, 0, 0, Some(maxOps), [])
  }

  /** The machine after k straight-line instructions of a freshly loaded
      program, each fetch counted. */
  function After(m: Machine, k: nat, stack: seq<int>): Machine
  {
    m.(stack := stack, ip := k, numOps := k)
  }

  /** One fetch-and-dispatch of `Run` that neither stops nor faults. */
  lemma RunThrough(m: Machine, m2: Machine)
    requires m.maxOps.Some? && m.ip < |m.code| && m.numOps < m.maxOps.value
    requires Step(m.(numOps := m.numOps + 1)) == Next(m2)
    ensures Run(m) == Run(m2)
  {
    assert Fetch(m) == More(m2);
  }

  /** Once ip has left the code, `exec` returns at once. */
  lemma RunAtEnd(m: Machine)
    requires m.maxOps.Some? && m.ip >= |m.code|
    ensures Run(m) == Stopped(m)
  {
  }

  /** The straight-line block `push a; push b; arith op` leaves a `op` b on
      top of the stack and moves on by three instructions. */
  lemma ArithBlock(m: Machine, a: i16, b: i16, op: ArithOp, m': Machine)
    requires m.maxOps.Some? && m.numOps + 3 <= m.maxOps.value
    requires m.ip + 3 <= |m.code|
    requires m.code[m.ip] == PushImmediate(a) && m.code[m.ip + 1] == PushImmediate(b)
    requires m.code[m.ip + 2] == Arith(op) && (op.Div? ==> b != 0)
    requires m' == m.(stack := m.stack + [op.Eval(a, b)], ip := m.ip + 3, numOps := m.numOps + 3)
    ensures Run(m) == Run(m')
  {
    var s := m.stack;
    var m1 := m.(stack := s + [a], ip := m.ip + 1, numOps := m.numOps + 1);
    var m2 := m1.(stack := s + [a, b], ip := m.ip + 2, numOps := m.numOps + 2);
    RunThrough(m, m1);
    RunThrough(m1, m2);
    assert (s + [a, b])[..|s|] == s;
    RunThrough(m2, m');
  }

  /** A straight-line block `push a; push b; arith op`; the arithmetic tests
      are sequences of such blocks. */
  datatype Block = Block(a: i16, b: i16, op: ArithOp)

  function BlockCode(bs: seq<Block>): (code: seq<Op>)
    ensures |code| == 3 * |bs|
  {
    if bs == [] then []
    else [PushImmediate(bs[0].a), PushImmediate(bs[0].b), Arith(bs[0].op)] + BlockCode(bs[1..])
  }

  /** Block k occupies instructions 3k, 3k + 1 and 3k + 2. */
  lemma {:induction false} BlockAt(bs: seq<Block>, k: nat)
    requires k < |bs|
    ensures var code := BlockCode(bs);
      && code[3 * k] == PushImmediate(bs[k].a)
      && code[3 * k + 1] == PushImmediate(bs[k].b)
      && code[3 * k + 2] == Arith(bs[k].op)
  {
    if k > 0 {
      BlockAt(bs[1..], k - 1);
      assert bs[1..][k - 1] == bs[k];
    }
  }

  predicate NoZeroDivisor(bs: seq<Block>)
  {
    forall i :: 0 <= i < |bs| ==> bs[i].op.Div? ==> bs[i].b != 0
  }

  /** The value each block leaves on the stack, bottom first. */
  function Results(bs: seq<Block>): (r: seq<int>)
    requires NoZeroDivisor(bs)
    ensures |r| == |bs|
    ensures forall i :: 0 <= i < |bs| ==> r[i] == bs[i].op.Eval(bs[i].a, bs[i].b)
  {
    if bs == [] then []
    else
      assert NoZeroDivisor(bs[..|bs| - 1]);
      Results(bs[..|bs| - 1]) + [bs[|bs| - 1].op.Eval(bs[|bs| - 1].a, bs[|bs| - 1].b)]
  }

  /** Running a program made of blocks from the start of block k, with the
      results of the earlier blocks on the stack, ends with every block's
      result on the stack after one fetch per instruction. */
  lemma {:induction false} RunBlocks(m: Machine, bs: seq<Block>, k: nat)
    requires m.maxOps.Some? && 3 * |bs| <= m.maxOps.value
    requires m.code == BlockCode(bs) && NoZeroDivisor(bs)
    requires k <= |bs| && m.ip == 3 * k && m.numOps == 3 * k
    requires m.stack == Results(bs[..k])
    ensures Run(m) == Stopped(m.(stack := Results(bs), ip := 3 * |bs|, numOps := 3 * |bs|))
    decreases |bs| - k
  {
    if k == |bs| {
      assert bs[..k] == bs;
      RunAtEnd(m);
    } else {
      var m' := m.(stack := Results(bs[..k + 1]), ip := 3 * (k + 1), numOps := 3 * (k + 1));
      RunNextBlock(m, bs, k, m');
      RunBlocks(m', bs, k + 1);
    }
  }

  /** Block k adds its result to the stack. */
  lemma RunNextBlock(m: Machine, bs: seq<Block>, k: nat, m': Machine)
    requires m.maxOps.Some? && 3 * |bs| <= m.maxOps.value
    requires m.code == BlockCode(bs) && NoZeroDivisor(bs)
    requires k < |bs| && m.ip == 3 * k && m.numOps == 3 * k
    requires m.stack == Results(bs[..k])
    requires m' == m.(stack := Results(bs[..k + 1]), ip := 3 * (k + 1), numOps := 3 * (k + 1))
    ensures Run(m) == Run(m')
  {
    var blk := bs[k];
    ResultsPrefix(bs, k);
    BlockAt(bs, k);
    ArithBlock(m, blk.a, blk.b, blk.op, m');
  }

  lemma ResultsPrefix(bs: seq<Block>, k: nat)
    requires NoZeroDivisor(bs) && k < |bs|
    ensures NoZeroDivisor(bs[..k]) && NoZeroDivisor(bs[..k + 1])
    ensures Results(bs[..k + 1]) == Results(bs[..k]) + [bs[k].op.Eval(bs[k].a, bs[k].b)]
  {
    assert bs[..k + 1][..k] == bs[..k];
  }

  /** A freshly loaded block program whose work limit is its length runs
      to the end and leaves the result of every block on the stack; the
      limit is reached exactly, never passed, so the guard never trips and
      the run is the one `exec(None)` makes. */
  lemma BlockProgram(bs: seq<Block>, m: Machine)
    requires NoZeroDivisor(bs) && m == Loaded([], BlockCode(bs), 3 * |bs|)
    ensures Run(m).Stopped? && Run(m).m.stack == Results(bs)
    ensures Run(m).m.ip == |m.code| && Run(m).m.numOps == |m.code| == m.maxOps.value
  {
    assert bs[..0] == [];
    RunBlocks(m, bs, 0);
  }

  /** The `arith_ops` test: 1 + 2, 2 - 1, 3 * 4 and 6 / 3 leave 3, 1, 12, 2
      from bottom to top. */
  lemma ArithOpsTest(bs: seq<Block>, m: Machine)
    requires bs == [Block(1, 2, Add), Block(2, 1, Sub), Block(3, 4, Mul), Block(6, 3, Div)]
    requires m == Loaded([], BlockCode(bs), 12)
    ensures Run(m).Stopped? && Run(m).m.stack == [3, 1, 12, 2]
    ensures Run(m).m.numOps <= m.maxOps.value
  {
    ArithOpsResults(bs);
    BlockProgram(bs, m);
  }

  lemma ArithOpsResults(bs: seq<Block>)
    requires bs == [Block(1, 2, Add), Block(2, 1, Sub), Block(3, 4, Mul), Block(6, 3, Div)]
    ensures NoZeroDivisor(bs) && Results(bs) == [3, 1, 12, 2]
  {
  }

  /** The `arith_eq` test: 2 == 3, 2 == 2, 2 != 3, 2 != 2. */
  lemma ArithEqTest(bs: seq<Block>, m: Machine)
    requires bs == [Block(2, 3, Equal), Block(2, 2, Equal), Block(2, 3, NotEqual), Block(2, 2, NotEqual)]
    requires m == Loaded([], BlockCode(bs), 12)
    ensures Run(m).Stopped? && Run(m).m.stack == [0, 1, 1, 0]
    ensures Run(m).m.numOps <= m.maxOps.value
  {
    ArithEqResults(bs);
    BlockProgram(bs, m);
  }

  lemma ArithEqResults(bs: seq<Block>)
    requires bs == [Block(2, 3, Equal), Block(2, 2, Equal), Block(2, 3, NotEqual), Block(2, 2, NotEqual)]
    ensures NoZeroDivisor(bs) && Results(bs) == [0, 1, 1, 0]
  {
  }

  /** The `arith_rel` test: 2 < 3, 2 < 2, 3 < 2, 2 <= 3, 2 <= 2, 3 <= 2. */
  lemma ArithRelTest(bs: seq<Block>, m: Machine)
    requires bs == [Block(2, 3, LessThan), Block(2, 2, LessThan), Block(3, 2, LessThan),
                    Block(2, 3, LessEqual), Block(2, 2, LessEqual), Block(3, 2, LessEqual)]
    requires m == Loaded([], BlockCode(bs), 18)
    ensures Run(m).Stopped? && Run(m).m.stack == [1, 0, 0, 1, 1, 0]
    ensures Run(m).m.numOps <= m.maxOps.value
  {
    ArithRelResults(bs);
    BlockProgram(bs, m);
  }

  lemma ArithRelResults(bs: seq<Block>)
    requires bs == [Block(2, 3, LessThan), Block(2, 2, LessThan), Block(3, 2, LessThan),
                    Block(2, 3, LessEqual), Block(2, 2, LessEqual), Block(3, 2, LessEqual)]
    ensures NoZeroDivisor(bs) && Results(bs) == [1, 0, 0, 1, 1, 0]
  {
  }

  /** The `arith_bool` test: the truth tables of And and Or on 0 and 1. */
  lemma ArithBoolTest(bs: seq<Block>, m: Machine)
    requires bs == [Block(0, 0, And), Block(1, 0, And), Block(0, 1, And), Block(1, 1, And),
                    Block(0, 0, Or), Block(1, 0, Or), Block(0, 1, Or), Block(1, 1, Or)]
    requires m == Loaded([], BlockCode(bs), 24)
    ensures Run(m).Stopped? && Run(m).m.stack == [0, 0, 0, 1, 0, 1, 1, 1]
    ensures Run(m).m.numOps <= m.maxOps.value
  {
    ArithBoolResults(bs);
    BlockProgram(bs, m);
  }

  lemma ArithBoolResults(bs: seq<Block>)
    requires bs == [Block(0, 0, And), Block(1, 0, And), Block(0, 1, And), Block(1, 1, And),
                    Block(0, 0, Or), Block(1, 0, Or), Block(0, 1, Or), Block(1, 1, Or)]
    ensures NoZeroDivisor(bs) && Results(bs) == [0, 0, 0, 1, 0, 1, 1, 1]
  {
  }

  /** The work guard: with max_ops = 2 the loop stops at the third fetch,
      which is counted, before executing it. */
  lemma WorkGuardTest(m: Machine)
    requires m == Loaded([], [PushImmediate(1), PushImmediate(2), Arith(Add)], 2)
    ensures Run(m) == Stopped(After(m, 3, [1, 2]).(ip := 2))
  {
    RunThrough(m, After(m, 1, [1]));
    RunThrough(After(m, 1, [1]), After(m, 2, [1, 2]));
  }

  // ----- The virtual machine -----

  datatype Status = Continue | Halted | Faulted(panic: Panic)

  /** The step result that an in-place dispatch reports, given the state it
      leaves behind. */
  function Report(status: Status, m: Machine): StepResult
  {
    match status
    case Continue => Next(m)
    case Halted => Halt(m)
    case Faulted(p) => Fault(p)
  }

  /** `Vm`: the constant pool, the operand stack, the code, the instruction
      pointer and the work counters, all updated in place. */
  class Vm {
    var data: seq<int>
    var stack: seq<int>
    var code: seq<Op>
    var ip: nat
    var numOps: nat
    var maxOps: Option<nat>
    var output: seq<(u16, int)>

    function State(): Machine
      reads this
    {
      Machine(data, stack, code, ip, numOps, maxOps, output)
    }

    /** `Vm::new`. */
    constructor ()
      ensures State() == Machine([], [], [], 0, 0, None, [])
    {
      data, stack, code := [], [], [];
      ip, numOps, maxOps := 0, 0, None;
      output := [];
    }

    /** `Vm::from_program`. */
    constructor FromProgram(prog: Program)
      ensures State() == Machine(prog.data, [], prog.code, 0, 0, None, [])
    {
      data, stack, code := prog.data, [], prog.code;
      ip, numOps, maxOps := 0, 0, None;
      output := [];
    }

    method Push(v: int)
      modifies this
      ensures State() == old(State()).(stack := old(stack) + [v])
    {
      stack := stack + [v];
    }

    /** `pop`: the top value, or None where Rust's unwrap panics. */
    method Pop() returns (r: Option<int>)
      modifies this
      ensures r.None? <==> old(stack) == []
      ensures r.Some? ==> old(stack) == stack + [r.value]
      ensures r.None? ==> stack == old(stack)
      ensures State() == old(State()).(stack := stack)
    {
      if stack == [] {
        return None;
      }
      r := Some(stack[|stack| - 1]);
      stack := stack[..|stack| - 1];
    }

    /** `peek`: the top value, or None where Rust panics. */
    method Peek() returns (r: Option<int>)
      ensures r.None? <==> stack == []
      ensures r.Some? ==> stack[|stack| - 1] == r.value
    {
      if stack == [] {
        return None;
      }
      r := Some(stack[|stack| - 1]);
    }

    /** `peek_at(offs)`: the value offs places below the top, or None
        ("stack underflow") unless 0 <= offs < len. */
    method PeekAt(offs: int) returns (r: Option<int>)
      ensures r.Some? <==> 0 <= offs < |stack|
      ensures r.Some? ==> r.value == stack[|stack| - 1 - offs]
    {
      var slot := Slot(|stack|, offs);
      if slot.None? {
        return None;
      }
      r := Some(stack[slot.value]);
    }

    /** `peek_at_mut(offs)`: the Rust mutable reference is modelled as the
        index of the slot it refers to, the same slot `peek_at` reads. */
    method PeekAtMut(offs: int) returns (slot: Option<nat>)
      ensures slot == Slot(|stack|, offs)
      ensures slot.Some? ==> slot.value < |stack| && slot.value == |stack| - 1 - offs
    {
      slot := Slot(|stack|, offs);
    }

    /** `Pop(PopMode::Top)` after the count k has been popped: k further pops,
        none when k is not positive. */
    method PopMany(k: int) returns (ok: bool)
      modifies this
      ensures ok <==> k <= |old(stack)|
      ensures ok ==> stack == if k <= 0 then old(stack) else old(stack)[..|old(stack)| - k]
      ensures State() == old(State()).(stack := stack)
    {
      var i := 0;
      while i < k
        invariant 0 <= i <= |old(stack)|
        invariant i <= k || (k <= 0 && i == 0)
        invariant stack == old(stack)[..|old(stack)| - i]
        invariant State() == old(State()).(stack := stack)
        decreases k - i
      {
        var x := Pop();
        if x.None? {
          return false;
        }
        i := i + 1;
      }
      return true;
    }

    /** One dispatch of the `exec` loop's match, performed in place: the
        new state, or the panic, is the one `Step` describes. */
    method ExecOp() returns (status: Status)
      requires ip < |code|
      modifies this
      ensures Step(old(State())) == Report(status, State())
    {
      match code[ip]
      case Noop =>
        ip := ip + 1;
        return Continue;
      case PushConst(_) =>
        status := ExecPush();
      case PushStack(_) =>
        status := ExecPush();
      case PushImmediate(_) =>
        status := ExecPush();
      case PushImmediate24(_) =>
        status := ExecPush();
      case Arith(op) =>
        status := ExecArith(op);
      case Jmp(c) =>
        status := ExecJmp(c);
      case Output(ch) =>
        status := ExecOutput(ch);
      case Pop(mode) =>
        status := ExecPop(mode);
      case Move =>
        status := ExecMove();
      case Break =>
        return Halted;
    }

    /** The four push instructions. */
    method ExecPush() returns (status: Status)
      requires ip < |code|
      requires code[ip].PushConst? || code[ip].PushStack? || code[ip].PushImmediate? || code[ip].PushImmediate24?
      modifies this
      ensures Step(old(State())) == Report(status, State())
    {
      match code[ip]
      case PushConst(i) =>
        if i >= |data| {
          return Faulted(ConstOutOfRange);
        }
        Push(data[i]);
        ip := ip + 1;
        return Continue;
      case PushStack(offs) =>
        var v := PeekAt(offs);
        if v.None? {
          return Faulted(StackUnderflow);
        }
        Push(v.value);
        ip := ip + 1;
        return Continue;
      case PushImmediate(v) =>
        Push(v);
        ip := ip + 1;
        return Continue;
      case PushImmediate24(u) =>
        Push(IntoU32(u));
        ip := ip + 1;
        return Continue;
    }

    /** Pops b, then a, and pushes a `op` b. */
    method ExecArith(op: ArithOp) returns (status: Status)
      requires ip < |code| && code[ip] == Arith(op)
      modifies this
      ensures Step(old(State())) == Report(status, State())
    {
      var b := Pop();
      if b.None? {
        return Faulted(StackUnderflow);
      }
      var a := Pop();
      if a.None? {
        return Faulted(StackUnderflow);
      }
      if op.Div? && b.value == 0 {
        return Faulted(DivisionByZero);
      }
      Push(op.Eval(a.value, b.value));
      ip := ip + 1;
      return Continue;
    }

    /** Pops the distance, then (when conditional) the condition value. */
    method ExecJmp(c: Cond) returns (status: Status)
      requires ip < |code| && code[ip] == Jmp(c)
      modifies this
      ensures Step(old(State())) == Report(status, State())
    {
      var dst := Pop();
      if dst.None? {
        return Faulted(StackUnderflow);
      }
      var taken := true;
      if !c.Always? {
        var v := Pop();
        if v.None? {
          return Faulted(StackUnderflow);
        }
        taken := if c.Zero? then v.value == 0 else v.value != 0;
      }
      if taken {
        var target := ip + dst.value;
        if target < 0 || target >= |code| {
          return Faulted(InvalidJump);
        }
        ip := target;
        return Continue;
      }
      ip := ip + 1;
      return Continue;
    }

    /** Pops a value and sends it to the channel. */
    method ExecOutput(ch: u16) returns (status: Status)
      requires ip < |code| && code[ip] == Output(ch)
      modifies this
      ensures Step(old(State())) == Report(status, State())
    {
      var v := Pop();
      if v.None? {
        return Faulted(StackUnderflow);
      }
      output := output + [(ch, v.value)];
      ip := ip + 1;
      return Continue;
    }

    /** Pops one value, or a count and then that many values. */
    method ExecPop(mode: PopMode) returns (status: Status)
      requires ip < |code| && code[ip] == Op.Pop(mode)
      modifies this
      ensures Step(old(State())) == Report(status, State())
    {
      var k := Pop();
      if k.None? {
        return Faulted(StackUnderflow);
      }
      if mode.Top? {
        var ok := PopMany(k.value);
        if !ok {
          return Faulted(StackUnderflow);
        }
      }
      ip := ip + 1;
      return Continue;
    }

    /** Pops an offset, then a value, and stores the value in the slot. */
    method ExecMove() returns (status: Status)
      requires ip < |code| && code[ip] == Move
      modifies this
      ensures Step(old(State())) == Report(status, State())
    {
      var offs := Pop();
      if offs.None? {
        return Faulted(StackUnderflow);
      }
      var v := Pop();
      if v.None? {
        return Faulted(StackUnderflow);
      }
      var slot := PeekAtMut(offs.value);
      if slot.None? {
        return Faulted(StackUnderflow);
      }
      stack := stack[slot.value := v.value];
      ip := ip + 1;
      return Continue;
    }

    /** `exec` with a work guard: runs exactly as `Run` describes, ending in
        the state `Run` reaches or with the panic it reaches. */
    method Exec() returns (panic: Option<Panic>)
      requires maxOps.Some?
      modifies this
      ensures Run(old(State())) == if panic.None? then Stopped(State()) else Panicked(panic.value)
    {
      while ip < |code|
        invariant maxOps == old(maxOps)
        invariant Run(State()) == Run(old(State()))
        decreases Budget(State())
      {
        ghost var before := State();
        numOps := numOps + 1;
        if numOps > maxOps.value {
          assert Fetch(before) == Done(State());
          return None;
        }
        var status := ExecOp();
        match status
        case Continue =>
          assert Fetch(before) == More(State());
        case Halted =>
          assert Fetch(before) == Done(State());
          return None;
        case Faulted(p) =>
          assert Fetch(before) == Crash(p);
          return Some(p);
      }
      assert Fetch(State()) == Done(State());
      return None;
    }
  }
}

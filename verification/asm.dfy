/** The assembler of src/asm.rs. It lowers assembly statements (`Stmt`) to
    bytecode in two passes. `label_locations` first records the address of
    every label, and `extract_constants` collects the literals too wide for
    an immediate into the constant pool. Then `emit` appends each
    statement's ops to the output.

    This file's shape of the instruction set is its own: PushConst and
    PushStack take their operand from the stack (pushed just before as an
    immediate) instead of carrying it. Every panic of `emit` is an `Err`
    here, raised before anything is appended. */
module Asm {
  import opened Wrappers
  import opened RustInt
  import Bytecode

  datatype Op =
    | Noop
    | PushConst
    | PushStack
    | PushImmediate(imm: i16)
    | PushImmediate24(imm24: Bytecode.Uint24)
    | Move
    | Arith(op: Bytecode.ArithOp)
    | Jmp(cond: Bytecode.Cond)
    | Output(channel: u16)
    | Pop(mode: Bytecode.PopMode)
    | Break

  /** One line of assembly. Operands are i64 in the source, unbounded here. */
  datatype Stmt =
    | PushInline(value: int)
    | PushConst(index: int)
    | PushStack(offset: int)
    | Jmp(cond: Bytecode.Cond, target: string)
    | Arith(op: Bytecode.ArithOp)
    | Output(channel: int)
    | Pop(count: int)
    | Move(offset: int)
    | Label(name: string)
    | Noop

  /** The panics of `emit`: an unknown jump label, a wide literal missing
      from the constant pool, and an operand (or constant index) that does
      not fit the 0x7FFF limit of a 16-bit immediate. */
  datatype EmitError = MissingLabel(name: string) | MissingConst(value: int) | OperandTooLarge(operand: int)

  // ----- Pass 0: sizes -----

  /** `num_ops`: how many ops a statement occupies in the bytecode. */
  function NumOps(s: Stmt): nat
  {
    match s
    case Label(_) => 0
    case Arith(_) => 1
    case Output(_) => 1
    case Noop => 1
    case PushInline(v) => if v <= 0xFF_FFFF then 1 else 2
    case Pop(n) => if n == 0 then 0 else if n == 1 then 1 else 2
    case Jmp(_, _) => 2
    case Move(_) => 2
    case PushConst(_) => 2
    case PushStack(_) => 2
  }

  /** The number of ops a statement list occupies. */
  function Size(stmts: seq<Stmt>): nat
  {
    if |stmts| == 0 then 0 else NumOps(stmts[0]) + Size(stmts[1..])
  }

  lemma {:induction false} SizeAppend(a: seq<Stmt>, b: seq<Stmt>)
    ensures Size(a + b) == Size(a) + Size(b)
  {
    if |a| == 0 {
      assert a + b == b;
    } else {
      assert (a + b)[1..] == a[1..] + b;
      SizeAppend(a[1..], b);
    }
  }

  /** The size of a prefix grows by the size of the next statement. */
  lemma SizeNext(stmts: seq<Stmt>, k: nat)
    requires k < |stmts|
    ensures Size(stmts[..k + 1]) == Size(stmts[..k]) + NumOps(stmts[k])
  {
    assert stmts[..k + 1] == stmts[..k] + [stmts[k]];
    SizeAppend(stmts[..k], [stmts[k]]);
    assert Size([stmts[k]]) == NumOps(stmts[k]) + Size([]);
  }

  /** The size of a nonempty prefix splits off its first statement. */
  lemma SizeCons(stmts: seq<Stmt>, k: nat)
    requires 0 < k <= |stmts|
    ensures Size(stmts[..k]) == NumOps(stmts[0]) + Size(stmts[1..][..k - 1])
  {
    assert stmts[..k][1..] == stmts[1..][..k - 1];
  }

  // ----- Lowering one statement -----

  /** `consts.iter().position(|x| x == v)`: the first index holding v. */
  function FirstIndex(consts: seq<int>, v: int): (r: Option<nat>)
    ensures r.None? <==> v !in consts
    ensures r.Some? ==> r.value < |consts| && consts[r.value] == v && v !in consts[..r.value]
  {
    if |consts| == 0 then None
    else if consts[0] == v then Some(0)
    else
      var rest := FirstIndex(consts[1..], v);
      if rest.None? then None
      else
        assert consts[..rest.value + 1] == [consts[0]] + consts[1..][..rest.value];
        Some(rest.value + 1)
  }

  /** An operand pushed as an immediate before `op`: refused above 0x7FFF,
      truncated to i16 below that (a negative operand below -0x8000 wraps
      around). */
  function WithOperand(n: int, op: Op): (r: Result<seq<Op>, EmitError>)
    ensures r.Err? <==> n > 0x7FFF
    ensures r.Err? ==> r.error == OperandTooLarge(n)
    ensures r.Ok? ==> |r.value| == 2 && r.value[0].PushImmediate? && r.value[1] == op
    ensures r.Ok? ==> (r.value[0].imm - n) % 0x1_0000 == 0
    ensures r.Ok? && -0x8000 <= n ==> r.value[0].imm == n
  {
    if n > 0x7FFF then Err(OperandTooLarge(n)) else Ok([Op.PushImmediate(AsI16(n)), op])
  }

  /** `PushInline(v)`: one PushImmediate up to 0x7FFF, one PushImmediate24
      whose three bytes decode back to v up to 0xFFFFFF, and otherwise the
      index of v's first occurrence in the constant pool followed by
      PushConst. It fails exactly when a wide v is not among the first
      0x8000 constants. */
  function EmitPushInline(v: int, consts: seq<int>): (r: Result<seq<Op>, EmitError>)
    ensures r.Err? <==> v > 0xFF_FFFF && forall i :: 0 <= i < |consts| && i <= 0x7FFF ==> consts[i] != v
    ensures v <= 0x7FFF ==> r.Ok? && |r.value| == 1 && r.value[0].PushImmediate?
    ensures -0x8000 <= v <= 0x7FFF ==> r.value[0].imm == v
    ensures 0x7FFF < v <= 0xFF_FFFF ==>
              r.Ok? && |r.value| == 1 && r.value[0].PushImmediate24? && Bytecode.IntoU32(r.value[0].imm24) == v
    ensures v > 0xFF_FFFF && r.Ok? ==>
              |r.value| == 2 && r.value[1] == Op.PushConst && r.value[0].PushImmediate? &&
              0 <= r.value[0].imm < |consts| && consts[r.value[0].imm] == v && v !in consts[..r.value[0].imm]
  {
    if v <= 0x7FFF then Ok([Op.PushImmediate(AsI16(v))])
    else if v <= 0xFF_FFFF then
      Bytecode.Uint24RoundTrip(v);
      Ok([Op.PushImmediate24(Bytecode.FromU32(v))])
    else
      match FirstIndex(consts, v)
      case None => Err(MissingConst(v))
      case Some(i) =>
        if i > 0x7FFF then
          assert consts[i] == v;
          Err(OperandTooLarge(i))
        else
          Ok([Op.PushImmediate(i), Op.PushConst])
  }

  /** `Jmp(cond, label)` emitted when the output already holds `pos` ops:
      the distance from the Jmp op (at pos + 1) to the label, then the Jmp.
      The machine's taken jump goes to the Jmp's own index plus the popped
      distance, which is the label's address whenever the distance fits in
      16 bits. */
  function EmitJmp(c: Bytecode.Cond, l: string, labels: map<string, nat>, pos: nat): (r: Result<seq<Op>, EmitError>)
    ensures r.Err? <==> l !in labels
    ensures r.Err? ==> r.error == MissingLabel(l)
    ensures r.Ok? ==> |r.value| == 2 && r.value[0].PushImmediate? && r.value[1] == Op.Jmp(c)
    ensures r.Ok? ==> (pos + 1 + r.value[0].imm - labels[l]) % 0x1_0000 == 0
    ensures r.Ok? && -0x8000 <= labels[l] - pos - 1 < 0x8000 ==> pos + 1 + r.value[0].imm == labels[l]
  {
    if l !in labels then Err(MissingLabel(l))
    else Ok([Op.PushImmediate(AsI16(labels[l] - pos - 1)), Op.Jmp(c)])
  }

  /** `Pop(n)`: nothing for 0, a single Pop(One) for 1, and otherwise the
      count as an immediate followed by Pop(Top). */
  function EmitPop(n: int): (r: Result<seq<Op>, EmitError>)
    ensures n == 0 ==> r == Ok([])
    ensures n == 1 ==> r == Ok([Op.Pop(Bytecode.PopMode.One)])
    ensures r.Err? <==> n > 0x7FFF
    ensures n != 0 && n != 1 && r.Ok? ==>
              |r.value| == 2 && r.value[0].PushImmediate? && r.value[1] == Op.Pop(Bytecode.PopMode.Top) &&
              (-0x8000 <= n ==> r.value[0].imm == n)
  {
    if n == 0 then Ok([])
    else if n == 1 then Ok([Op.Pop(Bytecode.PopMode.One)])
    else WithOperand(n, Op.Pop(Bytecode.PopMode.Top))
  }

  /** What `emit` appends for one statement when the output already holds
      `pos` ops. Whatever it accepts occupies exactly `num_ops` ops, and a
      label emits nothing. */
  function EmitOps(s: Stmt, labels: map<string, nat>, consts: seq<int>, pos: nat): (r: Result<seq<Op>, EmitError>)
    ensures r.Ok? ==> |r.value| == NumOps(s)
    ensures s.Label? ==> r == Ok([])
    ensures s.Arith? ==> r == Ok([Op.Arith(s.op)])
    ensures s.Output? ==> r.Ok? && r.value[0].Output? && (r.value[0].channel - s.channel) % 0x1_0000 == 0
  {
    match s
    case PushInline(v) => EmitPushInline(v, consts)
    case PushConst(i) => WithOperand(i, Op.PushConst)
    case PushStack(i) => WithOperand(i, Op.PushStack)
    case Jmp(c, l) => EmitJmp(c, l, labels, pos)
    case Arith(op) => Ok([Op.Arith(op)])
    case Output(ch) => Ok([Op.Output(AsU16(ch))])
    case Pop(n) => EmitPop(n)
    case Move(offs) => WithOperand(offs, Op.Move)
    case Label(_) => Ok([])
    case Noop => Ok([Op.Noop])
  }

  /** `Stmt::emit`: appends the statement's ops to `out`, or panics without
      appending anything. */
  method Emit(s: Stmt, labels: map<string, nat>, consts: seq<int>, out: seq<Op>) returns (r: Result<seq<Op>, EmitError>)
    ensures EmitOps(s, labels, consts, |out|).Ok? ==> r == Ok(out + EmitOps(s, labels, consts, |out|).value)
    ensures EmitOps(s, labels, consts, |out|).Err? ==> r == Err(EmitOps(s, labels, consts, |out|).error)
  {
    var o := out;
    match s {
      case PushInline(v) =>
        if v <= 0x7FFF {
          o := o + [Op.PushImmediate(AsI16(v))];
        } else if v <= 0xFF_FFFF {
          o := o + [Op.PushImmediate24(Bytecode.FromU32(v))];
        } else {
          var i := Position(consts, v);
          if i.None? {
            return Err(MissingConst(v));
          }
          if i.value > 0x7FFF {
            return Err(OperandTooLarge(i.value));
          }
          o := o + [Op.PushImmediate(i.value)];
          o := o + [Op.PushConst];
          assert o == out + [Op.PushImmediate(i.value), Op.PushConst];
        }
        return Ok(o);
      case PushConst(i) =>
        if i > 0x7FFF {
          return Err(OperandTooLarge(i));
        }
        o := o + [Op.PushImmediate(AsI16(i))];
        o := o + [Op.PushConst];
        assert o == out + [Op.PushImmediate(AsI16(i)), Op.PushConst];
        return Ok(o);
      case PushStack(i) =>
        if i > 0x7FFF {
          return Err(OperandTooLarge(i));
        }
        o := o + [Op.PushImmediate(AsI16(i))];
        o := o + [Op.PushStack];
        assert o == out + [Op.PushImmediate(AsI16(i)), Op.PushStack];
        return Ok(o);
      case Jmp(c, l) =>
        if l !in labels {
          return Err(MissingLabel(l));
        }
        var rel := labels[l] - |o|;
        o := o + [Op.PushImmediate(AsI16(rel - 1))];
        o := o + [Op.Jmp(c)];
        assert o == out + [Op.PushImmediate(AsI16(rel - 1)), Op.Jmp(c)];
        return Ok(o);
      case Arith(op) =>
        return Ok(o + [Op.Arith(op)]);
      case Output(ch) =>
        return Ok(o + [Op.Output(AsU16(ch))]);
      case Pop(n) =>
        if n == 0 {
          assert o == out + [];
          return Ok(o);
        } else if n == 1 {
          return Ok(o + [Op.Pop(Bytecode.PopMode.One)]);
        }
        if n > 0x7FFF {
          return Err(OperandTooLarge(n));
        }
        o := o + [Op.PushImmediate(AsI16(n))];
        o := o + [Op.Pop(Bytecode.PopMode.Top)];
        assert o == out + [Op.PushImmediate(AsI16(n)), Op.Pop(Bytecode.PopMode.Top)];
        return Ok(o);
      case Move(offs) =>
        if offs > 0x7FFF {
          return Err(OperandTooLarge(offs));
        }
        o := o + [Op.PushImmediate(AsI16(offs))];
        o := o + [Op.Move];
        assert o == out + [Op.PushImmediate(AsI16(offs)), Op.Move];
        return Ok(o);
      case Label(_) =>
        assert o == out + [];
        return Ok(o);
      case Noop =>
        return Ok(o + [Op.Noop]);
    }
  }

  /** The linear search behind `position`. */
  method Position(consts: seq<int>, v: int) returns (r: Option<nat>)
    ensures r == FirstIndex(consts, v)
  {
    var i := 0;
    while i < |consts|
      invariant 0 <= i <= |consts|
      invariant v !in consts[..i]
    {
      if consts[i] == v {
        FirstIndexIsFirst(consts, v, i);
        return Some(i);
      }
      assert consts[..i + 1] == consts[..i] + [consts[i]];
      i := i + 1;
    }
    assert consts[..i] == consts;
    return None;
  }

  /** The first index is determined by the value it holds and the absence of
      the value before it. */
  lemma FirstIndexIsFirst(consts: seq<int>, v: int, i: nat)
    requires i < |consts| && consts[i] == v && v !in consts[..i]
    ensures FirstIndex(consts, v) == Some(i)
  {
  }

  // ----- Pass 1: label addresses -----

  /** The loop of `label_locations` from some point on: `labels` and `ip`
      are the map and the address reached so far. */
  function Locate(stmts: seq<Stmt>, labels: map<string, nat>, ip: nat): map<string, nat>
  {
    if |stmts| == 0 then labels
    else
      var labels' := if stmts[0].Label? then labels[stmts[0].name := ip] else labels;
      Locate(stmts[1..], labels', ip + NumOps(stmts[0]))
  }

  /** `label_locations`. */
  method LabelLocations(stmts: seq<Stmt>) returns (labels: map<string, nat>)
    ensures labels == Locate(stmts, map[], 0)
  {
    labels := map[];
    var ip: nat := 0;
    var i := 0;
    while i < |stmts|
      invariant 0 <= i <= |stmts|
      invariant Locate(stmts[i..], labels, ip) == Locate(stmts, map[], 0)
    {
      assert stmts[i..][1..] == stmts[i + 1..];
      if stmts[i].Label? {
        labels := labels[stmts[i].name := ip];
      }
      ip := ip + NumOps(stmts[i]);
      i := i + 1;
    }
  }

  /** Exactly the labels that occur in the statements get an address (besides
      those already in the map). */
  lemma {:induction false} LocateDomain(stmts: seq<Stmt>, labels: map<string, nat>, ip: nat, l: string)
    ensures l in Locate(stmts, labels, ip) <==> l in labels || Stmt.Label(l) in stmts
  {
    if |stmts| > 0 {
      var labels' := if stmts[0].Label? then labels[stmts[0].name := ip] else labels;
      LocateDomain(stmts[1..], labels', ip + NumOps(stmts[0]), l);
      assert stmts == [stmts[0]] + stmts[1..];
    }
  }

  /** A label that does not occur again keeps the address it had. */
  lemma {:induction false} LocateKeeps(stmts: seq<Stmt>, labels: map<string, nat>, ip: nat, l: string)
    requires l in labels && Stmt.Label(l) !in stmts
    ensures l in Locate(stmts, labels, ip) && Locate(stmts, labels, ip)[l] == labels[l]
  {
    if |stmts| > 0 {
      var labels' := if stmts[0].Label? then labels[stmts[0].name := ip] else labels;
      assert stmts[0] in stmts;
      assert forall x :: x in stmts[1..] ==> x in stmts;
      LocateKeeps(stmts[1..], labels', ip + NumOps(stmts[0]), l);
    }
  }

  /** A label's address is the size of everything before its last
      occurrence. */
  lemma {:induction false} LocateLast(stmts: seq<Stmt>, labels: map<string, nat>, ip: nat, k: nat)
    requires k < |stmts| && stmts[k].Label?
    requires stmts[k] !in stmts[k + 1..]
    ensures stmts[k].name in Locate(stmts, labels, ip)
    ensures Locate(stmts, labels, ip)[stmts[k].name] == ip + Size(stmts[..k])
  {
    var labels' := if stmts[0].Label? then labels[stmts[0].name := ip] else labels;
    if k == 0 {
      assert stmts[1..] == stmts[k + 1..];
      LocateKeeps(stmts[1..], labels', ip + NumOps(stmts[0]), stmts[0].name);
    } else {
      assert stmts[1..][k..] == stmts[k + 1..];
      LocateLast(stmts[1..], labels', ip + NumOps(stmts[0]), k - 1);
      SizeCons(stmts, k);
    }
  }

  // ----- Pass 2: the constant pool -----

  /** One step of `extract_constants`: a literal wider than 24 bits is added
      unless already present. */
  function AddConst(s: Stmt, c: seq<int>): seq<int>
  {
    if s.PushInline? && s.value > 0xFF_FFFF && s.value !in c then c + [s.value] else c
  }

  function Extracted(stmts: seq<Stmt>, c: seq<int>): seq<int>
  {
    if |stmts| == 0 then c else Extracted(stmts[1..], AddConst(stmts[0], c))
  }

  /** `extract_constants`: appends to the pool `c` in place. */
  method ExtractConstants(stmts: seq<Stmt>, c: seq<int>) returns (c': seq<int>)
    ensures c' == Extracted(stmts, c)
  {
    c' := c;
    var i := 0;
    while i < |stmts|
      invariant 0 <= i <= |stmts|
      invariant Extracted(stmts[i..], c') == Extracted(stmts, c)
    {
      assert stmts[i..][1..] == stmts[i + 1..];
      match stmts[i] {
        case PushInline(v) =>
          if v > 0xFF_FFFF && v !in c' {
            c' := c' + [v];
          }
        case _ =>
      }
      i := i + 1;
    }
  }

  predicate NoDuplicates(c: seq<int>)
  {
    forall i, j :: 0 <= i < j < |c| ==> c[i] != c[j]
  }

  /** The literals of `extract_constants`' statements that it adds. */
  predicate WideLiteralOf(stmts: seq<Stmt>, x: int)
  {
    x > 0xFF_FFFF && Stmt.PushInline(x) in stmts
  }

  /** The existing pool is kept as a prefix; only wide literals of the
      statements that were absent are added, each once. */
  lemma {:induction false} ExtractedExtends(stmts: seq<Stmt>, c: seq<int>)
    ensures c <= Extracted(stmts, c)
    ensures forall i :: |c| <= i < |Extracted(stmts, c)| ==>
              WideLiteralOf(stmts, Extracted(stmts, c)[i]) && Extracted(stmts, c)[i] !in c
    ensures NoDuplicates(c) ==> NoDuplicates(Extracted(stmts, c))
  {
    if |stmts| > 0 {
      var c' := AddConst(stmts[0], c);
      ExtractedExtends(stmts[1..], c');
      assert stmts == [stmts[0]] + stmts[1..];
      forall i | |c| <= i < |Extracted(stmts, c)|
        ensures WideLiteralOf(stmts, Extracted(stmts, c)[i]) && Extracted(stmts, c)[i] !in c
      {
        if i >= |c'| {
          assert WideLiteralOf(stmts[1..], Extracted(stmts, c)[i]);
          assert Extracted(stmts, c)[i] !in c';
        } else {
          assert Extracted(stmts, c)[i] == c'[i];
        }
      }
    }
  }

  /** Every wide literal of the statements is in the pool afterwards. */
  lemma {:induction false} ExtractedComplete(stmts: seq<Stmt>, c: seq<int>, x: int)
    requires WideLiteralOf(stmts, x)
    ensures x in Extracted(stmts, c)
  {
    var c' := AddConst(stmts[0], c);
    ExtractedExtends(stmts[1..], c');
    if stmts[0] != Stmt.PushInline(x) {
      assert Stmt.PushInline(x) in stmts[1..];
      ExtractedComplete(stmts[1..], c', x);
    } else {
      assert x in c';
    }
  }

  /** Statements are processed in order: the pool of a concatenation is the
      pool of the second part started from the pool of the first, so new
      literals appear in order of first occurrence. */
  lemma {:induction false} ExtractedAppend(a: seq<Stmt>, b: seq<Stmt>, c: seq<int>)
    ensures Extracted(a + b, c) == Extracted(b, Extracted(a, c))
  {
    if |a| == 0 {
      assert a + b == b;
    } else {
      assert (a + b)[1..] == a[1..] + b;
      ExtractedAppend(a[1..], b, AddConst(a[0], c));
    }
  }

  /** After `extract_constants`, the "missing const" panic of `emit` cannot
      happen for its statements, and with at most 0x8000 constants no wide
      literal is refused at all. */
  lemma ExtractedConstFound(stmts: seq<Stmt>, c: seq<int>, v: int)
    requires WideLiteralOf(stmts, v)
    ensures FirstIndex(Extracted(stmts, c), v).Some?
    ensures |Extracted(stmts, c)| <= 0x8000 ==> EmitPushInline(v, Extracted(stmts, c)).Ok?
  {
    ExtractedComplete(stmts, c, v);
  }

  // ----- Pass 3: emitting a statement list -----

  /** Emitting the statements in order onto `out`; the first panic ends it. */
  function EmitFrom(stmts: seq<Stmt>, labels: map<string, nat>, consts: seq<int>, out: seq<Op>): Result<seq<Op>, EmitError>
  {
    if |stmts| == 0 then Ok(out)
    else
      match EmitOps(stmts[0], labels, consts, |out|)
      case Err(e) => Err(e)
      case Ok(ops) => EmitFrom(stmts[1..], labels, consts, out + ops)
  }

  /** The `for stmt in stmts { stmt.emit(..) }` loop of the assembler. */
  method EmitAll(stmts: seq<Stmt>, labels: map<string, nat>, consts: seq<int>, out: seq<Op>) returns (r: Result<seq<Op>, EmitError>)
    ensures r == EmitFrom(stmts, labels, consts, out)
  {
    var o := out;
    var i := 0;
    while i < |stmts|
      invariant 0 <= i <= |stmts|
      invariant EmitFrom(stmts[i..], labels, consts, o) == EmitFrom(stmts, labels, consts, out)
    {
      assert stmts[i..][1..] == stmts[i + 1..];
      r := Emit(stmts[i], labels, consts, o);
      if r.Err? {
        return r;
      }
      o := r.value;
      i := i + 1;
    }
    return Ok(o);
  }

  /** The output grows by exactly the size of the statements. */
  lemma {:induction false} EmitFromSize(stmts: seq<Stmt>, labels: map<string, nat>, consts: seq<int>, out: seq<Op>)
    requires EmitFrom(stmts, labels, consts, out).Ok?
    ensures out <= EmitFrom(stmts, labels, consts, out).value
    ensures |EmitFrom(stmts, labels, consts, out).value| == |out| + Size(stmts)
  {
    if |stmts| > 0 {
      var ops := EmitOps(stmts[0], labels, consts, |out|).value;
      EmitFromSize(stmts[1..], labels, consts, out + ops);
    }
  }

  lemma PrefixSlice(out: seq<Op>, ops: seq<Op>, bc: seq<Op>)
    requires out + ops <= bc
    ensures bc[|out| .. |out| + |ops|] == ops
  {
    assert bc[..|out| + |ops|] == out + ops;
  }

  /** Statement k's ops sit at the address given by the size of the
      statements before it, emitted for exactly that position. */
  lemma {:induction false} EmitFromPlaces(stmts: seq<Stmt>, labels: map<string, nat>, consts: seq<int>, out: seq<Op>, k: nat)
    requires k < |stmts| && EmitFrom(stmts, labels, consts, out).Ok?
    ensures |out| + Size(stmts[..k]) + NumOps(stmts[k]) <= |EmitFrom(stmts, labels, consts, out).value|
    ensures EmitOps(stmts[k], labels, consts, |out| + Size(stmts[..k])) ==
            Ok(EmitFrom(stmts, labels, consts, out).value[|out| + Size(stmts[..k]) .. |out| + Size(stmts[..k]) + NumOps(stmts[k])])
  {
    var bc := EmitFrom(stmts, labels, consts, out).value;
    var ops := EmitOps(stmts[0], labels, consts, |out|).value;
    assert EmitFrom(stmts[1..], labels, consts, out + ops) == Ok(bc);
    EmitFromSize(stmts[1..], labels, consts, out + ops);
    if k == 0 {
      PrefixSlice(out, ops, bc);
    } else {
      var rest := stmts[1..];
      EmitFromPlaces(rest, labels, consts, out + ops, k - 1);
      SizeCons(stmts, k);
      assert rest[k - 1] == stmts[k];
      var p := |out + ops| + Size(rest[..k - 1]);
      assert p == |out| + Size(stmts[..k]);
      assert EmitOps(stmts[k], labels, consts, p) == Ok(bc[p .. p + NumOps(stmts[k])]);
    }
  }

  // ----- What the passes achieve together -----

  /** A label's address is the index of the first op emitted after it:
      when the statement after the label's last occurrence emits anything,
      `bc[labels[l]]` is the first op that statement emits there. */
  lemma LabelAddressesNextStmt(stmts: seq<Stmt>, consts: seq<int>, k: nat, bc: seq<Op>)
    requires k + 1 < |stmts| && stmts[k].Label? && stmts[k] !in stmts[k + 1..]
    requires NumOps(stmts[k + 1]) > 0
    requires EmitFrom(stmts, Locate(stmts, map[], 0), consts, []) == Ok(bc)
    ensures stmts[k].name in Locate(stmts, map[], 0)
    ensures var a := Locate(stmts, map[], 0)[stmts[k].name];
      && a < |bc|
      && EmitOps(stmts[k + 1], Locate(stmts, map[], 0), consts, a).Ok?
      && bc[a] == EmitOps(stmts[k + 1], Locate(stmts, map[], 0), consts, a).value[0]
  {
    var labels := Locate(stmts, map[], 0);
    LocateLast(stmts, map[], 0, k);
    SizeNext(stmts, k);
    EmitFromPlaces(stmts, labels, consts, [], k + 1);
  }

  /** The case `asm_labels` checks for each of its labels: the statement
      after the label is a PushInline of a value that fits 16 bits, so the
      label addresses the PushImmediate of that value. */
  lemma LabelAddressesNextOp(stmts: seq<Stmt>, consts: seq<int>, k: nat, bc: seq<Op>)
    requires k + 1 < |stmts| && stmts[k].Label? && stmts[k] !in stmts[k + 1..]
    requires stmts[k + 1].PushInline? && -0x8000 <= stmts[k + 1].value <= 0x7FFF
    requires EmitFrom(stmts, Locate(stmts, map[], 0), consts, []) == Ok(bc)
    ensures stmts[k].name in Locate(stmts, map[], 0)
    ensures Locate(stmts, map[], 0)[stmts[k].name] < |bc|
    ensures bc[Locate(stmts, map[], 0)[stmts[k].name]] == Op.PushImmediate(stmts[k + 1].value)
  {
    LabelAddressesNextStmt(stmts, consts, k, bc);
  }

  /** A jump emitted by the assembler reaches its label: the distance pushed
      before the Jmp op, added to the Jmp op's own index, is the label's
      address (when that distance fits 16 bits). */
  lemma JumpReachesLabel(stmts: seq<Stmt>, labels: map<string, nat>, consts: seq<int>, k: nat, bc: seq<Op>)
    requires k < |stmts| && stmts[k].Jmp?
    requires EmitFrom(stmts, labels, consts, []) == Ok(bc)
    requires stmts[k].target in labels && -0x8000 <= labels[stmts[k].target] - Size(stmts[..k]) - 1 < 0x8000
    ensures Size(stmts[..k]) + 1 < |bc|
    ensures bc[Size(stmts[..k]) + 1] == Op.Jmp(stmts[k].cond)
    ensures bc[Size(stmts[..k])].PushImmediate?
    ensures Size(stmts[..k]) + 1 + bc[Size(stmts[..k])].imm == labels[stmts[k].target]
  {
    EmitFromPlaces(stmts, labels, consts, [], k);
  }

  // ----- Acceptance -----

  /** Whether `emit` accepts a statement. Only a jump depends on the
      position, and only in the distance it pushes, so position 0 stands for
      every position. */
  predicate Accepted(s: Stmt, labels: map<string, nat>, consts: seq<int>)
  {
    EmitOps(s, labels, consts, 0).Ok?
  }

  /** When every statement is accepted, emitting the list succeeds. */
  lemma {:induction false} EmitFromOk(stmts: seq<Stmt>, labels: map<string, nat>, consts: seq<int>, out: seq<Op>)
    requires forall s :: s in stmts ==> Accepted(s, labels, consts)
    ensures EmitFrom(stmts, labels, consts, out).Ok?
  {
    if |stmts| > 0 {
      assert stmts[0] in stmts;
      assert EmitOps(stmts[0], labels, consts, |out|).Ok?;
      var ops := EmitOps(stmts[0], labels, consts, |out|).value;
      assert forall s :: s in stmts[1..] ==> s in stmts;
      EmitFromOk(stmts[1..], labels, consts, out + ops);
    }
  }

  /** Each step of `extract_constants` adds at most one constant. */
  lemma {:induction false} ExtractedLength(stmts: seq<Stmt>, c: seq<int>)
    ensures |Extracted(stmts, c)| <= |c| + |stmts|
  {
    if |stmts| > 0 {
      ExtractedLength(stmts[1..], AddConst(stmts[0], c));
    }
  }

  // ----- Programs of hops, and the asm_labels test -----

  /** A block of four statements: jump to a fresh label over one other
      statement, the label, and a push of a value that fits 16 bits. The
      `asm_labels` test is nine such hops, one per kind of skipped
      statement. */
  datatype Hop = Hop(name: string, skipped: Stmt, value: i16)

  function HopStmts(h: Hop): seq<Stmt>
  {
    [Stmt.Jmp(Bytecode.Cond.Always, h.name), h.skipped, Stmt.Label(h.name), Stmt.PushInline(h.value)]
  }

  function Hops(hs: seq<Hop>): (stmts: seq<Stmt>)
    ensures |stmts| == 4 * |hs|
  {
    if |hs| == 0 then [] else HopStmts(hs[0]) + Hops(hs[1..])
  }

  /** A statement that `emit` accepts whatever the labels, and whose wide
      literal (if any) is in the pool: no label and no jump, and an operand
      within the immediate range. */
  predicate Skippable(s: Stmt)
  {
    && !s.Label? && !s.Jmp?
    && (s.PushConst? ==> s.index <= 0x7FFF)
    && (s.PushStack? ==> s.offset <= 0x7FFF)
    && (s.Move? ==> s.offset <= 0x7FFF)
    && (s.Pop? ==> s.count <= 0x7FFF)
  }

  /** Distinct label names, skippable statements, and few enough hops for
      every constant index to fit an immediate. */
  predicate WellFormedHops(hs: seq<Hop>)
  {
    && |hs| <= 0x2000
    && (forall i :: 0 <= i < |hs| ==> Skippable(hs[i].skipped))
    && (forall i, j :: 0 <= i < j < |hs| ==> hs[i].name != hs[j].name)
  }

  /** Where hop i's statements sit in the statement list. */
  lemma {:induction false} HopsAt(hs: seq<Hop>, i: nat)
    requires i < |hs|
    ensures Hops(hs)[4 * i] == Stmt.Jmp(Bytecode.Cond.Always, hs[i].name)
    ensures Hops(hs)[4 * i + 2] == Stmt.Label(hs[i].name)
    ensures Hops(hs)[4 * i + 3] == Stmt.PushInline(hs[i].value)
    ensures Hops(hs)[4 * i + 3..] == [Stmt.PushInline(hs[i].value)] + Hops(hs[i + 1..])
  {
    if i > 0 {
      HopsAt(hs[1..], i - 1);
      assert hs[1..][i - 1] == hs[i];
      assert hs[1..][i..] == hs[i + 1..];
      assert Hops(hs)[4..] == Hops(hs[1..]);
    }
  }

  /** Every statement of a hop program is a statement of one of its hops. */
  lemma {:induction false} HopsMember(hs: seq<Hop>, s: Stmt) returns (i: nat)
    requires s in Hops(hs)
    ensures i < |hs| && s in HopStmts(hs[i])
  {
    if s in HopStmts(hs[0]) {
      i := 0;
    } else {
      var j := HopsMember(hs[1..], s);
      i := j + 1;
    }
  }

  /** The labels of a hop program are the names of its hops. */
  lemma {:induction false} HopsLabels(hs: seq<Hop>, x: string)
    requires forall i :: 0 <= i < |hs| ==> !hs[i].skipped.Label?
    ensures Stmt.Label(x) in Hops(hs) <==> exists i :: 0 <= i < |hs| && hs[i].name == x
  {
    if |hs| > 0 {
      HopsLabels(hs[1..], x);
      if Stmt.Label(x) in Hops(hs) && Stmt.Label(x) !in HopStmts(hs[0]) {
        var i :| 0 <= i < |hs| - 1 && hs[1..][i].name == x;
        assert hs[i + 1].name == x;
      }
      if exists i :: 0 <= i < |hs| && hs[i].name == x {
        var i :| 0 <= i < |hs| && hs[i].name == x;
        if i > 0 {
          assert hs[1..][i - 1].name == x;
        }
      }
    }
  }

  /** Every statement of a well-formed hop program is accepted once its
      labels are located and its constants extracted. */
  lemma HopsAccepted(hs: seq<Hop>)
    requires WellFormedHops(hs)
    ensures EmitFrom(Hops(hs), Locate(Hops(hs), map[], 0), Extracted(Hops(hs), []), []).Ok?
  {
    var stmts := Hops(hs);
    var labels := Locate(stmts, map[], 0);
    var consts := Extracted(stmts, []);
    ExtractedLength(stmts, []);
    forall s | s in stmts
      ensures Accepted(s, labels, consts)
    {
      var i := HopsMember(hs, s);
      if s.Jmp? {
        assert s == Stmt.Jmp(Bytecode.Cond.Always, hs[i].name);
        HopsLabels(hs, hs[i].name);
        LocateDomain(stmts, map[], 0, hs[i].name);
      } else if s.PushInline? && s.value > 0xFF_FFFF {
        ExtractedConstFound(stmts, [], s.value);
      }
    }
    EmitFromOk(stmts, labels, consts, []);
  }

  /** In a well-formed hop program every hop's label addresses the
      PushImmediate of that hop's value: the jump over the skipped statement
      lands on the push. */
  lemma HopLands(hs: seq<Hop>, i: nat)
    requires WellFormedHops(hs) && i < |hs|
    ensures EmitFrom(Hops(hs), Locate(Hops(hs), map[], 0), Extracted(Hops(hs), []), []).Ok?
    ensures var labels := Locate(Hops(hs), map[], 0);
            var bc := EmitFrom(Hops(hs), labels, Extracted(Hops(hs), []), []).value;
            hs[i].name in labels && labels[hs[i].name] < |bc| && bc[labels[hs[i].name]] == Op.PushImmediate(hs[i].value)
  {
    var stmts := Hops(hs);
    HopsAccepted(hs);
    HopsAt(hs, i);
    var k := 4 * i + 2;
    assert stmts[k + 1..] == [Stmt.PushInline(hs[i].value)] + Hops(hs[i + 1..]);
    HopsLabels(hs[i + 1..], hs[i].name);
    assert stmts[k] !in stmts[k + 1..];
    var bc := EmitFrom(stmts, Locate(stmts, map[], 0), Extracted(stmts, []), []).value;
    LabelAddressesNextOp(stmts, Extracted(stmts, []), k, bc);
  }

  /** The hops of the `asm_labels` test. */
  lemma LabelsTestWellFormed(hs: seq<Hop>)
    requires hs == [
      Hop("jmp_const", Stmt.PushConst(0), 123),
      Hop("jmp_stack", Stmt.PushStack(0), 124),
      Hop("jmp_inline", Stmt.PushInline(1), 125),
      Hop("jmp_inline24", Stmt.PushInline(0xF_FFFF), 126),
      Hop("jmp_inline_?", Stmt.PushInline(0xFFF_FFFF), 127),
      Hop("jmp_inline_large", Stmt.PushInline(0xF_FFFF_FFFF), 128),
      Hop("jmp_pop_0", Stmt.Pop(0), 129),
      Hop("jmp_pop_top", Stmt.Pop(1), 130),
      Hop("jmp_pop_large", Stmt.Pop(0x7FFF), 131)]
    ensures WellFormedHops(hs)
  {
  }

  /** `asm_labels`: after both passes, emitting and appending the final
      Noop, each label the test looks up addresses the PushImmediate of the
      value pushed right after it. */
  lemma LabelsTest(hs: seq<Hop>)
    requires hs == [
      Hop("jmp_const", Stmt.PushConst(0), 123),
      Hop("jmp_stack", Stmt.PushStack(0), 124),
      Hop("jmp_inline", Stmt.PushInline(1), 125),
      Hop("jmp_inline24", Stmt.PushInline(0xF_FFFF), 126),
      Hop("jmp_inline_?", Stmt.PushInline(0xFFF_FFFF), 127),
      Hop("jmp_inline_large", Stmt.PushInline(0xF_FFFF_FFFF), 128),
      Hop("jmp_pop_0", Stmt.Pop(0), 129),
      Hop("jmp_pop_top", Stmt.Pop(1), 130),
      Hop("jmp_pop_large", Stmt.Pop(0x7FFF), 131)]
    ensures EmitFrom(Hops(hs), Locate(Hops(hs), map[], 0), Extracted(Hops(hs), []), []).Ok?
    ensures var labels := Locate(Hops(hs), map[], 0);
            var bc := EmitFrom(Hops(hs), labels, Extracted(Hops(hs), []), []).value + [Op.Noop];
            && "jmp_pop_large" in labels && labels["jmp_pop_large"] < |bc| && bc[labels["jmp_pop_large"]] == Op.PushImmediate(131)
            && "jmp_pop_top" in labels && labels["jmp_pop_top"] < |bc| && bc[labels["jmp_pop_top"]] == Op.PushImmediate(130)
            && "jmp_pop_0" in labels && labels["jmp_pop_0"] < |bc| && bc[labels["jmp_pop_0"]] == Op.PushImmediate(129)
            && "jmp_inline_large" in labels && labels["jmp_inline_large"] < |bc| && bc[labels["jmp_inline_large"]] == Op.PushImmediate(128)
            && "jmp_inline24" in labels && labels["jmp_inline24"] < |bc| && bc[labels["jmp_inline24"]] == Op.PushImmediate(126)
            && "jmp_inline" in labels && labels["jmp_inline"] < |bc| && bc[labels["jmp_inline"]] == Op.PushImmediate(125)
            && "jmp_stack" in labels && labels["jmp_stack"] < |bc| && bc[labels["jmp_stack"]] == Op.PushImmediate(124)
            && "jmp_const" in labels && labels["jmp_const"] < |bc| && bc[labels["jmp_const"]] == Op.PushImmediate(123)
  {
    LabelsTestWellFormed(hs);
    HopLands(hs, 8);
    HopLands(hs, 7);
    HopLands(hs, 6);
    HopLands(hs, 5);
    HopLands(hs, 3);
    HopLands(hs, 2);
    HopLands(hs, 1);
    HopLands(hs, 0);
  }
}

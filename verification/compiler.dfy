/** The code generator of src/bin/compiler.rs. It lowers the syntax tree of
    the language to assembly statements for the assembler of src/asm.rs,
    tracking at compile time how deep the VM's operand stack will be. A
    `ScopeStack` holds one `StackFrame` per open block; each frame records the
    stack slot of every identifier bound in it (`bindings`), the tracked
    stack depth (`stackTop`) and the slot of its latest binding
    (`bindingsTop`), below which values may not be popped. A variable is read
    by its distance from the top of the stack, so `resolve` turns a slot into
    an offset.

    The functions `GenExpr`, `GenStmt` and their companions say what the
    generator produces from a state `Gen` (frames, output, label counters);
    the classes `ScopeStack` and `CodeGen` do the same work in place, and each
    of their methods is proved to agree with the function. Every assertion
    and `unwrap` of the source that can fail becomes a `CompileError`. */
module Compiler {
  import opened Wrappers
  import Ast
  import Bytecode

  type Ident = Ast.Ident

  // ----- The syntax the generator reads -----

  /** The compiler's expressions: those of src/ast.rs plus function calls. */
  datatype Expr =
    | Number(v: int)
    | EnvLoad(ident: Ident)
    | Op(left: Expr, opcode: Ast.Opcode, right: Expr)
    | Call(name: Ident, args: seq<Expr>)
    | Error

  /** The compiler's statements. `Assign` may carry a compound operator
      (`a += e`), which the generator rejects; a `Block` whose
      `cleanupStack` is false leaves its last value on the stack. */
  datatype Stmt =
    | LetBinding(ident: Ident, expr: Expr)
    | Assign(ident: Ident, expr: Expr, compound: Option<Ast.Opcode>)
    | IfElse(cond: Expr, thenStmt: Stmt, elseStmt: Option<Stmt>)
    | While(cond: Expr, body: Stmt)
    | Block(stmts: seq<Stmt>, cleanupStack: bool)
    | Print(exprs: seq<Expr>)
    | Call(call: Expr)
    | Return(value: Expr)

  /** The assembly statements the compiler emits. Jumps name their target
      label, or none for a return through the address on the stack. */
  datatype AsmStmt =
    | PushInline(value: int)
    | PushConst(index: int)
    | PushStack(offset: int)
    | Jmp(cond: Bytecode.Cond, target: Option<string>)
    | Arith(op: Bytecode.ArithOp)
    | Output(channel: int)
    | Pop(count: int)
    | Move(offset: int)
    | Label(name: string)
    | Noop
    | Call(name: string)

  /** The panics of the generator. */
  datatype CompileError =
    | NoFrame                 // `frames.last().unwrap()` on no frames
    | NoEnclosingFrame        // `pop_frame` on the outermost frame
    | FrameShrank             // `pop_frame`: the frame ends below where it began
    | EmptyStack              // `add_binding` with nothing on the stack
    | PopBelowBindings        // `pop_local` would drop a bound slot
    | StaleBinding(ident: Ident)   // `resolve`: the slot is no longer on the stack
    | UnknownBinding(ident: Ident) // an identifier bound nowhere
    | CompoundAssign          // an assignment with an operator
    | NoBlockValue            // a value block that pushed nothing
    | ErrorExpr               // an `Error` node left by the parser
    | UnknownFunction(name: Ident) // a called name missing from the table

  /** A method's outcome as the corresponding function states it. */
  function Outcome<T>(v: T, err: Option<CompileError>): Result<T, CompileError>
  {
    if err.None? then Ok(v) else Err(err.value)
  }

  // ----- Frames -----

  datatype StackFrame = StackFrame(bindings: map<Ident, nat>, stackTop: nat, bindingsTop: nat)

  function Top(fs: seq<StackFrame>): nat
    requires |fs| > 0
  {
    fs[|fs| - 1].stackTop
  }

  /** The frames with the innermost stack top raised by k. */
  function Raised(fs: seq<StackFrame>, k: nat): seq<StackFrame>
  {
    if |fs| == 0 then fs else fs[|fs| - 1 := fs[|fs| - 1].(stackTop := Top(fs) + k)]
  }

  /** `push_frame`: a new innermost frame, with no bindings, starting at the
      enclosing frame's stack top. */
  function FramePushed(fs: seq<StackFrame>): (r: Result<seq<StackFrame>, CompileError>)
    ensures r.Err? <==> |fs| == 0
    ensures r.Ok? ==>
              && |r.value| == |fs| + 1 && r.value[..|fs|] == fs
              && r.value[|fs|].bindings == map[]
              && r.value[|fs|].stackTop == Top(fs) && r.value[|fs|].bindingsTop == Top(fs)
  {
    if |fs| == 0 then Err(NoFrame)
    else Ok(fs + [StackFrame(map[], Top(fs), Top(fs))])
  }

  /** `pop_frame`: drops the innermost frame and returns by how much it grew
      the stack; it fails when no frame would remain and when the frame ends
      below where the enclosing one does. */
  function FramePopped(fs: seq<StackFrame>): (r: Result<(seq<StackFrame>, nat), CompileError>)
    ensures r.Err? <==> |fs| < 2 || Top(fs) < Top(fs[..|fs| - 1])
    ensures r.Ok? ==> r.value.0 == fs[..|fs| - 1] && Top(r.value.0) + r.value.1 == Top(fs)
  {
    if |fs| == 0 then Err(NoFrame)
    else if |fs| == 1 then Err(NoEnclosingFrame)
    else
      var outer := fs[..|fs| - 1];
      if Top(fs) < Top(outer) then Err(FrameShrank) else Ok((outer, Top(fs) - Top(outer)))
  }

  /** `push_local`. */
  function LocalPushed(fs: seq<StackFrame>): Result<seq<StackFrame>, CompileError>
  {
    if |fs| == 0 then Err(NoFrame) else Ok(Raised(fs, 1))
  }

  /** `pop_local(num)`: lowers the innermost stack top by num; it fails when
      that would leave it below the frame's latest binding (including, the
      counters being unsigned, below zero). Raising the result by num gives
      back the frames. */
  function LocalsPopped(fs: seq<StackFrame>, num: nat): (r: Result<seq<StackFrame>, CompileError>)
    ensures r.Err? <==> |fs| == 0 || Top(fs) < num + fs[|fs| - 1].bindingsTop
    ensures r.Ok? ==>
              && |r.value| == |fs| && r.value[..|fs| - 1] == fs[..|fs| - 1]
              && r.value[|fs| - 1].bindings == fs[|fs| - 1].bindings
              && r.value[|fs| - 1].bindingsTop == fs[|fs| - 1].bindingsTop
              && Raised(r.value, num) == fs
  {
    if |fs| == 0 then Err(NoFrame)
    else
      var f := fs[|fs| - 1];
      if f.stackTop < num || f.stackTop - num < f.bindingsTop then Err(PopBelowBindings)
      else Ok(fs[|fs| - 1 := f.(stackTop := f.stackTop - num)])
  }

  /** `add_binding`: binds the identifier, in the innermost frame, to the
      slot on top of the stack, which becomes the frame's latest binding. */
  function Bound(fs: seq<StackFrame>, id: Ident): (r: Result<seq<StackFrame>, CompileError>)
    ensures r.Err? <==> |fs| == 0 || Top(fs) == 0
    ensures r.Ok? ==>
              && |r.value| == |fs| && r.value[..|fs| - 1] == fs[..|fs| - 1]
              && Top(r.value) == Top(fs)
              && r.value[|fs| - 1].bindings == fs[|fs| - 1].bindings[id := Top(fs) - 1]
              && r.value[|fs| - 1].bindingsTop + 1 == Top(fs)
  {
    if |fs| == 0 then Err(NoFrame)
    else
      var f := fs[|fs| - 1];
      if f.stackTop == 0 then Err(EmptyStack)
      else Ok(fs[|fs| - 1 := f.(bindings := f.bindings[id := f.stackTop - 1], bindingsTop := f.stackTop - 1)])
  }

  /** The slot of the innermost binding of id. */
  function Lookup(fs: seq<StackFrame>, id: Ident): Option<nat>
  {
    if |fs| == 0 then None
    else if id in fs[|fs| - 1].bindings then Some(fs[|fs| - 1].bindings[id])
    else Lookup(fs[..|fs| - 1], id)
  }

  /** `resolve`: the offset from the top of the stack of the innermost
      binding of id, None when id is bound in no frame, and a failure when
      the bound slot is no longer on the stack. */
  function Resolved(fs: seq<StackFrame>, id: Ident): (r: Result<Option<nat>, CompileError>)
    ensures r.Err? <==> |fs| == 0 || (Lookup(fs, id).Some? && Lookup(fs, id).value >= Top(fs))
    ensures r.Ok? ==> (r.value.None? <==> Lookup(fs, id).None?)
    ensures r.Ok? && r.value.Some? ==> Lookup(fs, id).value + r.value.value + 1 == Top(fs)
  {
    if |fs| == 0 then Err(NoFrame)
    else
      match Lookup(fs, id)
      case None => Ok(None)
      case Some(pos) => if Top(fs) > pos then Ok(Some(Top(fs) - pos - 1)) else Err(StaleBinding(id))
  }

  // ----- Properties of the scope stack -----

  /** Popping a frame just pushed gives back the frames, with zero growth. */
  lemma PushThenPopFrame(fs: seq<StackFrame>)
    requires |fs| > 0
    ensures FramePushed(fs).Ok? && FramePopped(FramePushed(fs).value) == Ok((fs, 0))
  {
    assert FramePushed(fs).value[..|fs|] == fs;
  }

  /** Popping num locals just pushed gives back the frames, provided the
      stack top was not already below the latest binding. */
  lemma PushThenPopLocals(fs: seq<StackFrame>, num: nat)
    requires |fs| > 0 && fs[|fs| - 1].bindingsTop <= Top(fs)
    ensures LocalsPopped(Raised(fs, num), num) == Ok(fs)
  {
    var f := fs[|fs| - 1];
    var r := Raised(fs, num);
    assert r[|fs| - 1 := r[|fs| - 1].(stackTop := Top(r) - num)] == fs;
  }

  /** Inner frames shadow outer ones: the binding found is the one in the
      innermost frame that binds id. */
  lemma {:induction false} LookupInnermost(fs: seq<StackFrame>, id: Ident, k: nat)
    requires k < |fs| && id in fs[k].bindings
    requires forall j :: k < j < |fs| ==> id !in fs[j].bindings
    ensures Lookup(fs, id) == Some(fs[k].bindings[id])
    decreases |fs|
  {
    if k < |fs| - 1 {
      var outer := fs[..|fs| - 1];
      assert outer[k] == fs[k];
      forall j | k < j < |outer| ensures id !in outer[j].bindings {
        assert outer[j] == fs[j];
      }
      LookupInnermost(outer, id, k);
    }
  }

  /** An identifier bound in no frame resolves to None, and only then. */
  lemma {:induction false} LookupUnbound(fs: seq<StackFrame>, id: Ident)
    ensures Lookup(fs, id).None? <==> forall j :: 0 <= j < |fs| ==> id !in fs[j].bindings
    decreases |fs|
  {
    if |fs| > 0 {
      var outer := fs[..|fs| - 1];
      LookupUnbound(outer, id);
      assert forall j :: 0 <= j < |outer| ==> outer[j] == fs[j];
    }
  }

  /** Right after `add_binding`, the identifier resolves to offset 0: the
      value on top of the stack. */
  lemma BindingResolvesToTop(fs: seq<StackFrame>, id: Ident)
    requires Bound(fs, id).Ok?
    ensures Resolved(Bound(fs, id).value, id) == Ok(Some(0))
  {
    var r := Bound(fs, id).value;
    assert id in r[|r| - 1].bindings;
  }

  // ----- Labels -----

  /** The generator's state: the scope stack, the assembly emitted so far
      and the per-template label counters. */
  datatype Gen = Gen(frames: seq<StackFrame>, out: seq<AsmStmt>, labelCount: map<string, nat>)

  function Count(counts: map<string, nat>, template: string): nat
  {
    if template in counts then counts[template] else 0
  }

  /** `alloc_label`: the template followed by the decimal numeral of how many
      labels it has produced before, after which its counter is one higher. */
  function Allocated(g: Gen, template: string): (r: (Gen, string))
    ensures r.0.frames == g.frames && r.0.out == g.out
    ensures Count(r.0.labelCount, template) == Count(g.labelCount, template) + 1
    ensures forall t :: t != template ==> Count(r.0.labelCount, t) == Count(g.labelCount, t)
    ensures |r.1| > |template| && r.1[..|template|] == template && r.1[|template|..] == Ast.NatToString(Count(g.labelCount, template))
  {
    var c := Count(g.labelCount, template);
    (g.(labelCount := g.labelCount[template := c + 1]), template + Ast.NatToString(c))
  }

  predicate DigitFree(t: string)
  {
    forall i :: 0 <= i < |t| ==> !Ast.IsDigit(t[i])
  }

  /** The templates `emit` allocates labels from. */
  predicate Template(t: string)
  {
    t == "if_end" || t == "else" || t == "if_else_begin" || t == "else_end" || t == "while" || t == "while_end"
  }

  lemma TemplateDigitFree(t: string)
    requires Template(t)
    ensures DigitFree(t)
  {
    if t == "if_end" {
    } else if t == "else" {
    } else if t == "if_else_begin" {
    } else if t == "else_end" {
    } else if t == "while" {
    }
  }

  /** A template followed by a numeral can be read back: the template is
      everything before the first digit. */
  lemma LabelSplits(t1: string, n1: nat, t2: string, n2: nat)
    requires DigitFree(t1) && DigitFree(t2)
    requires t1 + Ast.NatToString(n1) == t2 + Ast.NatToString(n2)
    ensures t1 == t2 && n1 == n2
  {
    var s1, s2 := Ast.NatToString(n1), Ast.NatToString(n2);
    var w := t1 + s1;
    assert w[|t1|] == s1[0] && Ast.IsDigit(w[|t1|]);
    assert w[|t2|] == s2[0] && Ast.IsDigit(w[|t2|]);
    assert |t1| == |t2|;
    assert t1 == w[..|t1|] == t2;
    assert s1 == w[|t1|..] == s2;
    Ast.NatToStringInjective(n1, n2);
  }

  /** No two allocations give the same label: once a template's counter has
      moved past an allocation, no later allocation, from that template or
      another, repeats its label. */
  lemma LabelsNeverRepeat(g: Gen, t: string, g': Gen, t': string)
    requires Template(t) && Template(t')
    requires Count(g'.labelCount, t) > Count(g.labelCount, t)
    ensures Allocated(g', t').1 != Allocated(g, t).1
  {
    TemplateDigitFree(t);
    TemplateDigitFree(t');
    if Allocated(g', t').1 == Allocated(g, t).1 {
      LabelSplits(t', Count(g'.labelCount, t'), t, Count(g.labelCount, t));
    }
  }

  /** The label a statement defines or jumps to, if any. */
  function LabelOf(a: AsmStmt): Option<string>
  {
    match a
    case Label(x) => Some(x)
    case Jmp(_, target) => target
    case _ => None
  }

  /** No template has handed out `x` while its counter was below `counts`. */
  ghost predicate Unallocated(x: string, counts: map<string, nat>)
  {
    forall t, k: nat {:trigger Template(t), Ast.NatToString(k)} :: Template(t) && k < Count(counts, t) ==> x != t + Ast.NatToString(k)
  }

  ghost predicate CountsBelow(c1: map<string, nat>, c2: map<string, nat>)
  {
    forall t :: Count(c1, t) <= Count(c2, t)
  }

  /** `r` is `o` followed by code that names no label. */
  predicate AppendsNoLabel(o: seq<AsmStmt>, r: seq<AsmStmt>)
  {
    o <= r && forall i :: |o| <= i < |r| ==> LabelOf(r[i]).None?
  }

  /** `r` is `o` followed by code every label of which is unallocated at
      the counters `counts`. */
  ghost predicate AppendsFresh(o: seq<AsmStmt>, r: seq<AsmStmt>, counts: map<string, nat>)
  {
    o <= r && forall i :: |o| <= i < |r| && LabelOf(r[i]).Some? ==> Unallocated(LabelOf(r[i]).value, counts)
  }

  /** A label allocated once the counters have reached `counts` was not
      handed out below them. */
  lemma AllocatedFresh(g: Gen, t: string, counts: map<string, nat>)
    requires Template(t) && CountsBelow(counts, g.labelCount)
    ensures Unallocated(Allocated(g, t).1, counts)
  {
    var x := Allocated(g, t).1;
    forall t0, k: nat | Template(t0) && k < Count(counts, t0)
      ensures x != t0 + Ast.NatToString(k)
    {
      if x == t0 + Ast.NatToString(k) {
        TemplateDigitFree(t);
        TemplateDigitFree(t0);
        LabelSplits(t, Count(g.labelCount, t), t0, k);
      }
    }
  }

  lemma NoLabelAppend(o: seq<AsmStmt>, r: seq<AsmStmt>, extra: seq<AsmStmt>)
    requires AppendsNoLabel(o, r)
    requires forall i :: 0 <= i < |extra| ==> LabelOf(extra[i]).None?
    ensures AppendsNoLabel(o, r + extra)
  {
    assert forall i :: |r| <= i < |r + extra| ==> (r + extra)[i] == extra[i - |r|];
  }

  lemma NoLabelChain(a: seq<AsmStmt>, b: seq<AsmStmt>, c: seq<AsmStmt>)
    requires AppendsNoLabel(a, b) && AppendsNoLabel(b, c)
    ensures AppendsNoLabel(a, c)
  {
    forall i | |a| <= i < |c|
      ensures LabelOf(c[i]).None?
    {
      if i < |b| {
        assert c[i] == b[i];
      }
    }
  }

  lemma NoLabelFresh(a: seq<AsmStmt>, b: seq<AsmStmt>, counts: map<string, nat>)
    requires AppendsNoLabel(a, b)
    ensures AppendsFresh(a, b, counts)
  {
  }

  lemma FreshAppend(o: seq<AsmStmt>, r: seq<AsmStmt>, extra: seq<AsmStmt>, counts: map<string, nat>)
    requires AppendsFresh(o, r, counts)
    requires forall i :: 0 <= i < |extra| && LabelOf(extra[i]).Some? ==> Unallocated(LabelOf(extra[i]).value, counts)
    ensures AppendsFresh(o, r + extra, counts)
  {
    assert forall i :: |r| <= i < |r + extra| ==> (r + extra)[i] == extra[i - |r|];
  }

  lemma FreshChain(a: seq<AsmStmt>, b: seq<AsmStmt>, c: seq<AsmStmt>, c1: map<string, nat>, c2: map<string, nat>)
    requires AppendsFresh(a, b, c1) && AppendsFresh(b, c, c2) && CountsBelow(c1, c2)
    ensures AppendsFresh(a, c, c1)
  {
    forall i | |a| <= i < |c| && LabelOf(c[i]).Some?
      ensures Unallocated(LabelOf(c[i]).value, c1)
    {
      if i < |b| {
        assert c[i] == b[i];
      }
    }
  }

  // ----- Code generation, as functions -----

  /** `>` and `>=` are compiled with their operands exchanged. */
  predicate Swaps(op: Ast.Opcode)
  {
    op.GreaterThan? || op.GreaterEqual?
  }

  /** The VM operation for each opcode; `>` and `>=` become `<` and `<=`. */
  function Lowered(op: Ast.Opcode): Bytecode.ArithOp
  {
    match op
    case Add => Bytecode.ArithOp.Add
    case Sub => Bytecode.ArithOp.Sub
    case Mul => Bytecode.ArithOp.Mul
    case Div => Bytecode.ArithOp.Div
    case Or => Bytecode.ArithOp.Or
    case And => Bytecode.ArithOp.And
    case Equal => Bytecode.ArithOp.Equal
    case NotEqual => Bytecode.ArithOp.NotEqual
    case LessThan => Bytecode.ArithOp.LessThan
    case GreaterThan => Bytecode.ArithOp.LessThan
    case LessEqual => Bytecode.ArithOp.LessEqual
    case GreaterEqual => Bytecode.ArithOp.LessEqual
  }

  /** `emit_expr`: code that leaves the expression's value on the stack.
      `env` names the functions a call may reach. */
  function GenExpr(env: map<Ident, string>, g: Gen, e: Expr): Result<Gen, CompileError>
    decreases e, 1
  {
    match e
    case Number(v) =>
      var fs :- LocalPushed(g.frames);
      Ok(g.(frames := fs, out := g.out + [PushInline(v)]))
    case EnvLoad(id) =>
      var offs :- Resolved(g.frames, id);
      if offs.None? then Err(UnknownBinding(id))
      else
        var fs :- LocalPushed(g.frames);
        Ok(g.(frames := fs, out := g.out + [PushStack(offs.value)]))
    case Op(a, op, b) =>
      var g1 :- GenExpr(env, g, if Swaps(op) then b else a);
      var g2 :- GenExpr(env, g1, if Swaps(op) then a else b);
      var fs :- LocalsPopped(g2.frames, 2);
      var fs' :- LocalPushed(fs);
      Ok(g2.(frames := fs', out := g2.out + [Arith(Lowered(op))]))
    case Call(name, args) =>
      var fs :- LocalPushed(g.frames);
      var g1 :- GenExprs(env, g.(frames := fs, out := g.out + [PushInline(0)]), args);
      if name !in env then Err(UnknownFunction(name))
      else
        var fs' :- LocalsPopped(g1.frames, |args|);
        Ok(g1.(frames := fs', out := g1.out + [AsmStmt.Call("func_" + env[name]), Pop(|args|)]))
    case Error => Err(ErrorExpr)
  }

  /** The arguments of a call, left to right. */
  function GenExprs(env: map<Ident, string>, g: Gen, es: seq<Expr>): Result<Gen, CompileError>
    decreases es, 0
  {
    if |es| == 0 then Ok(g)
    else
      var g1 :- GenExpr(env, g, es[0]);
      GenExprs(env, g1, es[1..])
  }

  /** The loop of a Print: each value is computed, output on channel 0 and
      so consumed. */
  function GenPrint(env: map<Ident, string>, g: Gen, es: seq<Expr>): Result<Gen, CompileError>
    decreases es
  {
    if |es| == 0 then Ok(g)
    else
      var g1 :- GenExpr(env, g, es[0]);
      var fs :- LocalsPopped(g1.frames, 1);
      GenPrint(env, g1.(frames := fs, out := g1.out + [Output(0)]), es[1..])
  }

  /** `emit`. */
  function GenStmt(env: map<Ident, string>, g: Gen, s: Stmt): Result<Gen, CompileError>
    decreases s, 1
  {
    match s
    case LetBinding(id, e) =>
      var g1 :- GenExpr(env, g, e);
      var fs :- Bound(g1.frames, id);
      Ok(g1.(frames := fs))
    case Assign(id, e, compound) =>
      if compound.Some? then Err(CompoundAssign)
      else
        var offs :- Resolved(g.frames, id);
        if offs.None? then Err(UnknownBinding(id))
        else
          var g1 :- GenExpr(env, g, e);
          var fs :- LocalsPopped(g1.frames, 1);
          Ok(g1.(frames := fs, out := g1.out + [Move(offs.value)]))
    case IfElse(c, t, None) =>
      var g1 :- GenExpr(env, g, c);
      var (g2, endLabel) := Allocated(g1, "if_end");
      var fs :- LocalsPopped(g2.frames, 1);
      var g3 :- GenStmt(env, g2.(frames := fs, out := g2.out + [Jmp(Bytecode.Cond.Zero, Some(endLabel))]), t);
      Ok(g3.(out := g3.out + [Label(endLabel)]))
    case IfElse(c, t, Some(el)) =>
      var g1 :- GenExpr(env, g, c);
      var (g2, elseLabel) := Allocated(g1, "else");
      var fs :- LocalsPopped(g2.frames, 1);
      var (g3, beginLabel) := Allocated(g2.(frames := fs, out := g2.out + [Jmp(Bytecode.Cond.Zero, Some(elseLabel))]), "if_else_begin");
      var g4 :- GenStmt(env, g3.(out := g3.out + [Label(beginLabel)]), t);
      var (g5, endLabel) := Allocated(g4, "else_end");
      var g6 :- GenStmt(env, g5.(out := g5.out + [Jmp(Bytecode.Cond.Always, Some(endLabel)), Label(elseLabel)]), el);
      Ok(g6.(out := g6.out + [Label(endLabel)]))
    case While(c, body) =>
      var (g1, startLabel) := Allocated(g, "while");
      var g2 :- GenExpr(env, g1.(out := g1.out + [Label(startLabel)]), c);
      var (g3, exitLabel) := Allocated(g2, "while_end");
      var fs :- LocalsPopped(g3.frames, 1);
      var g4 :- GenStmt(env, g3.(frames := fs, out := g3.out + [Jmp(Bytecode.Cond.Zero, Some(exitLabel))]), body);
      Ok(g4.(out := g4.out + [Jmp(Bytecode.Cond.Always, Some(startLabel)), Label(exitLabel)]))
    case Block(ss, cleanup) =>
      var fs :- FramePushed(g.frames);
      var g1 :- GenStmts(env, g.(frames := fs), ss);
      var popped :- FramePopped(g1.frames);
      if !cleanup && popped.1 < 1 then Err(NoBlockValue)
      else Ok(g1.(frames := popped.0, out := g1.out + [Pop(if cleanup then popped.1 else popped.1 - 1)]))
    case Print(es) => GenPrint(env, g, es)
    case Call(e) =>
      var g1 :- GenExpr(env, g, e);
      var fs :- LocalsPopped(g1.frames, 1);
      Ok(g1.(frames := fs, out := g1.out + [Pop(1)]))
    case Return(e) => GenExpr(env, g, e)
  }

  /** The statements of a block, in order. */
  function GenStmts(env: map<Ident, string>, g: Gen, ss: seq<Stmt>): Result<Gen, CompileError>
    decreases ss, 0
  {
    if |ss| == 0 then Ok(g)
    else
      var g1 :- GenStmt(env, g, ss[0]);
      GenStmts(env, g1, ss[1..])
  }

  // ----- Properties of code generation -----

  lemma RaisedTwice(fs: seq<StackFrame>, a: nat, b: nat)
    ensures Raised(Raised(fs, a), b) == Raised(fs, a + b)
  {
  }

  lemma RaisedZero(fs: seq<StackFrame>)
    ensures Raised(fs, 0) == fs
  {
    if |fs| > 0 {
      assert fs[|fs| - 1 := fs[|fs| - 1].(stackTop := Top(fs))] == fs;
    }
  }

  /** `emit_expr` leaves exactly one more value on the stack: it raises the
      innermost stack top by one and changes no binding, no other frame and
      no label counter; it only appends code. */
  lemma {:induction false} GenExprPushesOne(env: map<Ident, string>, g: Gen, e: Expr)
    ensures GenExpr(env, g, e).Ok? ==>
              && |g.frames| > 0
              && GenExpr(env, g, e).value.frames == Raised(g.frames, 1)
              && g.out < GenExpr(env, g, e).value.out
              && GenExpr(env, g, e).value.labelCount == g.labelCount
    decreases e, 2
  {
    match e
    case Op(_, _, _) => OperationPushesOne(env, g, e);
    case Call(_, _) => CallPushesOne(env, g, e);
    case _ =>
  }

  lemma {:induction false} OperationPushesOne(env: map<Ident, string>, g: Gen, e: Expr)
    requires e.Op?
    ensures GenExpr(env, g, e).Ok? ==>
              && |g.frames| > 0
              && GenExpr(env, g, e).value.frames == Raised(g.frames, 1)
              && g.out < GenExpr(env, g, e).value.out
              && GenExpr(env, g, e).value.labelCount == g.labelCount
    decreases e, 1
  {
    if GenExpr(env, g, e).Ok? {
      var x := if Swaps(e.opcode) then e.right else e.left;
      var y := if Swaps(e.opcode) then e.left else e.right;
      GenExprPushesOne(env, g, x);
      var g1 := GenExpr(env, g, x).value;
      GenExprPushesOne(env, g1, y);
      RaisedTwice(g.frames, 1, 1);
      PushThenPopLocals(g.frames, 2);
    }
  }

  lemma {:induction false} CallPushesOne(env: map<Ident, string>, g: Gen, e: Expr)
    requires e.Call?
    ensures GenExpr(env, g, e).Ok? ==>
              && |g.frames| > 0
              && GenExpr(env, g, e).value.frames == Raised(g.frames, 1)
              && g.out < GenExpr(env, g, e).value.out
              && GenExpr(env, g, e).value.labelCount == g.labelCount
    decreases e, 1
  {
    if GenExpr(env, g, e).Ok? {
      var fs := Raised(g.frames, 1);
      var g1 := g.(frames := fs, out := g.out + [PushInline(0)]);
      GenExprsPush(env, g1, e.args);
      RaisedTwice(g.frames, 1, |e.args|);
      PushThenPopLocals(fs, |e.args|);
    }
  }

  /** The arguments of a call leave one value each. */
  lemma {:induction false} GenExprsPush(env: map<Ident, string>, g: Gen, es: seq<Expr>)
    requires |g.frames| > 0
    ensures GenExprs(env, g, es).Ok? ==>
              && GenExprs(env, g, es).value.frames == Raised(g.frames, |es|)
              && g.out <= GenExprs(env, g, es).value.out
              && GenExprs(env, g, es).value.labelCount == g.labelCount
    decreases es, 0
  {
    if |es| == 0 {
      RaisedZero(g.frames);
    } else if GenExprs(env, g, es).Ok? {
      GenExprPushesOne(env, g, es[0]);
      var g1 := GenExpr(env, g, es[0]).value;
      GenExprsPush(env, g1, es[1..]);
      RaisedTwice(g.frames, 1, |es| - 1);
    }
  }

  /** `emit_expr` appends code that neither defines nor jumps to a label. */
  lemma {:induction false} ExprLabelFree(env: map<Ident, string>, g: Gen, e: Expr)
    ensures GenExpr(env, g, e).Ok? ==> AppendsNoLabel(g.out, GenExpr(env, g, e).value.out)
    decreases e, 2
  {
    if GenExpr(env, g, e).Ok? {
      match e
      case Number(v) =>
        NoLabelAppend(g.out, g.out, [PushInline(v)]);
      case EnvLoad(id) =>
        NoLabelAppend(g.out, g.out, [PushStack(Resolved(g.frames, id).value.value)]);
      case Op(a, op, b) =>
        var x := if Swaps(op) then b else a;
        var y := if Swaps(op) then a else b;
        ExprLabelFree(env, g, x);
        var g1 := GenExpr(env, g, x).value;
        ExprLabelFree(env, g1, y);
        var g2 := GenExpr(env, g1, y).value;
        NoLabelChain(g.out, g1.out, g2.out);
        NoLabelAppend(g.out, g2.out, [Arith(Lowered(op))]);
      case Call(name, args) =>
        var g1 := g.(frames := LocalPushed(g.frames).value, out := g.out + [PushInline(0)]);
        NoLabelAppend(g.out, g.out, [PushInline(0)]);
        ExprsLabelFree(env, g1, args);
        var g2 := GenExprs(env, g1, args).value;
        NoLabelChain(g.out, g1.out, g2.out);
        NoLabelAppend(g.out, g2.out, [AsmStmt.Call("func_" + env[name]), Pop(|args|)]);
    }
  }

  lemma {:induction false} ExprsLabelFree(env: map<Ident, string>, g: Gen, es: seq<Expr>)
    ensures GenExprs(env, g, es).Ok? ==> AppendsNoLabel(g.out, GenExprs(env, g, es).value.out)
    decreases es, 1
  {
    if |es| > 0 && GenExprs(env, g, es).Ok? {
      ExprLabelFree(env, g, es[0]);
      var g1 := GenExpr(env, g, es[0]).value;
      ExprsLabelFree(env, g1, es[1..]);
      NoLabelChain(g.out, g1.out, GenExprs(env, g1, es[1..]).value.out);
    }
  }

  /** `a > b` is compiled as `b < a`, and `a >= b` as `b <= a`: the
      operands are exchanged and the comparison reversed. */
  lemma ComparisonsSwapOperands(env: map<Ident, string>, g: Gen, a: Expr, op: Ast.Opcode, b: Expr)
    requires Swaps(op)
    ensures var reversed := if op.GreaterThan? then Ast.LessThan else Ast.LessEqual;
            GenExpr(env, g, Op(a, op, b)) == GenExpr(env, g, Op(b, reversed, a))
  {
    var reversed := if op.GreaterThan? then Ast.LessThan else Ast.LessEqual;
    assert !Swaps(reversed) && Lowered(reversed) == Lowered(op);
  }

  /** What every statement leaves alone or only lets grow: the number of
      frames, every frame but the innermost, the code already emitted and
      the label counters. */
  ghost predicate Extends(g: Gen, r: Gen)
  {
    && |g.frames| > 0
    && |r.frames| == |g.frames|
    && r.frames[..|g.frames| - 1] == g.frames[..|g.frames| - 1]
    && g.out <= r.out
    && forall t :: Count(r.labelCount, t) >= Count(g.labelCount, t)
  }

  lemma ExtendsTransitive(a: Gen, b: Gen, c: Gen)
    requires Extends(a, b) && Extends(b, c)
    ensures Extends(a, c)
  {
  }

  lemma RaisedKeepsOuter(fs: seq<StackFrame>, k: nat)
    requires |fs| > 0
    ensures |Raised(fs, k)| == |fs| && Raised(fs, k)[..|fs| - 1] == fs[..|fs| - 1]
  {
  }

  lemma ExprExtends(env: map<Ident, string>, g: Gen, e: Expr)
    ensures GenExpr(env, g, e).Ok? ==> Extends(g, GenExpr(env, g, e).value)
  {
    GenExprPushesOne(env, g, e);
    if GenExpr(env, g, e).Ok? {
      RaisedKeepsOuter(g.frames, 1);
    }
  }

  /** The frames after popping one value, as an extension. */
  lemma PopOneExtends(g: Gen, fs: seq<StackFrame>, out: seq<AsmStmt>)
    requires |g.frames| > 0 && LocalsPopped(g.frames, 1) == Ok(fs) && g.out <= out
    ensures Extends(g, g.(frames := fs, out := out))
  {
  }

  lemma AllocatedExtends(g: Gen, t: string, out: seq<AsmStmt>)
    requires |g.frames| > 0 && g.out <= out
    ensures Extends(g, Allocated(g, t).0.(out := out))
  {
  }

  /** A Print computes and consumes each value in turn, so it leaves the
      tracked stack as it found it; it only appends code, and that code
      names no label. */
  lemma {:induction false} PrintKeepsDepth(env: map<Ident, string>, g: Gen, es: seq<Expr>)
    ensures GenPrint(env, g, es).Ok? ==>
              && GenPrint(env, g, es).value.frames == g.frames
              && g.out <= GenPrint(env, g, es).value.out
              && GenPrint(env, g, es).value.labelCount == g.labelCount
    ensures GenPrint(env, g, es).Ok? ==> AppendsNoLabel(g.out, GenPrint(env, g, es).value.out)
    decreases es
  {
    if |es| > 0 && GenPrint(env, g, es).Ok? {
      GenExprPushesOne(env, g, es[0]);
      ExprLabelFree(env, g, es[0]);
      var g1 := GenExpr(env, g, es[0]).value;
      PushThenPopLocals(g.frames, 1);
      var g2 := g1.(frames := g.frames, out := g1.out + [Output(0)]);
      NoLabelAppend(g.out, g1.out, [Output(0)]);
      PrintKeepsDepth(env, g2, es[1..]);
      NoLabelChain(g.out, g2.out, GenPrint(env, g2, es[1..]).value.out);
    }
  }

  /** No statement changes the number of frames or any frame but the
      innermost, and none takes back code or label numbers; a Block, whose
      frame is gone when it ends, leaves the frames exactly as it found
      them. */
  lemma {:induction false} GenStmtExtends(env: map<Ident, string>, g: Gen, s: Stmt)
    requires |g.frames| > 0
    ensures GenStmt(env, g, s).Ok? ==> Extends(g, GenStmt(env, g, s).value)
    ensures GenStmt(env, g, s).Ok? && s.Block? ==> GenStmt(env, g, s).value.frames == g.frames
    decreases s, 2
  {
    if GenStmt(env, g, s).Ok? {
      match s
      case LetBinding(id, e) =>
        ExprExtends(env, g, e);
      case Assign(_, e, _) =>
        ExprExtends(env, g, e);
        var g1 := GenExpr(env, g, e).value;
        var fs := LocalsPopped(g1.frames, 1).value;
        PopOneExtends(g1, fs, g1.out + [Move(Resolved(g.frames, s.ident).value.value)]);
        ExtendsTransitive(g, g1, GenStmt(env, g, s).value);
      case IfElse(_, _, None) => IfExtends(env, g, s);
      case IfElse(_, _, Some(_)) => IfElseExtends(env, g, s);
      case While(_, _) => WhileExtends(env, g, s);
      case Block(_, _) => BlockRestoresFrames(env, g, s);
      case Print(es) => PrintKeepsDepth(env, g, es);
      case Call(e) =>
        ExprExtends(env, g, e);
        var g1 := GenExpr(env, g, e).value;
        var fs := LocalsPopped(g1.frames, 1).value;
        PopOneExtends(g1, fs, g1.out + [Pop(1)]);
        ExtendsTransitive(g, g1, GenStmt(env, g, s).value);
      case Return(e) => ExprExtends(env, g, e);
    }
  }

  lemma {:induction false} GenStmtsExtend(env: map<Ident, string>, g: Gen, ss: seq<Stmt>)
    requires |g.frames| > 0
    ensures GenStmts(env, g, ss).Ok? ==> Extends(g, GenStmts(env, g, ss).value)
    decreases ss, 0
  {
    if |ss| > 0 && GenStmts(env, g, ss).Ok? {
      GenStmtExtends(env, g, ss[0]);
      var g1 := GenStmt(env, g, ss[0]).value;
      GenStmtsExtend(env, g1, ss[1..]);
      ExtendsTransitive(g, g1, GenStmts(env, g, ss).value);
    }
  }

  lemma {:induction false} IfExtends(env: map<Ident, string>, g: Gen, s: Stmt)
    requires s.IfElse? && s.elseStmt.None? && |g.frames| > 0
    ensures GenStmt(env, g, s).Ok? ==> Extends(g, GenStmt(env, g, s).value)
    decreases s, 1
  {
    if GenStmt(env, g, s).Ok? {
      ExprExtends(env, g, s.cond);
      var g1 := GenExpr(env, g, s.cond).value;
      var (g2, endLabel) := Allocated(g1, "if_end");
      AllocatedExtends(g1, "if_end", g1.out);
      var fs := LocalsPopped(g2.frames, 1).value;
      var g3 := g2.(frames := fs, out := g2.out + [Jmp(Bytecode.Cond.Zero, Some(endLabel))]);
      PopOneExtends(g2, fs, g3.out);
      GenStmtExtends(env, g3, s.thenStmt);
      var g4 := GenStmt(env, g3, s.thenStmt).value;
      ExtendsTransitive(g, g1, g2);
      ExtendsTransitive(g, g2, g3);
      ExtendsTransitive(g, g3, g4);
    }
  }

  lemma {:induction false} IfElseExtends(env: map<Ident, string>, g: Gen, s: Stmt)
    requires s.IfElse? && s.elseStmt.Some? && |g.frames| > 0
    ensures GenStmt(env, g, s).Ok? ==> Extends(g, GenStmt(env, g, s).value)
    decreases s, 1
  {
    if GenStmt(env, g, s).Ok? {
      ExprExtends(env, g, s.cond);
      var g1 := GenExpr(env, g, s.cond).value;
      var (g2, elseLabel) := Allocated(g1, "else");
      AllocatedExtends(g1, "else", g1.out);
      var fs := LocalsPopped(g2.frames, 1).value;
      var g3 := g2.(frames := fs, out := g2.out + [Jmp(Bytecode.Cond.Zero, Some(elseLabel))]);
      PopOneExtends(g2, fs, g3.out);
      var (g4, beginLabel) := Allocated(g3, "if_else_begin");
      var g5 := g4.(out := g4.out + [Label(beginLabel)]);
      AllocatedExtends(g3, "if_else_begin", g5.out);
      GenStmtExtends(env, g5, s.thenStmt);
      var g6 := GenStmt(env, g5, s.thenStmt).value;
      var (g7, endLabel) := Allocated(g6, "else_end");
      var g8 := g7.(out := g7.out + [Jmp(Bytecode.Cond.Always, Some(endLabel)), Label(elseLabel)]);
      AllocatedExtends(g6, "else_end", g8.out);
      GenStmtExtends(env, g8, s.elseStmt.value);
      var g9 := GenStmt(env, g8, s.elseStmt.value).value;
      ExtendsTransitive(g, g1, g2);
      ExtendsTransitive(g, g2, g3);
      ExtendsTransitive(g, g3, g5);
      ExtendsTransitive(g, g5, g6);
      ExtendsTransitive(g, g6, g8);
      ExtendsTransitive(g, g8, g9);
    }
  }

  lemma {:induction false} WhileExtends(env: map<Ident, string>, g: Gen, s: Stmt)
    requires s.While? && |g.frames| > 0
    ensures GenStmt(env, g, s).Ok? ==> Extends(g, GenStmt(env, g, s).value)
    decreases s, 1
  {
    if GenStmt(env, g, s).Ok? {
      var (g0, startLabel) := Allocated(g, "while");
      var g1 := g0.(out := g0.out + [Label(startLabel)]);
      AllocatedExtends(g, "while", g1.out);
      ExprExtends(env, g1, s.cond);
      var g2 := GenExpr(env, g1, s.cond).value;
      var (g3, exitLabel) := Allocated(g2, "while_end");
      AllocatedExtends(g2, "while_end", g2.out);
      var fs := LocalsPopped(g3.frames, 1).value;
      var g4 := g3.(frames := fs, out := g3.out + [Jmp(Bytecode.Cond.Zero, Some(exitLabel))]);
      PopOneExtends(g3, fs, g4.out);
      GenStmtExtends(env, g4, s.body);
      var g5 := GenStmt(env, g4, s.body).value;
      ExtendsTransitive(g, g1, g2);
      ExtendsTransitive(g, g2, g3);
      ExtendsTransitive(g, g3, g4);
      ExtendsTransitive(g, g4, g5);
    }
  }

  /** A Block's own frame is gone when it ends: the frames are left exactly
      as they were, and the Pop emitted last drops what the block grew the
      stack by, less the one value a value block keeps. */
  lemma {:induction false} BlockRestoresFrames(env: map<Ident, string>, g: Gen, s: Stmt)
    requires s.Block?
    ensures GenStmt(env, g, s).Ok? ==>
              && Extends(g, GenStmt(env, g, s).value)
              && GenStmt(env, g, s).value.frames == g.frames
    decreases s, 1
  {
    if GenStmt(env, g, s).Ok? {
      var fs := FramePushed(g.frames).value;
      var g1 := g.(frames := fs);
      GenStmtsExtend(env, g1, s.stmts);
      var g2 := GenStmts(env, g1, s.stmts).value;
      assert g2.frames[..|g.frames|] == g.frames;
    }
  }

  /** LetBinding leaves one more value on the stack and binds the
      identifier to it as the innermost frame's latest binding; read right
      after, the identifier is the top of the stack. */
  lemma LetBindingDepth(env: map<Ident, string>, g: Gen, id: Ident, e: Expr)
    ensures GenStmt(env, g, LetBinding(id, e)).Ok? ==>
              var r := GenStmt(env, g, LetBinding(id, e)).value;
              var n := |g.frames|;
              && n > 0
              && r.frames == g.frames[n - 1 := StackFrame(g.frames[n - 1].bindings[id := Top(g.frames)], Top(g.frames) + 1, Top(g.frames))]
              && Resolved(r.frames, id) == Ok(Some(0))
  {
    GenExprPushesOne(env, g, e);
    if GenStmt(env, g, LetBinding(id, e)).Ok? {
      var g1 := GenExpr(env, g, e).value;
      BindingResolvesToTop(g1.frames, id);
    }
  }

  /** Assign, Print, Call and Block leave the tracked stack exactly as they
      found it. */
  lemma BalancedStatements(env: map<Ident, string>, g: Gen, s: Stmt)
    requires s.Assign? || s.Print? || s.Call? || s.Block?
    ensures GenStmt(env, g, s).Ok? ==> GenStmt(env, g, s).value.frames == g.frames
  {
    if GenStmt(env, g, s).Ok? {
      match s
      case Assign(_, e, _) =>
        GenExprPushesOne(env, g, e);
        PushThenPopLocals(g.frames, 1);
      case Call(e) =>
        GenExprPushesOne(env, g, e);
        PushThenPopLocals(g.frames, 1);
      case Print(es) => PrintKeepsDepth(env, g, es);
      case Block(_, _) => BlockRestoresFrames(env, g, s);
    }
  }

  lemma CountsBelowTransitive(a: map<string, nat>, b: map<string, nat>, c: map<string, nat>)
    requires CountsBelow(a, b) && CountsBelow(b, c)
    ensures CountsBelow(a, c)
  {
  }

  /** Every label the code of a statement defines or jumps to is allocated
      while the statement is generated: none had been handed out before it,
      and the counters only grow. */
  lemma {:induction false} GenStmtFresh(env: map<Ident, string>, g: Gen, s: Stmt)
    ensures GenStmt(env, g, s).Ok? ==>
              && AppendsFresh(g.out, GenStmt(env, g, s).value.out, g.labelCount)
              && CountsBelow(g.labelCount, GenStmt(env, g, s).value.labelCount)
    decreases s, 2
  {
    if GenStmt(env, g, s).Ok? {
      match s
      case LetBinding(_, e) =>
        GenExprPushesOne(env, g, e);
        ExprLabelFree(env, g, e);
      case Assign(_, e, _) =>
        GenExprPushesOne(env, g, e);
        ExprLabelFree(env, g, e);
        var g1 := GenExpr(env, g, e).value;
        NoLabelAppend(g.out, g1.out, [Move(Resolved(g.frames, s.ident).value.value)]);
      case IfElse(_, _, None) => IfFresh(env, g, s);
      case IfElse(_, _, Some(_)) => IfElseFresh(env, g, s);
      case While(_, _) => WhileFresh(env, g, s);
      case Block(ss, cleanup) =>
        var g1 := g.(frames := FramePushed(g.frames).value);
        GenStmtsFresh(env, g1, ss);
        var g2 := GenStmts(env, g1, ss).value;
        var popped := FramePopped(g2.frames).value;
        FreshAppend(g.out, g2.out, [Pop(if cleanup then popped.1 else popped.1 - 1)], g.labelCount);
      case Print(es) =>
        PrintKeepsDepth(env, g, es);
      case Call(e) =>
        GenExprPushesOne(env, g, e);
        ExprLabelFree(env, g, e);
        var g1 := GenExpr(env, g, e).value;
        NoLabelAppend(g.out, g1.out, [Pop(1)]);
      case Return(e) =>
        GenExprPushesOne(env, g, e);
        ExprLabelFree(env, g, e);
    }
  }

  lemma {:induction false} GenStmtsFresh(env: map<Ident, string>, g: Gen, ss: seq<Stmt>)
    ensures GenStmts(env, g, ss).Ok? ==>
              && AppendsFresh(g.out, GenStmts(env, g, ss).value.out, g.labelCount)
              && CountsBelow(g.labelCount, GenStmts(env, g, ss).value.labelCount)
    decreases ss, 0
  {
    if |ss| > 0 && GenStmts(env, g, ss).Ok? {
      GenStmtFresh(env, g, ss[0]);
      var g1 := GenStmt(env, g, ss[0]).value;
      GenStmtsFresh(env, g1, ss[1..]);
      var g2 := GenStmts(env, g1, ss[1..]).value;
      FreshChain(g.out, g1.out, g2.out, g.labelCount, g1.labelCount);
      CountsBelowTransitive(g.labelCount, g1.labelCount, g2.labelCount);
    }
  }

  /** The labels of an if: the condition names none, and if_end is
      allocated here. */
  lemma {:induction false} IfFresh(env: map<Ident, string>, g: Gen, s: Stmt)
    requires s.IfElse? && s.elseStmt.None?
    ensures GenStmt(env, g, s).Ok? ==>
              && AppendsFresh(g.out, GenStmt(env, g, s).value.out, g.labelCount)
              && CountsBelow(g.labelCount, GenStmt(env, g, s).value.labelCount)
    decreases s, 1
  {
    if GenStmt(env, g, s).Ok? {
      GenExprPushesOne(env, g, s.cond);
      ExprLabelFree(env, g, s.cond);
      var g1 := GenExpr(env, g, s.cond).value;
      var (g2, endLabel) := Allocated(g1, "if_end");
      var fs := LocalsPopped(g2.frames, 1).value;
      var g3 := g2.(frames := fs, out := g2.out + [Jmp(Bytecode.Cond.Zero, Some(endLabel))]);
      GenStmtFresh(env, g3, s.thenStmt);
      var g4 := GenStmt(env, g3, s.thenStmt).value;
      CountsBelowTransitive(g.labelCount, g3.labelCount, g4.labelCount);
      NoLabelFresh(g.out, g1.out, g.labelCount);
      AllocatedFresh(g1, "if_end", g.labelCount);
      FreshAppend(g.out, g1.out, [Jmp(Bytecode.Cond.Zero, Some(endLabel))], g.labelCount);
      FreshChain(g.out, g3.out, g4.out, g.labelCount, g3.labelCount);
      FreshAppend(g.out, g4.out, [Label(endLabel)], g.labelCount);
    }
  }

  /** The code of an if-else put together from its pieces. */
  lemma IfElseCode(o: seq<AsmStmt>, o1: seq<AsmStmt>, o6: seq<AsmStmt>, o9: seq<AsmStmt>,
                   elseLabel: string, beginLabel: string, endLabel: string,
                   c: map<string, nat>, c5: map<string, nat>, c6: map<string, nat>, c8: map<string, nat>, c9: map<string, nat>)
    requires AppendsNoLabel(o, o1)
    requires Unallocated(elseLabel, c) && Unallocated(beginLabel, c) && Unallocated(endLabel, c)
    requires CountsBelow(c, c5) && CountsBelow(c5, c6) && CountsBelow(c6, c8) && CountsBelow(c8, c9)
    requires AppendsFresh(o1 + [Jmp(Bytecode.Cond.Zero, Some(elseLabel)), Label(beginLabel)], o6, c5)
    requires AppendsFresh(o6 + [Jmp(Bytecode.Cond.Always, Some(endLabel)), Label(elseLabel)], o9, c8)
    ensures AppendsFresh(o, o9 + [Label(endLabel)], c) && CountsBelow(c, c9)
  {
    var o5 := o1 + [Jmp(Bytecode.Cond.Zero, Some(elseLabel)), Label(beginLabel)];
    var o8 := o6 + [Jmp(Bytecode.Cond.Always, Some(endLabel)), Label(elseLabel)];
    NoLabelFresh(o, o1, c);
    FreshAppend(o, o1, [Jmp(Bytecode.Cond.Zero, Some(elseLabel)), Label(beginLabel)], c);
    FreshChain(o, o5, o6, c, c5);
    FreshAppend(o, o6, [Jmp(Bytecode.Cond.Always, Some(endLabel)), Label(elseLabel)], c);
    CountsBelowTransitive(c, c5, c6);
    CountsBelowTransitive(c, c6, c8);
    CountsBelowTransitive(c, c8, c9);
    FreshChain(o, o8, o9, c, c8);
    FreshAppend(o, o9, [Label(endLabel)], c);
  }

  /** The labels of an if-else: the condition names none, and else,
      if_else_begin and else_end are allocated here. */
  lemma {:induction false} IfElseFresh(env: map<Ident, string>, g: Gen, s: Stmt)
    requires s.IfElse? && s.elseStmt.Some?
    ensures GenStmt(env, g, s).Ok? ==>
              && AppendsFresh(g.out, GenStmt(env, g, s).value.out, g.labelCount)
              && CountsBelow(g.labelCount, GenStmt(env, g, s).value.labelCount)
    decreases s, 1
  {
    if GenStmt(env, g, s).Ok? {
      GenExprPushesOne(env, g, s.cond);
      ExprLabelFree(env, g, s.cond);
      var g1 := GenExpr(env, g, s.cond).value;
      var (g2, elseLabel) := Allocated(g1, "else");
      var fs := LocalsPopped(g2.frames, 1).value;
      var g3 := g2.(frames := fs, out := g2.out + [Jmp(Bytecode.Cond.Zero, Some(elseLabel))]);
      var (g4, beginLabel) := Allocated(g3, "if_else_begin");
      var g5 := g4.(out := g4.out + [Label(beginLabel)]);
      GenStmtFresh(env, g5, s.thenStmt);
      var g6 := GenStmt(env, g5, s.thenStmt).value;
      var (g7, endLabel) := Allocated(g6, "else_end");
      var g8 := g7.(out := g7.out + [Jmp(Bytecode.Cond.Always, Some(endLabel)), Label(elseLabel)]);
      GenStmtFresh(env, g8, s.elseStmt.value);
      var g9 := GenStmt(env, g8, s.elseStmt.value).value;
      AllocatedFresh(g1, "else", g.labelCount);
      AllocatedFresh(g3, "if_else_begin", g.labelCount);
      AllocatedFresh(g6, "else_end", g.labelCount);
      IfElseCode(g.out, g1.out, g6.out, g9.out, elseLabel, beginLabel, endLabel,
                 g.labelCount, g5.labelCount, g6.labelCount, g8.labelCount, g9.labelCount);
    }
  }

  /** The labels of a while: while and while_end are allocated here, and
      the condition names none. */
  lemma {:induction false} WhileFresh(env: map<Ident, string>, g: Gen, s: Stmt)
    requires s.While?
    ensures GenStmt(env, g, s).Ok? ==>
              && AppendsFresh(g.out, GenStmt(env, g, s).value.out, g.labelCount)
              && CountsBelow(g.labelCount, GenStmt(env, g, s).value.labelCount)
    decreases s, 1
  {
    if GenStmt(env, g, s).Ok? {
      var (g0, startLabel) := Allocated(g, "while");
      var g1 := g0.(out := g0.out + [Label(startLabel)]);
      GenExprPushesOne(env, g1, s.cond);
      ExprLabelFree(env, g1, s.cond);
      var g2 := GenExpr(env, g1, s.cond).value;
      var (g3, exitLabel) := Allocated(g2, "while_end");
      var fs := LocalsPopped(g3.frames, 1).value;
      var g4 := g3.(frames := fs, out := g3.out + [Jmp(Bytecode.Cond.Zero, Some(exitLabel))]);
      GenStmtFresh(env, g4, s.body);
      var g5 := GenStmt(env, g4, s.body).value;
      CountsBelowTransitive(g.labelCount, g4.labelCount, g5.labelCount);
      AllocatedFresh(g, "while", g.labelCount);
      AllocatedFresh(g2, "while_end", g.labelCount);
      FreshAppend(g.out, g.out, [Label(startLabel)], g.labelCount);
      NoLabelFresh(g1.out, g2.out, g.labelCount);
      FreshChain(g.out, g1.out, g2.out, g.labelCount, g.labelCount);
      FreshAppend(g.out, g2.out, [Jmp(Bytecode.Cond.Zero, Some(exitLabel))], g.labelCount);
      FreshChain(g.out, g4.out, g5.out, g.labelCount, g4.labelCount);
      FreshAppend(g.out, g5.out, [Jmp(Bytecode.Cond.Always, Some(startLabel)), Label(exitLabel)], g.labelCount);
    }
  }

  /** A label allocated before a statement is generated is neither defined
      nor jumped to by the statement's code, and no later allocation, from
      any template, gives it again. */
  lemma LaterLabelsDiffer(env: map<Ident, string>, g: Gen, t: string, s: Stmt, t': string)
    requires Template(t) && Template(t') && |g.frames| > 0
    ensures var (g1, l) := Allocated(g, t);
            GenStmt(env, g1, s).Ok? ==>
              var out := GenStmt(env, g1, s).value.out;
              && (forall i :: |g1.out| <= i < |out| ==> LabelOf(out[i]) != Some(l))
              && Allocated(GenStmt(env, g1, s).value, t').1 != l
  {
    var (g1, l) := Allocated(g, t);
    GenStmtExtends(env, g1, s);
    GenStmtFresh(env, g1, s);
    if GenStmt(env, g1, s).Ok? {
      LabelsNeverRepeat(g, t, GenStmt(env, g1, s).value, t');
    }
  }

  // ----- The expected output of `test_basic` -----

  // Facts about the frames alone. The frames are written as the enclosing
  // ones followed by the innermost one.

  lemma Alone(f: StackFrame)
    ensures [f] == [] + [f]
  {
  }

  lemma RaisedLast(outer: seq<StackFrame>, f: StackFrame, k: nat)
    ensures Raised(outer + [f], k) == outer + [f.(stackTop := f.stackTop + k)]
  {
    var fs := outer + [f];
    assert fs[|fs| - 1 := f.(stackTop := f.stackTop + k)] == outer + [f.(stackTop := f.stackTop + k)];
  }

  lemma PushOneLast(outer: seq<StackFrame>, f: StackFrame)
    ensures LocalPushed(outer + [f]) == Ok(outer + [f.(stackTop := f.stackTop + 1)])
  {
    RaisedLast(outer, f, 1);
  }

  lemma PoppedLast(outer: seq<StackFrame>, f: StackFrame, n: nat)
    requires f.stackTop >= n + f.bindingsTop
    ensures LocalsPopped(outer + [f], n) == Ok(outer + [f.(stackTop := f.stackTop - n)])
  {
    var fs := outer + [f];
    assert fs[|fs| - 1 := f.(stackTop := f.stackTop - n)] == outer + [f.(stackTop := f.stackTop - n)];
  }

  lemma PopOneAfterPush(outer: seq<StackFrame>, f: StackFrame)
    requires f.bindingsTop <= f.stackTop
    ensures LocalsPopped(outer + [f.(stackTop := f.stackTop + 1)], 1) == Ok(outer + [f])
  {
    PoppedLast(outer, f.(stackTop := f.stackTop + 1), 1);
    assert f.(stackTop := f.stackTop + 1).(stackTop := f.stackTop) == f;
  }

  lemma PopTwoPushOne(outer: seq<StackFrame>, f: StackFrame)
    requires f.stackTop >= 2 + f.bindingsTop
    ensures LocalsPopped(outer + [f], 2) == Ok(outer + [f.(stackTop := f.stackTop - 2)])
    ensures LocalPushed(outer + [f.(stackTop := f.stackTop - 2)]) == Ok(outer + [f.(stackTop := f.stackTop - 1)])
  {
    var f2 := f.(stackTop := f.stackTop - 2);
    PoppedLast(outer, f, 2);
    RaisedLast(outer, f2, 1);
    assert f2.(stackTop := f2.stackTop + 1) == f.(stackTop := f.stackTop - 1);
  }

  lemma BoundLast(outer: seq<StackFrame>, f: StackFrame, id: Ident)
    requires f.stackTop > 0
    ensures Bound(outer + [f], id) ==
              Ok(outer + [StackFrame(f.bindings[id := f.stackTop - 1], f.stackTop, f.stackTop - 1)])
  {
    var fs := outer + [f];
    var f' := StackFrame(f.bindings[id := f.stackTop - 1], f.stackTop, f.stackTop - 1);
    assert fs[|fs| - 1 := f'] == outer + [f'];
  }

  lemma TopLast(outer: seq<StackFrame>, f: StackFrame)
    ensures Top(outer + [f]) == f.stackTop
  {
  }

  lemma BlockFrames(fs: seq<StackFrame>, h: StackFrame)
    requires |fs| > 0 && h.stackTop >= Top(fs)
    ensures FramePushed(fs) == Ok(fs + [StackFrame(map[], Top(fs), Top(fs))])
    ensures FramePopped(fs + [h]) == Ok((fs, h.stackTop - Top(fs)))
  {
    assert (fs + [h])[..|fs|] == fs;
  }

  lemma LookupPastLast(outer: seq<StackFrame>, f: StackFrame, id: Ident)
    requires id !in f.bindings
    ensures Lookup(outer + [f], id) == Lookup(outer, id)
  {
    assert (outer + [f])[..|outer|] == outer;
  }

  lemma ResolvedInLast(outer: seq<StackFrame>, f: StackFrame, id: Ident)
    requires id in f.bindings && f.bindings[id] < f.stackTop
    ensures Resolved(outer + [f], id) == Ok(Some(f.stackTop - f.bindings[id] - 1))
  {
  }

  /** A binding seen through a newer frame that does not rebind it is as
      many slots further from the top as that frame has grown the stack. */
  lemma ResolvedPastLast(outer: seq<StackFrame>, f: StackFrame, e: StackFrame, id: Ident, k: nat)
    requires id !in e.bindings && e.stackTop >= f.stackTop && Resolved(outer + [f], id) == Ok(Some(k))
    ensures Resolved(outer + [f] + [e], id) == Ok(Some(k + e.stackTop - f.stackTop))
  {
    LookupPastLast(outer + [f], e, id);
  }

  // How each kind of statement unfolds, once each of its steps is known.

  lemma OperationSteps(env: map<Ident, string>, g: Gen, x: Expr, op: Ast.Opcode, y: Expr, g1: Gen, g2: Gen,
                       fs: seq<StackFrame>, fs': seq<StackFrame>)
    requires !Swaps(op) && GenExpr(env, g, x) == Ok(g1) && GenExpr(env, g1, y) == Ok(g2)
    requires LocalsPopped(g2.frames, 2) == Ok(fs) && LocalPushed(fs) == Ok(fs')
    ensures GenExpr(env, g, Op(x, op, y)) == Ok(g2.(frames := fs', out := g2.out + [Arith(Lowered(op))]))
  {
  }

  lemma LetSteps(env: map<Ident, string>, g: Gen, id: Ident, e: Expr, g1: Gen, fs: seq<StackFrame>)
    requires GenExpr(env, g, e) == Ok(g1) && Bound(g1.frames, id) == Ok(fs)
    ensures GenStmt(env, g, LetBinding(id, e)) == Ok(g1.(frames := fs))
  {
  }

  lemma AssignSteps(env: map<Ident, string>, g: Gen, id: Ident, e: Expr, offset: nat, g1: Gen, fs: seq<StackFrame>)
    requires Resolved(g.frames, id) == Ok(Some(offset))
    requires GenExpr(env, g, e) == Ok(g1) && LocalsPopped(g1.frames, 1) == Ok(fs)
    ensures GenStmt(env, g, Assign(id, e, None)) == Ok(g1.(frames := fs, out := g1.out + [Move(offset)]))
  {
  }

  lemma PrintOneSteps(env: map<Ident, string>, g: Gen, e: Expr, g1: Gen, fs: seq<StackFrame>)
    requires GenExpr(env, g, e) == Ok(g1) && LocalsPopped(g1.frames, 1) == Ok(fs)
    ensures GenStmt(env, g, Print([e])) == Ok(g1.(frames := fs, out := g1.out + [Output(0)]))
  {
    var g2 := g1.(frames := fs, out := g1.out + [Output(0)]);
    assert [e][1..] == [];
    assert GenPrint(env, g2, []) == Ok(g2);
  }

  lemma CleanBlock(env: map<Ident, string>, g: Gen, ss: seq<Stmt>, h: StackFrame, g1: Gen)
    requires |g.frames| > 0 && h.stackTop >= Top(g.frames)
    requires GenStmts(env, g.(frames := g.frames + [StackFrame(map[], Top(g.frames), Top(g.frames))]), ss) == Ok(g1)
    requires g1.frames == g.frames + [h]
    ensures GenStmt(env, g, Block(ss, true)) == Ok(g1.(frames := g.frames, out := g1.out + [Pop(h.stackTop - Top(g.frames))]))
  {
    BlockFrames(g.frames, h);
    BlockSteps(env, g, ss, g.frames + [StackFrame(map[], Top(g.frames), Top(g.frames))], g1, g.frames, h.stackTop - Top(g.frames));
  }

  lemma BlockSteps(env: map<Ident, string>, g: Gen, ss: seq<Stmt>, fs: seq<StackFrame>, g1: Gen,
                   outer: seq<StackFrame>, n: nat)
    requires FramePushed(g.frames) == Ok(fs) && GenStmts(env, g.(frames := fs), ss) == Ok(g1)
    requires FramePopped(g1.frames) == Ok((outer, n))
    ensures GenStmt(env, g, Block(ss, true)) == Ok(g1.(frames := outer, out := g1.out + [Pop(n)]))
  {
  }

  lemma WhileSteps(env: map<Ident, string>, g: Gen, c: Expr, body: Stmt, g1: Gen, l1: string, g2: Gen,
                   g3: Gen, l2: string, fs: seq<StackFrame>, g4: Gen)
    requires Allocated(g, "while") == (g1, l1)
    requires GenExpr(env, g1.(out := g1.out + [Label(l1)]), c) == Ok(g2)
    requires Allocated(g2, "while_end") == (g3, l2) && LocalsPopped(g3.frames, 1) == Ok(fs)
    requires GenStmt(env, g3.(frames := fs, out := g3.out + [Jmp(Bytecode.Cond.Zero, Some(l2))]), body) == Ok(g4)
    ensures GenStmt(env, g, While(c, body)) == Ok(g4.(out := g4.out + [Jmp(Bytecode.Cond.Always, Some(l1)), Label(l2)]))
  {
  }

  lemma StmtsThenRest(env: map<Ident, string>, g: Gen, ss: seq<Stmt>, g1: Gen, g2: Gen)
    requires |ss| > 0 && GenStmt(env, g, ss[0]) == Ok(g1) && GenStmts(env, g1, ss[1..]) == Ok(g2)
    ensures GenStmts(env, g, ss) == Ok(g2)
  {
  }

  lemma OneStatement(env: map<Ident, string>, ss: seq<Stmt>, g0: Gen, g1: Gen)
    requires |ss| == 1 && GenStmt(env, g0, ss[0]) == Ok(g1)
    ensures GenStmts(env, g0, ss) == Ok(g1)
  {
    assert ss[1..] == [];
    StmtsThenRest(env, g0, ss, g1, g1);
  }

  lemma TwoStatements(env: map<Ident, string>, ss: seq<Stmt>, g0: Gen, g1: Gen, g2: Gen)
    requires |ss| == 2 && GenStmt(env, g0, ss[0]) == Ok(g1) && GenStmt(env, g1, ss[1]) == Ok(g2)
    ensures GenStmts(env, g0, ss) == Ok(g2)
  {
    OneStatement(env, ss[1..], g1, g2);
    StmtsThenRest(env, g0, ss, g1, g2);
  }

  lemma ThreeStatements(env: map<Ident, string>, ss: seq<Stmt>, g0: Gen, g1: Gen, g2: Gen, g3: Gen)
    requires |ss| == 3 && GenStmt(env, g0, ss[0]) == Ok(g1) && GenStmt(env, g1, ss[1]) == Ok(g2)
    requires GenStmt(env, g2, ss[2]) == Ok(g3)
    ensures GenStmts(env, g0, ss) == Ok(g3)
  {
    TwoStatements(env, ss[1..], g1, g2, g3);
    StmtsThenRest(env, g0, ss, g1, g3);
  }

  lemma FiveStatements(env: map<Ident, string>, ss: seq<Stmt>, g0: Gen, g1: Gen, g2: Gen, g3: Gen, g4: Gen, g5: Gen)
    requires |ss| == 5
    requires GenStmt(env, g0, ss[0]) == Ok(g1) && GenStmt(env, g1, ss[1]) == Ok(g2) && GenStmt(env, g2, ss[2]) == Ok(g3)
    requires GenStmt(env, g3, ss[3]) == Ok(g4) && GenStmt(env, g4, ss[4]) == Ok(g5)
    ensures GenStmts(env, g0, ss) == Ok(g5)
  {
    TwoStatements(env, ss[3..], g3, g4, g5);
    assert ss[2..][1..] == ss[3..];
    StmtsThenRest(env, g2, ss[2..], g3, g5);
    assert ss[1..][1..] == ss[2..];
    StmtsThenRest(env, g1, ss[1..], g2, g5);
    StmtsThenRest(env, g0, ss, g1, g5);
  }

  // The pieces of `test_basic`, each in any enclosing scope.

  /** Loading a variable pushes its offset from the top. */
  lemma PushVariable(env: map<Ident, string>, g: Gen, outer: seq<StackFrame>, f: StackFrame, id: Ident, offset: nat)
    requires g.frames == outer + [f] && Resolved(g.frames, id) == Ok(Some(offset))
    ensures GenExpr(env, g, EnvLoad(id)) ==
              Ok(g.(frames := outer + [f.(stackTop := f.stackTop + 1)], out := g.out + [PushStack(offset)]))
  {
    PushOneLast(outer, f);
  }

  /** A number is pushed inline. */
  lemma PushNumber(env: map<Ident, string>, g: Gen, outer: seq<StackFrame>, f: StackFrame, v: int)
    requires g.frames == outer + [f]
    ensures GenExpr(env, g, Number(v)) ==
              Ok(g.(frames := outer + [f.(stackTop := f.stackTop + 1)], out := g.out + [PushInline(v)]))
  {
    PushOneLast(outer, f);
  }

  /** Two operands, in order, then the operation, which leaves one value. */
  lemma OperationInOrder(env: map<Ident, string>, g: Gen, x: Expr, op: Ast.Opcode, y: Expr, g1: Gen, g2: Gen,
                         outer: seq<StackFrame>, f: StackFrame)
    requires !Swaps(op) && GenExpr(env, g, x) == Ok(g1) && GenExpr(env, g1, y) == Ok(g2)
    requires g2.frames == outer + [f] && f.stackTop >= 2 + f.bindingsTop
    ensures GenExpr(env, g, Op(x, op, y)) ==
              Ok(g2.(frames := outer + [f.(stackTop := f.stackTop - 1)], out := g2.out + [Arith(Lowered(op))]))
  {
    PopTwoPushOne(outer, f);
    OperationSteps(env, g, x, op, y, g1, g2, outer + [f.(stackTop := f.stackTop - 2)], outer + [f.(stackTop := f.stackTop - 1)]);
  }

  /** "let id = v;" binds id to the new slot on top. */
  lemma LetNumber(env: map<Ident, string>, g: Gen, outer: seq<StackFrame>, f: StackFrame, id: Ident, v: int)
    requires g.frames == outer + [f]
    ensures GenStmt(env, g, LetBinding(id, Number(v))) ==
              Ok(g.(frames := outer + [StackFrame(f.bindings[id := f.stackTop], f.stackTop + 1, f.stackTop)],
                    out := g.out + [PushInline(v)]))
  {
    PushNumber(env, g, outer, f, v);
    var g1 := g.(frames := outer + [f.(stackTop := f.stackTop + 1)], out := g.out + [PushInline(v)]);
    BoundLast(outer, f.(stackTop := f.stackTop + 1), id);
    LetSteps(env, g, id, Number(v), g1,
             outer + [StackFrame(f.bindings[id := f.stackTop], f.stackTop + 1, f.stackTop)]);
  }

  /** "print id;" pushes the variable and outputs it, which leaves the
      frames as they were. */
  lemma PrintVariable(env: map<Ident, string>, g: Gen, outer: seq<StackFrame>, f: StackFrame, id: Ident, offset: nat)
    requires g.frames == outer + [f] && f.bindingsTop <= f.stackTop
    requires Resolved(g.frames, id) == Ok(Some(offset))
    ensures GenStmt(env, g, Print([EnvLoad(id)])) == Ok(g.(out := g.out + [PushStack(offset)] + [Output(0)]))
  {
    PushVariable(env, g, outer, f, id, offset);
    var g1 := g.(frames := outer + [f.(stackTop := f.stackTop + 1)], out := g.out + [PushStack(offset)]);
    PopOneAfterPush(outer, f);
    PrintOneSteps(env, g, EnvLoad(id), g1, g.frames);
  }

  /** "id = id - 1;": the variable, the constant, the subtraction, then the
      result moved into the variable's slot. */
  lemma AssignDecrement(env: map<Ident, string>, g: Gen, outer: seq<StackFrame>, f: StackFrame, id: Ident, offset: nat)
    requires g.frames == outer + [f] && f.bindingsTop <= f.stackTop
    requires Resolved(g.frames, id) == Ok(Some(offset))
    ensures GenStmt(env, g, Assign(id, Op(EnvLoad(id), Ast.Sub, Number(1)), None)) ==
              Ok(g.(out := g.out + [PushStack(offset)] + [PushInline(1)] + [Arith(Bytecode.ArithOp.Sub)] + [Move(offset)]))
  {
    var f1 := f.(stackTop := f.stackTop + 1);
    var f2 := f1.(stackTop := f1.stackTop + 1);
    PushVariable(env, g, outer, f, id, offset);
    var g1 := g.(frames := outer + [f1], out := g.out + [PushStack(offset)]);
    PushNumber(env, g1, outer, f1, 1);
    var g2 := g1.(frames := outer + [f2], out := g1.out + [PushInline(1)]);
    OperationInOrder(env, g, EnvLoad(id), Ast.Sub, Number(1), g1, g2, outer, f2);
    assert f2.(stackTop := f2.stackTop - 1) == f1;
    var g3 := g2.(frames := outer + [f1], out := g2.out + [Arith(Bytecode.ArithOp.Sub)]);
    PopOneAfterPush(outer, f);
    AssignSteps(env, g, id, Op(EnvLoad(id), Ast.Sub, Number(1)), offset, g3, g.frames);
  }

  /** "let b = 321; let c = 432;" in a new frame starting at t. */
  lemma TwoLets(env: map<Ident, string>, h0: Gen, outer: seq<StackFrame>, t: nat, b: Ident, c: Ident)
    requires h0.frames == outer + [StackFrame(map[], t, t)]
    ensures var h1 := h0.(frames := outer + [StackFrame(map[b := t], t + 1, t)], out := h0.out + [PushInline(321)]);
            GenStmt(env, h0, LetBinding(b, Number(321))) == Ok(h1) &&
            GenStmt(env, h1, LetBinding(c, Number(432))) ==
              Ok(h1.(frames := outer + [StackFrame(map[b := t, c := t + 1], t + 2, t + 1)], out := h1.out + [PushInline(432)]))
  {
    LetNumber(env, h0, outer, StackFrame(map[], t, t), b, 321);
    var h1 := h0.(frames := outer + [StackFrame(map[b := t], t + 1, t)], out := h0.out + [PushInline(321)]);
    LetNumber(env, h1, outer, StackFrame(map[b := t], t + 1, t), c, 432);
  }

  /** The statements of "{ let b = 321; let c = 432; print b; }", in a new
      frame starting at t. */
  lemma FirstBlockBody(env: map<Ident, string>, h0: Gen, outer: seq<StackFrame>, t: nat, b: Ident, c: Ident, ss: seq<Stmt>)
    requires b != c && h0.frames == outer + [StackFrame(map[], t, t)]
    requires ss == [LetBinding(b, Number(321)), LetBinding(c, Number(432)), Print([EnvLoad(b)])]
    ensures GenStmts(env, h0, ss) ==
              Ok(h0.(frames := outer + [StackFrame(map[b := t, c := t + 1], t + 2, t + 1)],
                     out := h0.out + [PushInline(321)] + [PushInline(432)] + [PushStack(1)] + [Output(0)]))
  {
    var h1 := h0.(frames := outer + [StackFrame(map[b := t], t + 1, t)], out := h0.out + [PushInline(321)]);
    var f2 := StackFrame(map[b := t, c := t + 1], t + 2, t + 1);
    var h2 := h1.(frames := outer + [f2], out := h1.out + [PushInline(432)]);
    TwoLets(env, h0, outer, t, b, c);
    PrintLatestButOne(env, h2, outer, f2, b);
    var h3 := h2.(out := h2.out + [PushStack(1)] + [Output(0)]);
    ThreeStatements(env, ss, h0, h1, h2, h3);
  }

  /** "print b;" with b bound one below c, the latest binding. */
  lemma PrintLatestButOne(env: map<Ident, string>, g: Gen, outer: seq<StackFrame>, f: StackFrame, b: Ident)
    requires g.frames == outer + [f] && f.bindingsTop + 1 == f.stackTop
    requires b in f.bindings && f.bindings[b] + 2 == f.stackTop
    ensures GenStmt(env, g, Print([EnvLoad(b)])) == Ok(g.(out := g.out + [PushStack(1)] + [Output(0)]))
  {
    ResolvedInLast(outer, f, b);
    PrintVariable(env, g, outer, f, b, 1);
  }

  /** "{ let b = 321; let c = 432; print b; }": two values pushed and
      bound, b printed, and both popped at the end of the block. */
  lemma FirstBlock(env: map<Ident, string>, g: Gen, outer: seq<StackFrame>, f: StackFrame, b: Ident, c: Ident, s: Stmt)
    requires b != c && g.frames == outer + [f]
    requires s == Block([LetBinding(b, Number(321)), LetBinding(c, Number(432)), Print([EnvLoad(b)])], true)
    ensures GenStmt(env, g, s) ==
              Ok(g.(out := g.out + [PushInline(321)] + [PushInline(432)] + [PushStack(1)] + [Output(0)] + [Pop(2)]))
  {
    var t := f.stackTop;
    TopLast(outer, f);
    var h0 := g.(frames := outer + [f] + [StackFrame(map[], t, t)]);
    FirstBlockBody(env, h0, outer + [f], t, b, c, s.stmts);
    var h := StackFrame(map[b := t, c := t + 1], t + 2, t + 1);
    var h3 := h0.(frames := outer + [f] + [h],
                  out := h0.out + [PushInline(321)] + [PushInline(432)] + [PushStack(1)] + [Output(0)]);
    CleanBlock(env, g, s.stmts, h, h3);
  }

  /** "{ print id; }": the variable seen through the block's empty frame. */
  lemma SecondBlock(env: map<Ident, string>, g: Gen, outer: seq<StackFrame>, f: StackFrame, id: Ident, offset: nat, s: Stmt)
    requires g.frames == outer + [f] && Resolved(g.frames, id) == Ok(Some(offset))
    requires s == Block([Print([EnvLoad(id)])], true)
    ensures GenStmt(env, g, s) == Ok(g.(out := g.out + [PushStack(offset)] + [Output(0)] + [Pop(0)]))
  {
    var e := StackFrame(map[], f.stackTop, f.stackTop);
    var h0 := g.(frames := outer + [f] + [e]);
    ResolvedPastLast(outer, f, e, id, offset);
    PrintVariable(env, h0, outer + [f], e, id, offset);
    var h1 := h0.(out := g.out + [PushStack(offset)] + [Output(0)]);
    OneStatement(env, s.stmts, h0, h1);
    TopLast(outer, f);
    CleanBlock(env, g, s.stmts, e, h1);
  }

  /** "id != 0". */
  lemma LoopCondition(env: map<Ident, string>, g: Gen, outer: seq<StackFrame>, f: StackFrame, id: Ident, offset: nat, e: Expr)
    requires g.frames == outer + [f] && f.bindingsTop <= f.stackTop && Resolved(g.frames, id) == Ok(Some(offset))
    requires e == Op(EnvLoad(id), Ast.NotEqual, Number(0))
    ensures GenExpr(env, g, e) ==
              Ok(g.(frames := outer + [f.(stackTop := f.stackTop + 1)],
                    out := g.out + [PushStack(offset)] + [PushInline(0)] + [Arith(Bytecode.ArithOp.NotEqual)]))
  {
    var f1 := f.(stackTop := f.stackTop + 1);
    var f2 := f1.(stackTop := f1.stackTop + 1);
    PushVariable(env, g, outer, f, id, offset);
    var g1 := g.(frames := outer + [f1], out := g.out + [PushStack(offset)]);
    PushNumber(env, g1, outer, f1, 0);
    var g2 := g1.(frames := outer + [f2], out := g1.out + [PushInline(0)]);
    OperationInOrder(env, g, EnvLoad(id), Ast.NotEqual, Number(0), g1, g2, outer, f2);
    assert f2.(stackTop := f2.stackTop - 1) == f1;
  }

  /** "{ let d = 1; a = a - 1; }": inside the block a is one slot further
      from the top, and d is popped at its end. */
  lemma LoopBody(env: map<Ident, string>, g: Gen, outer: seq<StackFrame>, f: StackFrame, a: Ident, d: Ident, offset: nat, s: Stmt)
    requires a != d && g.frames == outer + [f] && Resolved(g.frames, a) == Ok(Some(offset))
    requires s == Block([LetBinding(d, Number(1)), Assign(a, Op(EnvLoad(a), Ast.Sub, Number(1)), None)], true)
    ensures GenStmt(env, g, s) ==
              Ok(g.(out := g.out + [PushInline(1)] + [PushStack(offset + 1)] + [PushInline(1)] +
                           [Arith(Bytecode.ArithOp.Sub)] + [Move(offset + 1)] + [Pop(1)]))
  {
    var t := f.stackTop;
    var h0 := g.(frames := outer + [f] + [StackFrame(map[], t, t)]);
    LoopBodyStatements(env, h0, outer, f, a, d, offset, s.stmts);
    var h2 := h0.(frames := outer + [f] + [StackFrame(map[d := t], t + 1, t)],
                  out := g.out + [PushInline(1)] + [PushStack(offset + 1)] + [PushInline(1)] +
                         [Arith(Bytecode.ArithOp.Sub)] + [Move(offset + 1)]);
    TopLast(outer, f);
    CleanBlock(env, g, s.stmts, StackFrame(map[d := t], t + 1, t), h2);
  }

  /** The statements of "{ let d = 1; a = a - 1; }", in the block's frame. */
  lemma LoopBodyStatements(env: map<Ident, string>, h0: Gen, outer: seq<StackFrame>, f: StackFrame, a: Ident, d: Ident,
                           offset: nat, ss: seq<Stmt>)
    requires a != d && Resolved(outer + [f], a) == Ok(Some(offset))
    requires h0.frames == outer + [f] + [StackFrame(map[], f.stackTop, f.stackTop)]
    requires ss == [LetBinding(d, Number(1)), Assign(a, Op(EnvLoad(a), Ast.Sub, Number(1)), None)]
    ensures GenStmts(env, h0, ss) ==
              Ok(h0.(frames := outer + [f] + [StackFrame(map[d := f.stackTop], f.stackTop + 1, f.stackTop)],
                     out := h0.out + [PushInline(1)] + [PushStack(offset + 1)] + [PushInline(1)] +
                            [Arith(Bytecode.ArithOp.Sub)] + [Move(offset + 1)]))
  {
    var t := f.stackTop;
    LetNumber(env, h0, outer + [f], StackFrame(map[], t, t), d, 1);
    var e1 := StackFrame(map[d := t], t + 1, t);
    var h1 := h0.(frames := outer + [f] + [e1], out := h0.out + [PushInline(1)]);
    ResolvedPastLast(outer, f, e1, a, offset);
    AssignDecrement(env, h1, outer + [f], e1, a, offset + 1);
    var h2 := h1.(out := h1.out + [PushStack(offset + 1)] + [PushInline(1)] + [Arith(Bytecode.ArithOp.Sub)] + [Move(offset + 1)]);
    TwoStatements(env, ss, h0, h1, h2);
  }

  lemma FirstLabels()
    ensures "while" + Ast.NatToString(0) == "while0"
    ensures "while_end" + Ast.NatToString(0) == "while_end0"
  {
    assert Ast.NatToString(0) == "0";
  }

  /** The labels of the first loop. */
  lemma FirstLoopLabels(g: Gen, g2: Gen)
    requires g.labelCount == map[] && g2.labelCount == map["while" := 1]
    ensures Allocated(g, "while") == (g.(labelCount := map["while" := 1]), "while0")
    ensures Allocated(g2, "while_end") == (g2.(labelCount := map["while" := 1, "while_end" := 1]), "while_end0")
  {
    FirstLabels();
    assert "while_end" != "while" by {
      assert |"while_end"| != |"while"|;
    }
  }

  /** "while a != 0 { let d = 1; a = a - 1; }" as the first loop. */
  lemma Loop(env: map<Ident, string>, g: Gen, outer: seq<StackFrame>, f: StackFrame, a: Ident, d: Ident, offset: nat, s: Stmt)
    requires a != d && g.frames == outer + [f] && f.bindingsTop <= f.stackTop && Resolved(g.frames, a) == Ok(Some(offset))
    requires g.labelCount == map[]
    requires s == While(Op(EnvLoad(a), Ast.NotEqual, Number(0)),
                        Block([LetBinding(d, Number(1)), Assign(a, Op(EnvLoad(a), Ast.Sub, Number(1)), None)], true))
    ensures GenStmt(env, g, s) ==
              Ok(g.(out := g.out + [Label("while0")] +
                           [PushStack(offset)] + [PushInline(0)] + [Arith(Bytecode.ArithOp.NotEqual)] +
                           [Jmp(Bytecode.Cond.Zero, Some("while_end0"))] +
                           [PushInline(1)] + [PushStack(offset + 1)] + [PushInline(1)] + [Arith(Bytecode.ArithOp.Sub)] +
                           [Move(offset + 1)] + [Pop(1)] +
                           [Jmp(Bytecode.Cond.Always, Some("while0")), Label("while_end0")],
                    labelCount := map["while" := 1, "while_end" := 1]))
  {
    var g1 := g.(labelCount := map["while" := 1]);
    var g1' := g1.(out := g1.out + [Label("while0")]);
    LoopCondition(env, g1', outer, f, a, offset, s.cond);
    var g2 := g1'.(frames := outer + [f.(stackTop := f.stackTop + 1)],
                   out := g1'.out + [PushStack(offset)] + [PushInline(0)] + [Arith(Bytecode.ArithOp.NotEqual)]);
    FirstLoopLabels(g, g2);
    var g3 := g2.(labelCount := map["while" := 1, "while_end" := 1]);
    PopOneAfterPush(outer, f);
    var g4 := g3.(frames := g.frames, out := g3.out + [Jmp(Bytecode.Cond.Zero, Some("while_end0"))]);
    LoopBody(env, g4, outer, f, a, d, offset, s.body);
    var g5 := g4.(out := g4.out + [PushInline(1)] + [PushStack(offset + 1)] + [PushInline(1)] +
                         [Arith(Bytecode.ArithOp.Sub)] + [Move(offset + 1)] + [Pop(1)]);
    WhileSteps(env, g, s.cond, s.body, g1, "while0", g2, g3, "while_end0", g.frames, g5);
  }

  /** "let a = 123;" as the first statement, with a fresh scope stack. */
  lemma FirstLet(env: map<Ident, string>, g: Gen, a: Ident, s: Stmt)
    requires g.frames == [StackFrame(map[], 0, 0)] && s == LetBinding(a, Number(123))
    ensures GenStmt(env, g, s) == Ok(g.(frames := [StackFrame(map[a := 0], 1, 0)], out := g.out + [PushInline(123)]))
  {
    Alone(StackFrame(map[], 0, 0));
    LetNumber(env, g, [], StackFrame(map[], 0, 0), a, 123);
    Alone(StackFrame(map[a := 0], 1, 0));
  }

  /** `test_basic`: the program "let a = 123; { let b = 321; let c = 432;
      print b; } { print a; } print a; while a != 0 { let d = 1; a = a - 1; }",
      with blocks that clean up the stack, compiled with a fresh scope stack
      and no labels yet, appends exactly the expected assembly, one piece
      per step, and leaves a bound in the outermost frame. */
  lemma BasicProgram(env: map<Ident, string>, g: Gen, a: Ident, b: Ident, c: Ident, d: Ident, prog: seq<Stmt>)
    requires a != b && a != c && a != d && b != c && b != d && c != d
    requires g.frames == [StackFrame(map[], 0, 0)] && g.labelCount == map[]
    requires |prog| == 5
    requires prog[0] == LetBinding(a, Number(123))
    requires prog[1] == Block([LetBinding(b, Number(321)), LetBinding(c, Number(432)), Print([EnvLoad(b)])], true)
    requires prog[2] == Block([Print([EnvLoad(a)])], true)
    requires prog[3] == Print([EnvLoad(a)])
    requires prog[4] == While(Op(EnvLoad(a), Ast.NotEqual, Number(0)),
                              Block([LetBinding(d, Number(1)), Assign(a, Op(EnvLoad(a), Ast.Sub, Number(1)), None)], true))
    ensures GenStmts(env, g, prog) ==
              Ok(g.(frames := [StackFrame(map[a := 0], 1, 0)],
                    out := g.out + [PushInline(123)] +
                           [PushInline(321)] + [PushInline(432)] + [PushStack(1)] + [Output(0)] + [Pop(2)] +
                           [PushStack(0)] + [Output(0)] + [Pop(0)] +
                           [PushStack(0)] + [Output(0)] +
                           [Label("while0")] +
                           [PushStack(0)] + [PushInline(0)] + [Arith(Bytecode.ArithOp.NotEqual)] +
                           [Jmp(Bytecode.Cond.Zero, Some("while_end0"))] +
                           [PushInline(1)] + [PushStack(1)] + [PushInline(1)] + [Arith(Bytecode.ArithOp.Sub)] +
                           [Move(1)] + [Pop(1)] +
                           [Jmp(Bytecode.Cond.Always, Some("while0")), Label("while_end0")],
                    labelCount := map["while" := 1, "while_end" := 1]))
  {
    var f0 := StackFrame(map[a := 0], 1, 0);
    FirstLet(env, g, a, prog[0]);
    var g1 := g.(frames := [f0], out := g.out + [PushInline(123)]);
    BasicBlocks(env, g1, a, b, c, prog[1], prog[2]);
    var g2 := g1.(out := g1.out + [PushInline(321)] + [PushInline(432)] + [PushStack(1)] + [Output(0)] + [Pop(2)]);
    var g3 := g2.(out := g2.out + [PushStack(0)] + [Output(0)] + [Pop(0)]);
    var g4 := g3.(out := g3.out + [PushStack(0)] + [Output(0)]);
    BasicPrint(env, g3, a, prog[3]);
    BasicLoop(env, g4, a, d, prog[4]);
    var g5 := GenStmt(env, g4, prog[4]).value;
    FiveStatements(env, prog, g, g1, g2, g3, g4, g5);
  }

  /** The only frame holds a in slot 0, on top of the stack. */
  lemma SlotZero(a: Ident)
    ensures [StackFrame(map[a := 0], 1, 0)] == [] + [StackFrame(map[a := 0], 1, 0)]
    ensures Resolved([StackFrame(map[a := 0], 1, 0)], a) == Ok(Some(0))
  {
    Alone(StackFrame(map[a := 0], 1, 0));
    ResolvedInLast([], StackFrame(map[a := 0], 1, 0), a);
  }

  /** The two blocks of `test_basic`, with a in slot 0. */
  lemma BasicBlocks(env: map<Ident, string>, g1: Gen, a: Ident, b: Ident, c: Ident, s1: Stmt, s2: Stmt)
    requires b != c && g1.frames == [StackFrame(map[a := 0], 1, 0)]
    requires s1 == Block([LetBinding(b, Number(321)), LetBinding(c, Number(432)), Print([EnvLoad(b)])], true)
    requires s2 == Block([Print([EnvLoad(a)])], true)
    ensures var g2 := g1.(out := g1.out + [PushInline(321)] + [PushInline(432)] + [PushStack(1)] + [Output(0)] + [Pop(2)]);
            GenStmt(env, g1, s1) == Ok(g2) &&
            GenStmt(env, g2, s2) == Ok(g2.(out := g2.out + [PushStack(0)] + [Output(0)] + [Pop(0)]))
  {
    SlotZero(a);
    FirstBlock(env, g1, [], StackFrame(map[a := 0], 1, 0), b, c, s1);
    var g2 := g1.(out := g1.out + [PushInline(321)] + [PushInline(432)] + [PushStack(1)] + [Output(0)] + [Pop(2)]);
    SecondBlock(env, g2, [], StackFrame(map[a := 0], 1, 0), a, 0, s2);
  }

  /** "print a;" of `test_basic`, with a in slot 0. */
  lemma BasicPrint(env: map<Ident, string>, g3: Gen, a: Ident, s3: Stmt)
    requires g3.frames == [StackFrame(map[a := 0], 1, 0)] && s3 == Print([EnvLoad(a)])
    ensures GenStmt(env, g3, s3) == Ok(g3.(out := g3.out + [PushStack(0)] + [Output(0)]))
  {
    SlotZero(a);
    PrintVariable(env, g3, [], StackFrame(map[a := 0], 1, 0), a, 0);
  }

  /** The loop of `test_basic`, with a in slot 0 and no labels yet. */
  lemma BasicLoop(env: map<Ident, string>, g4: Gen, a: Ident, d: Ident, s4: Stmt)
    requires a != d && g4.frames == [StackFrame(map[a := 0], 1, 0)] && g4.labelCount == map[]
    requires s4 == While(Op(EnvLoad(a), Ast.NotEqual, Number(0)),
                         Block([LetBinding(d, Number(1)), Assign(a, Op(EnvLoad(a), Ast.Sub, Number(1)), None)], true))
    ensures GenStmt(env, g4, s4) ==
              Ok(g4.(out := g4.out + [Label("while0")] +
                            [PushStack(0)] + [PushInline(0)] + [Arith(Bytecode.ArithOp.NotEqual)] +
                            [Jmp(Bytecode.Cond.Zero, Some("while_end0"))] +
                            [PushInline(1)] + [PushStack(1)] + [PushInline(1)] + [Arith(Bytecode.ArithOp.Sub)] +
                            [Move(1)] + [Pop(1)] +
                            [Jmp(Bytecode.Cond.Always, Some("while0")), Label("while_end0")],
                     labelCount := map["while" := 1, "while_end" := 1]))
  {
    SlotZero(a);
    Loop(env, g4, [], StackFrame(map[a := 0], 1, 0), a, d, 0, s4);
    assert PushStack(0 + 1) == PushStack(1) && Move(0 + 1) == Move(1);
  }

  // ----- The scope stack, in place -----

  class ScopeStack {
    var frames: seq<StackFrame>

    /** `ScopeStack::new`: one frame, starting at depth 0. */
    constructor ()
      ensures frames == [StackFrame(map[], 0, 0)]
    {
      frames := [StackFrame(map[], 0, 0)];
    }

    method PushFrame() returns (err: Option<CompileError>)
      modifies this
      ensures FramePushed(old(frames)) == Outcome(frames, err)
    {
      if |frames| == 0 {
        return Some(NoFrame);
      }
      var top := frames[|frames| - 1].stackTop;
      frames := frames + [StackFrame(map[], top, top)];
      return None;
    }

    method PopFrame() returns (grown: nat, err: Option<CompileError>)
      modifies this
      ensures FramePopped(old(frames)) == Outcome((frames, grown), err)
    {
      if |frames| == 0 {
        return 0, Some(NoFrame);
      }
      var top := frames[|frames| - 1].stackTop;
      if |frames| == 1 {
        return 0, Some(NoEnclosingFrame);
      }
      frames := frames[..|frames| - 1];
      var newTop := frames[|frames| - 1].stackTop;
      if top < newTop {
        return 0, Some(FrameShrank);
      }
      return top - newTop, None;
    }

    method AddBinding(id: Ident) returns (err: Option<CompileError>)
      modifies this
      ensures Bound(old(frames), id) == Outcome(frames, err)
    {
      if |frames| == 0 {
        return Some(NoFrame);
      }
      var f := frames[|frames| - 1];
      if f.stackTop == 0 {
        return Some(EmptyStack);
      }
      f := f.(bindings := f.bindings[id := f.stackTop - 1]);
      f := f.(bindingsTop := f.stackTop - 1);
      frames := frames[|frames| - 1 := f];
      return None;
    }

    method PushLocal() returns (err: Option<CompileError>)
      modifies this
      ensures LocalPushed(old(frames)) == Outcome(frames, err)
    {
      if |frames| == 0 {
        return Some(NoFrame);
      }
      var f := frames[|frames| - 1];
      frames := frames[|frames| - 1 := f.(stackTop := f.stackTop + 1)];
      return None;
    }

    method PopLocal(num: nat) returns (err: Option<CompileError>)
      modifies this
      ensures LocalsPopped(old(frames), num) == Outcome(frames, err)
    {
      if |frames| == 0 {
        return Some(NoFrame);
      }
      var f := frames[|frames| - 1];
      if f.stackTop < num || f.stackTop - num < f.bindingsTop {
        return Some(PopBelowBindings);
      }
      frames := frames[|frames| - 1 := f.(stackTop := f.stackTop - num)];
      return None;
    }

    /** `resolve`: searches the frames from the innermost outwards. */
    method Resolve(id: Ident) returns (r: Result<Option<nat>, CompileError>)
      ensures r == Resolved(frames, id)
    {
      if |frames| == 0 {
        return Err(NoFrame);
      }
      var top := frames[|frames| - 1].stackTop;
      var i := |frames|;
      assert frames[..i] == frames;
      while i > 0
        invariant 0 <= i <= |frames|
        invariant Lookup(frames[..i], id) == Lookup(frames, id)
      {
        var f := frames[i - 1];
        if id in f.bindings {
          var pos := f.bindings[id];
          if top <= pos {
            return Err(StaleBinding(id));
          }
          return Ok(Some(top - pos - 1));
        }
        assert frames[..i][..i - 1] == frames[..i - 1];
        i := i - 1;
      }
      return Ok(None);
    }
  }

  // ----- The code generator, in place -----

  class CodeGen {
    const scopes: ScopeStack
    var asmOut: seq<AsmStmt>
    var labelCount: map<string, nat>
    /** The identifier table, for the names of called functions. */
    const env: map<Ident, string>

    function State(): Gen
      reads this, scopes
    {
      Gen(scopes.frames, asmOut, labelCount)
    }

    /** `CodeGen::new`. */
    constructor (env: map<Ident, string>)
      ensures State() == Gen([StackFrame(map[], 0, 0)], [], map[]) && this.env == env
      ensures fresh(scopes)
    {
      scopes := new ScopeStack();
      asmOut := [];
      labelCount := map[];
      this.env := env;
    }

    method AllocLabel(template: string) returns (l: string)
      modifies this
      ensures (State(), l) == Allocated(old(State()), template)
    {
      var count := if template in labelCount then labelCount[template] else 0;
      labelCount := labelCount[template := count + 1];
      l := template + Ast.NatToString(count);
    }

    method EmitExpr(e: Expr) returns (err: Option<CompileError>)
      modifies this, scopes
      ensures GenExpr(env, old(State()), e) == Outcome(State(), err)
      decreases e
    {
      match e {
        case Number(v) =>
          asmOut := asmOut + [PushInline(v)];
          err := scopes.PushLocal();
        case EnvLoad(id) =>
          var offs := scopes.Resolve(id);
          if offs.Err? {
            return Some(offs.error);
          }
          if offs.value.None? {
            return Some(UnknownBinding(id));
          }
          asmOut := asmOut + [PushStack(offs.value.value)];
          err := scopes.PushLocal();
        case Op(a, op, b) =>
          if op.GreaterThan? || op.GreaterEqual? {
            err := EmitExpr(b);
            if err.Some? {
              return;
            }
            err := EmitExpr(a);
          } else {
            err := EmitExpr(a);
            if err.Some? {
              return;
            }
            err := EmitExpr(b);
          }
          if err.Some? {
            return;
          }
          err := scopes.PopLocal(2);
          if err.Some? {
            return;
          }
          asmOut := asmOut + [Arith(Lowered(op))];
          err := scopes.PushLocal();
        case Call(name, args) =>
          asmOut := asmOut + [PushInline(0)];
          err := scopes.PushLocal();
          if err.Some? {
            return;
          }
          ghost var start := State();
          var i := 0;
          while i < |args|
            invariant 0 <= i <= |args|
            invariant GenExprs(env, start, args) == GenExprs(env, State(), args[i..])
          {
            assert args[i..][1..] == args[i + 1..];
            err := EmitExpr(args[i]);
            if err.Some? {
              return;
            }
            i := i + 1;
          }
          if name !in env {
            return Some(UnknownFunction(name));
          }
          asmOut := asmOut + [AsmStmt.Call("func_" + env[name]), Pop(|args|)];
          err := scopes.PopLocal(|args|);
        case Error =>
          return Some(ErrorExpr);
      }
    }

    /** `emit`. The statements with nested statements or loops are lowered
        by the helpers below, one per case of the source's match. */
    method Emit(s: Stmt) returns (err: Option<CompileError>)
      modifies this, scopes
      ensures GenStmt(env, old(State()), s) == Outcome(State(), err)
      decreases s, 1
    {
      match s {
        case LetBinding(id, e) =>
          err := EmitExpr(e);
          if err.Some? {
            return;
          }
          err := scopes.AddBinding(id);
        case Assign(id, e, compound) =>
          if compound.Some? {
            return Some(CompoundAssign);
          }
          var offs := scopes.Resolve(id);
          if offs.Err? {
            return Some(offs.error);
          }
          if offs.value.None? {
            return Some(UnknownBinding(id));
          }
          err := EmitExpr(e);
          if err.Some? {
            return;
          }
          asmOut := asmOut + [Move(offs.value.value)];
          err := scopes.PopLocal(1);
        case IfElse(_, _, None) =>
          err := EmitIf(s);
        case IfElse(_, _, Some(_)) =>
          err := EmitIfElse(s);
        case While(_, _) =>
          err := EmitWhile(s);
        case Block(_, _) =>
          err := EmitBlock(s);
        case Print(es) =>
          err := EmitPrint(es);
        case Call(e) =>
          err := EmitExpr(e);
          if err.Some? {
            return;
          }
          asmOut := asmOut + [Pop(1)];
          err := scopes.PopLocal(1);
        case Return(e) =>
          err := EmitExpr(e);
      }
    }

    method EmitIf(s: Stmt) returns (err: Option<CompileError>)
      requires s.IfElse? && s.elseStmt.None?
      modifies this, scopes
      ensures GenStmt(env, old(State()), s) == Outcome(State(), err)
      decreases s, 0
    {
      err := EmitExpr(s.cond);
      if err.Some? {
        return;
      }
      var endLabel := AllocLabel("if_end");
      asmOut := asmOut + [Jmp(Bytecode.Cond.Zero, Some(endLabel))];
      err := scopes.PopLocal(1);
      if err.Some? {
        return;
      }
      err := Emit(s.thenStmt);
      if err.Some? {
        return;
      }
      asmOut := asmOut + [Label(endLabel)];
    }

    method EmitIfElse(s: Stmt) returns (err: Option<CompileError>)
      requires s.IfElse? && s.elseStmt.Some?
      modifies this, scopes
      ensures GenStmt(env, old(State()), s) == Outcome(State(), err)
      decreases s, 0
    {
      err := EmitExpr(s.cond);
      if err.Some? {
        return;
      }
      var elseLabel := AllocLabel("else");
      asmOut := asmOut + [Jmp(Bytecode.Cond.Zero, Some(elseLabel))];
      err := scopes.PopLocal(1);
      if err.Some? {
        return;
      }
      var beginLabel := AllocLabel("if_else_begin");
      asmOut := asmOut + [Label(beginLabel)];
      err := Emit(s.thenStmt);
      if err.Some? {
        return;
      }
      var endLabel := AllocLabel("else_end");
      asmOut := asmOut + [Jmp(Bytecode.Cond.Always, Some(endLabel)), Label(elseLabel)];
      err := Emit(s.elseStmt.value);
      if err.Some? {
        return;
      }
      asmOut := asmOut + [Label(endLabel)];
    }

    method EmitWhile(s: Stmt) returns (err: Option<CompileError>)
      requires s.While?
      modifies this, scopes
      ensures GenStmt(env, old(State()), s) == Outcome(State(), err)
      decreases s, 0
    {
      var startLabel := AllocLabel("while");
      asmOut := asmOut + [Label(startLabel)];
      err := EmitExpr(s.cond);
      if err.Some? {
        return;
      }
      var exitLabel := AllocLabel("while_end");
      asmOut := asmOut + [Jmp(Bytecode.Cond.Zero, Some(exitLabel))];
      err := scopes.PopLocal(1);
      if err.Some? {
        return;
      }
      err := Emit(s.body);
      if err.Some? {
        return;
      }
      asmOut := asmOut + [Jmp(Bytecode.Cond.Always, Some(startLabel)), Label(exitLabel)];
    }

    method EmitBlock(s: Stmt) returns (err: Option<CompileError>)
      requires s.Block?
      modifies this, scopes
      ensures GenStmt(env, old(State()), s) == Outcome(State(), err)
      decreases s, 0
    {
      err := scopes.PushFrame();
      if err.Some? {
        return;
      }
      ghost var start := State();
      var i := 0;
      while i < |s.stmts|
        invariant 0 <= i <= |s.stmts|
        invariant GenStmts(env, start, s.stmts) == GenStmts(env, State(), s.stmts[i..])
      {
        assert s.stmts[i..][1..] == s.stmts[i + 1..];
        err := Emit(s.stmts[i]);
        if err.Some? {
          return;
        }
        i := i + 1;
      }
      var numPop;
      numPop, err := scopes.PopFrame();
      if err.Some? {
        return;
      }
      if !s.cleanupStack {
        if numPop < 1 {
          return Some(NoBlockValue);
        }
        numPop := numPop - 1;
      }
      asmOut := asmOut + [Pop(numPop)];
    }

    method EmitPrint(es: seq<Expr>) returns (err: Option<CompileError>)
      modifies this, scopes
      ensures GenPrint(env, old(State()), es) == Outcome(State(), err)
    {
      var i := 0;
      while i < |es|
        invariant 0 <= i <= |es|
        invariant GenPrint(env, old(State()), es) == GenPrint(env, State(), es[i..])
      {
        assert es[i..][1..] == es[i + 1..];
        err := EmitExpr(es[i]);
        if err.Some? {
          return;
        }
        asmOut := asmOut + [Output(0)];
        err := scopes.PopLocal(1);
        if err.Some? {
          return;
        }
        i := i + 1;
      }
      return None;
    }

    /** `emit_return`: a jump through the return address on the stack. */
    method EmitReturn()
      modifies this
      ensures State() == old(State()).(out := old(State()).out + [Jmp(Bytecode.Cond.Always, None)])
    {
      asmOut := asmOut + [Jmp(Bytecode.Cond.Always, None)];
    }
  }
}
